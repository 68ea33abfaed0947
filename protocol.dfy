/** What the player and the interface say to each other: the control messages
    the audio server receives, the events the interface redraws on, and what the
    player knows about a track. */
module Protocol {
  import opened Base

  /** The control messages the audio server's loop matches on. */
  datatype Message =
    | Init
    | Next
    | TryAgain
    | Play
    | Pause
    | PlayPause
    | ChangeVolume(change: real)
    | NewSong
    | Bookmark
    | Quit

  /** The events that make the interface redraw. */
  datatype UIEvent = Redraw | VolumeChanged | TrackChanged | PlaybackStateChanged | ProgressUpdate | BookmarkChanged

  /** The parts of a track's information that the loop and the interface read. */
  datatype TrackMeta = TrackMeta(
    fullPath: string,
    name: string,
    displayName: string,
    customName: bool,
    width: nat,
    duration: Option<Duration>)
}
