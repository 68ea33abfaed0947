/** The player and its audio server loop. The player holds the sink's paused flag
    and volume, the current track and the bookmark flag; the audio server takes
    control messages one at a time, updates the player and reports to the
    interface. Fetching the next track, the sink's audio, MPRIS and bookmark
    storage stay outside: a fetch is counted, and storage is an input. */
module PlayerCore {
  import opened Base
  import opened Protocol

  /** `f32::clamp(v, 0.0, 1.0)`. */
  function Clamp(v: real): (r: real)
    ensures 0.0 <= r <= 1.0
    ensures 0.0 <= v <= 1.0 ==> r == v
    ensures v < 0.0 ==> r == 0.0
    ensures v > 1.0 ==> r == 1.0
  {
    if v < 0.0 then 0.0 else if v > 1.0 then 1.0 else v
  }

  /** What the interface can ask of the player in one call. */
  datatype PlaybackInfo = PlaybackInfo(
    isPaused: bool,
    isPlaying: bool,
    volume: real,
    position: Duration,
    isBookmarked: bool)

  class Player {
    var current: Option<TrackMeta>
    var paused: bool
    var volume: real
    var bookmarked: bool
    var emitProgress: bool

    /** A new player: no current track, not bookmarked, progress on, the sink at
        full volume and paused when asked to start paused. */
    constructor (startPaused: bool)
      ensures current == None && paused == startPaused && volume == 1.0
      ensures !bookmarked && emitProgress
    {
      current := None;
      paused := startPaused;
      volume := 1.0;
      bookmarked := false;
      emitProgress := true;
    }

    predicate CurrentExists(): (r: bool)
      reads this
      ensures r <==> current.Some?
    {
      current.Some?
    }

    method SetCurrent(info: TrackMeta)
      modifies this
      ensures current == Some(info)
      ensures paused == old(paused) && volume == old(volume) && bookmarked == old(bookmarked)
      ensures emitProgress == old(emitProgress)
    {
      current := Some(info);
    }

    /** Sets the sink's volume, clamped to [0, 1]. */
    method SetVolume(v: real)
      modifies this
      ensures volume == Clamp(v)
      ensures current == old(current) && paused == old(paused) && bookmarked == old(bookmarked)
      ensures emitProgress == old(emitProgress)
    {
      volume := Clamp(v);
    }

    method SetProgressEmit(emit: bool)
      modifies this
      ensures emitProgress == emit
      ensures current == old(current) && paused == old(paused) && volume == old(volume)
      ensures bookmarked == old(bookmarked)
    {
      emitProgress := emit;
    }

    /** `get_playback_info`; the sink's position is read from outside. */
    function GetPlaybackInfo(position: Duration): (r: PlaybackInfo)
      reads this
      ensures r.isPlaying ==> !r.isPaused
      ensures r.isPlaying <==> CurrentExists() && !paused
    {
      PlaybackInfo(paused, CurrentExists() && !paused, volume, position, bookmarked)
    }

    /** Whether a tick of the progress task sends a progress update. */
    predicate ProgressDue(): (r: bool)
      reads this
      ensures r ==> CurrentExists() && !paused && emitProgress
      ensures !emitProgress || paused || current.None? ==> !r
    {
      emitProgress && CurrentExists() && !paused
    }

    /** Progress updates go out exactly while emitting is on and something is
        playing. */
    lemma ProgressOnlyWhilePlaying(position: Duration)
      ensures ProgressDue() <==> emitProgress && GetPlaybackInfo(position).isPlaying
    {
    }
  }

  // ---------------------------------------------------------------------------
  // The audio server as a state machine

  /** A request to the bookmark store: the track's path, and its display name
      when the track has a custom name. */
  datatype BookmarkRequest = BookmarkRequest(path: string, customName: Option<string>)

  /** `Running` while the loop goes on; `Exited` after the quit message; `Failed`
      when bookmark storage returned an error and the loop returned it. */
  datatype Status = Running | Exited | Failed

  /** Everything the loop reads or changes. */
  datatype ServerState = ServerState(
    current: Option<TrackMeta>,
    paused: bool,
    volume: real,
    bookmarked: bool,
    armed: bool,
    events: seq<UIEvent>,
    fetches: nat,
    requests: seq<BookmarkRequest>,
    status: Status)

  /** One pass of the loop's wait: the track a spawned fetch stored with
      `set_current` meanwhile (if any), what the channel holds, whether the sink
      has run dry, and what the bookmark store answers if asked (`None` for an
      error). */
  datatype Wakeup = Wakeup(installed: Option<TrackMeta>, pending: Option<Message>, ended: bool, stored: Option<bool>)

  /** The biased select: a pending message always wins; only when there is none
      and the end-of-track wait is armed does the end of the track act as `Next`.
      `None` means the loop keeps waiting. */
  function Select(pending: Option<Message>, ended: bool, armed: bool): (r: Option<Message>)
    ensures pending.Some? ==> r == pending
    ensures pending.None? ==> (r.Some? <==> armed && ended)
    ensures r.Some? && pending.None? ==> r.value == Next
  {
    if pending.Some? then pending
    else if armed && ended then Some(Next)
    else None
  }

  function BookmarkRequestFor(track: TrackMeta): BookmarkRequest
  {
    BookmarkRequest(track.fullPath, if track.customName then Some(track.displayName) else None)
  }

  /** The events one message sends to the interface. */
  function Emitted(s: ServerState, msg: Message, stored: Option<bool>): (r: seq<UIEvent>)
    ensures |r| <= 1
    ensures ProgressUpdate !in r && Redraw !in r
  {
    match msg
    case Next => if s.current.None? then [] else [TrackChanged]
    case Init => [TrackChanged]
    case TryAgain => [TrackChanged]
    case Play => [PlaybackStateChanged]
    case Pause => [PlaybackStateChanged]
    case PlayPause => [PlaybackStateChanged]
    case ChangeVolume(_) => [VolumeChanged]
    case NewSong => [TrackChanged]
    case Bookmark => if stored.None? then [] else [BookmarkChanged]
    case Quit => []
  }

  /** One message handled by the loop. A bookmark needs a current track (the
      loop unwraps it). */
  function StepSpec(s: ServerState, msg: Message, stored: Option<bool>): (r: ServerState)
    requires s.status == Running
    requires msg.Bookmark? ==> s.current.Some?
    ensures r.events == s.events + Emitted(s, msg, stored)
    ensures r.current == s.current
    ensures (msg.Init? || msg.Next? || msg.TryAgain?) ==>
              !r.bookmarked && !r.armed && r.paused == s.paused && r.volume == s.volume
    ensures msg.Next? && s.current.None? ==> r.events == s.events && r.fetches == s.fetches
    ensures (msg.Init? || msg.TryAgain? || (msg.Next? && s.current.Some?)) ==>
              r.events == s.events + [TrackChanged] && r.fetches == s.fetches + 1
    ensures msg.Play? ==> !r.paused
    ensures msg.Pause? ==> r.paused
    ensures msg.PlayPause? ==> r.paused == !s.paused
    ensures (msg.Play? || msg.Pause? || msg.PlayPause?) ==>
              r.events == s.events + [PlaybackStateChanged] && r.volume == s.volume && r.bookmarked == s.bookmarked
    ensures msg.ChangeVolume? ==>
              r.volume == Clamp(s.volume + msg.change) && r.events == s.events + [VolumeChanged] &&
              r.paused == s.paused && r.bookmarked == s.bookmarked
    ensures msg.NewSong? ==>
              r.armed && r.events == s.events + [TrackChanged] &&
              r.paused == s.paused && r.volume == s.volume && r.bookmarked == s.bookmarked && r.fetches == s.fetches
    ensures msg.Bookmark? ==> r.requests == s.requests + [BookmarkRequestFor(s.current.value)]
    ensures msg.Bookmark? && stored.Some? ==> r.bookmarked == stored.value && r.status == Running
    ensures msg.Bookmark? && stored.None? ==> r.status == Failed && r.bookmarked == s.bookmarked
    ensures !msg.Bookmark? ==> r.requests == s.requests
    ensures msg.Quit? ==> r == s.(status := Exited)
    ensures !msg.Quit? && !msg.Bookmark? ==> r.status == Running
    ensures !(msg.Init? || msg.Next? || msg.TryAgain?) ==> r.fetches == s.fetches
    ensures !(msg.Init? || msg.Next? || msg.TryAgain? || msg.NewSong?) ==> r.armed == s.armed
    ensures msg.Bookmark? ==> r.paused == s.paused && r.volume == s.volume && r.fetches == s.fetches
  {
    var events := s.events + Emitted(s, msg, stored);
    match msg
    case Next =>
      var s' := s.(bookmarked := false, armed := false);
      if s.current.None? then s' else s'.(events := events, fetches := s.fetches + 1)
    case Init => s.(bookmarked := false, armed := false, events := events, fetches := s.fetches + 1)
    case TryAgain => s.(bookmarked := false, armed := false, events := events, fetches := s.fetches + 1)
    case Play => s.(paused := false, events := events)
    case Pause => s.(paused := true, events := events)
    case PlayPause => s.(paused := !s.paused, events := events)
    case ChangeVolume(change) => s.(volume := Clamp(s.volume + change), events := events)
    case NewSong => s.(armed := true, events := events)
    case Bookmark =>
      var requests := s.requests + [BookmarkRequestFor(s.current.value)];
      (match stored
       case None => s.(requests := requests, status := Failed)
       case Some(flag) => s.(bookmarked := flag, requests := requests, events := events))
    case Quit => s.(status := Exited)
  }

  /** The track current after a fetch may have installed one: the fetched track
      if there is one, otherwise the track that was current. */
  function Installed(current: Option<TrackMeta>, w: Wakeup): (r: Option<TrackMeta>)
    ensures w.installed.Some? ==> r == w.installed
    ensures w.installed.None? ==> r == current
  {
    if w.installed.Some? then w.installed else current
  }

  /** A bookmark can only be selected when a track is current once the wakeup's
      installed track, if any, is in place. */
  predicate BookmarkSafe(s: ServerState, w: Wakeup)
  {
    w.pending == Some(Bookmark) ==> Installed(s.current, w).Some?
  }

  /** One pass of the loop: a track the fetch stored meanwhile becomes current,
      then the loop waits and handles what the select gave. Once the loop has
      stopped, nothing more happens. */
  function PollSpec(s: ServerState, w: Wakeup): (r: ServerState)
    requires s.status == Running ==> BookmarkSafe(s, w)
    ensures s.status != Running ==> r == s
    ensures s.status == Running ==> r.current == Installed(s.current, w)
  {
    if s.status != Running then s
    else
      var t := s.(current := Installed(s.current, w));
      match Select(w.pending, w.ended, t.armed)
      case None => t
      case Some(msg) => StepSpec(t, msg, w.stored)
  }

  /** The current track after the installs of `ws`: the last track a fetch
      stored, or `current` when no fetch stored one. */
  function LastInstalled(current: Option<TrackMeta>, ws: seq<Wakeup>): (r: Option<TrackMeta>)
    ensures current.Some? ==> r.Some?
    ensures (forall i :: 0 <= i < |ws| ==> ws[i].installed.None?) ==> r == current
  {
    if |ws| == 0 then current
    else Installed(LastInstalled(current, ws[..|ws| - 1]), ws[|ws| - 1])
  }

  /** Bookmarks in `ws` arrive only while a track is current: one was current at
      the start or some fetch has stored one by then. */
  predicate RunSafe(s: ServerState, ws: seq<Wakeup>)
  {
    forall i :: 0 <= i < |ws| && ws[i].pending == Some(Bookmark) ==> LastInstalled(s.current, ws[..i + 1]).Some?
  }

  lemma RunSafePrefix(s: ServerState, ws: seq<Wakeup>, k: nat)
    requires RunSafe(s, ws) && k <= |ws|
    ensures RunSafe(s, ws[..k])
  {
    forall i | 0 <= i < k && ws[..k][i].pending == Some(Bookmark)
      ensures LastInstalled(s.current, ws[..k][..i + 1]).Some?
    {
      assert ws[..k][..i + 1] == ws[..i + 1];
    }
  }

  /** The loop over a sequence of wakeups. While it runs, the current track is the
      last one a fetch stored (a track once current never goes away); each
      wakeup adds at most one event to the log. */
  function RunSpec(s: ServerState, ws: seq<Wakeup>): (r: ServerState)
    requires RunSafe(s, ws)
    ensures r.status == Running ==> s.status == Running && r.current == LastInstalled(s.current, ws)
    ensures s.current.Some? ==> r.current.Some?
    ensures |s.events| <= |r.events| <= |s.events| + |ws|
  {
    if |ws| == 0 then s
    else
      RunSafePrefix(s, ws, |ws| - 1);
      var before := RunSpec(s, ws[..|ws| - 1]);
      assert ws[..|ws|] == ws;
      PollSpec(before, ws[|ws| - 1])
  }

  /** Whatever the changes, a volume in [0, 1] stays in [0, 1]. */
  lemma {:induction false} RunKeepsVolumeInRange(s: ServerState, ws: seq<Wakeup>)
    requires RunSafe(s, ws) && 0.0 <= s.volume <= 1.0
    ensures 0.0 <= RunSpec(s, ws).volume <= 1.0
  {
    if |ws| > 0 {
      RunSafePrefix(s, ws, |ws| - 1);
      RunKeepsVolumeInRange(s, ws[..|ws| - 1]);
    }
  }

  /** The event log keeps what it held, and the loop itself never sends progress
      updates or redraws. */
  lemma {:induction false} RunEventLog(s: ServerState, ws: seq<Wakeup>)
    requires RunSafe(s, ws)
    ensures var r := RunSpec(s, ws);
            r.events[..|s.events|] == s.events &&
            forall i :: |s.events| <= i < |r.events| ==> r.events[i] != ProgressUpdate && r.events[i] != Redraw
  {
    if |ws| > 0 {
      RunSafePrefix(s, ws, |ws| - 1);
      RunEventLog(s, ws[..|ws| - 1]);
      var before := RunSpec(s, ws[..|ws| - 1]);
      var r := RunSpec(s, ws);
      if before.status == Running {
        var w := ws[|ws| - 1];
        var m := Select(w.pending, w.ended, before.armed);
        if m.Some? {
          var e := Emitted(before.(current := Installed(before.current, w)), m.value, w.stored);
          assert r.events == before.events + e;
          assert forall i :: |before.events| <= i < |r.events| ==> r.events[i] in e;
        }
      }
    }
  }

  /** Once the loop has stopped, later wakeups change nothing. */
  lemma {:induction false} StoppedRunIgnoresRest(s: ServerState, ws: seq<Wakeup>, i: nat)
    requires RunSafe(s, ws) && i <= |ws| && RunSafe(s, ws[..i])
    requires RunSpec(s, ws[..i]).status != Running
    ensures RunSpec(s, ws) == RunSpec(s, ws[..i])
  {
    if i < |ws| {
      assert ws[..|ws| - 1][..i] == ws[..i];
      RunSafePrefix(s, ws, |ws| - 1);
      StoppedRunIgnoresRest(s, ws[..|ws| - 1], i);
    } else {
      assert ws[..i] == ws;
    }
  }

  /** A new song arms the end-of-track wait; the end of the track then advances
      exactly once (one more track change and one fetch), and a second end of
      track finds the wait disarmed. */
  lemma NewSongThenTrackEnds(s: ServerState)
    requires s.status == Running && s.current.Some?
    ensures var ws := [Wakeup(None, Some(NewSong), false, None), Wakeup(None, None, true, None), Wakeup(None, None, true, None)];
            RunSafe(s, ws) &&
            var r := RunSpec(s, ws);
            r.events == s.events + [TrackChanged, TrackChanged] && r.fetches == s.fetches + 1 &&
            !r.armed && !r.bookmarked && r.status == Running
  {
    var ws := [Wakeup(None, Some(NewSong), false, None), Wakeup(None, None, true, None), Wakeup(None, None, true, None)];
    assert ws[..2][..1] == ws[..1] && ws[..1][..0] == [];
    assert ws[..2] == ws[..|ws| - 1];
    var s1 := s.(armed := true, events := s.events + [TrackChanged]);
    NewSongArms(s);
    assert RunSpec(s, ws[..1]) == s1;
    var s2 := s1.(bookmarked := false, armed := false, events := s1.events + [TrackChanged], fetches := s1.fetches + 1);
    TrackEndAdvances(s1);
    assert RunSpec(s, ws[..2]) == s2;
    TrackEndIdle(s2);
  }

  /** A `NewSong` message arms the wait and reports a track change. */
  lemma NewSongArms(s: ServerState)
    requires s.status == Running
    ensures PollSpec(s, Wakeup(None, Some(NewSong), false, None))
              == s.(armed := true, events := s.events + [TrackChanged])
  {
  }

  /** With the wait armed and a track current, the end of the track is a `Next`. */
  lemma TrackEndAdvances(s: ServerState)
    requires s.status == Running && s.armed && s.current.Some?
    ensures PollSpec(s, Wakeup(None, None, true, None))
              == s.(bookmarked := false, armed := false, events := s.events + [TrackChanged], fetches := s.fetches + 1)
  {
  }

  /** With the wait disarmed, the end of the track does nothing. */
  lemma TrackEndIdle(s: ServerState)
    requires s.status == Running && !s.armed
    ensures PollSpec(s, Wakeup(None, None, true, None)) == s
  {
  }

  /** From a start without a track, a track that a fetch stores becomes current,
      and a bookmark after it asks the store for that track and shows its answer. */
  lemma FetchedTrackIsBookmarked(s: ServerState, track: TrackMeta, answer: bool)
    requires s.status == Running && s.current.None?
    ensures var ws := [Wakeup(None, Some(Init), false, None), Wakeup(Some(track), Some(Bookmark), false, Some(answer))];
            RunSafe(s, ws) &&
            var r := RunSpec(s, ws);
            r.current == Some(track) && r.requests == s.requests + [BookmarkRequestFor(track)] &&
            r.bookmarked == answer && r.events == s.events + [TrackChanged, BookmarkChanged] &&
            r.status == Running
  {
    var ws := [Wakeup(None, Some(Init), false, None), Wakeup(Some(track), Some(Bookmark), false, Some(answer))];
    assert ws[..1] == [ws[0]] && ws[..1][..0] == [] && ws[..2] == ws;
    var s1 := StepSpec(s, Init, None);
    assert RunSpec(s, ws[..1]) == s1;
  }

  /** Quitting stops the loop whatever follows, and the background tasks are
      then aborted. */
  lemma QuitStopsRun(s: ServerState, ws: seq<Wakeup>, i: nat)
    requires RunSafe(s, ws) && i < |ws| && ws[i].pending == Some(Quit)
    ensures RunSpec(s, ws).status != Running
  {
    assert ws[..i + 1][..i] == ws[..i];
    RunSafePrefix(s, ws, i + 1);
    RunSafePrefix(s, ws[..i + 1], i);
    var before := RunSpec(s, ws[..i]);
    assert RunSpec(s, ws[..i + 1]) == PollSpec(before, ws[i]);
    StoppedRunIgnoresRest(s, ws, i + 1);
  }

  class AudioServer {
    const player: Player
    var armed: bool
    var events: seq<UIEvent>
    var fetches: nat
    var requests: seq<BookmarkRequest>
    var status: Status
    var downloaderAborted: bool
    var progressTaskAborted: bool

    function Snapshot(): ServerState
      reads this, player
    {
      ServerState(player.current, player.paused, player.volume, player.bookmarked, armed, events, fetches, requests, status)
    }

    /** Start of `play`: the stored volume is applied, clamped, and nothing has
        been sent or fetched. */
    constructor (player: Player, storedVolume: real)
      modifies player
      ensures this.player == player
      ensures player.volume == Clamp(storedVolume)
      ensures player.current == old(player.current) && player.paused == old(player.paused)
      ensures player.bookmarked == old(player.bookmarked) && player.emitProgress == old(player.emitProgress)
      ensures !armed && events == [] && fetches == 0 && requests == [] && status == Running
      ensures !downloaderAborted && !progressTaskAborted
    {
      this.player := player;
      armed := false;
      events := [];
      fetches := 0;
      requests := [];
      status := Running;
      downloaderAborted := false;
      progressTaskAborted := false;
      new;
      player.SetVolume(storedVolume);
    }

    /** Handles one message. */
    method Step(msg: Message, stored: Option<bool>)
      requires status == Running
      requires msg.Bookmark? ==> player.current.Some?
      modifies this, player
      ensures Snapshot() == StepSpec(old(Snapshot()), msg, stored)
      ensures player.emitProgress == old(player.emitProgress)
      ensures downloaderAborted == old(downloaderAborted) && progressTaskAborted == old(progressTaskAborted)
    {
      match msg
      case Next =>
        player.bookmarked := false;
        armed := false;
        if player.current.Some? {
          events := events + [TrackChanged];
          fetches := fetches + 1;
        }
      case Init =>
        player.bookmarked := false;
        armed := false;
        events := events + [TrackChanged];
        fetches := fetches + 1;
      case TryAgain =>
        player.bookmarked := false;
        armed := false;
        events := events + [TrackChanged];
        fetches := fetches + 1;
      case Play =>
        player.paused := false;
        events := events + [PlaybackStateChanged];
      case Pause =>
        player.paused := true;
        events := events + [PlaybackStateChanged];
      case PlayPause =>
        player.paused := !player.paused;
        events := events + [PlaybackStateChanged];
      case ChangeVolume(change) =>
        player.SetVolume(player.volume + change);
        events := events + [VolumeChanged];
      case NewSong =>
        armed := true;
        events := events + [TrackChanged];
      case Bookmark =>
        var track := player.current.value;
        var request := BookmarkRequest(track.fullPath, if track.customName then Some(track.displayName) else None);
        requests := requests + [request];
        if stored.None? {
          status := Failed;
        } else {
          player.bookmarked := stored.value;
          events := events + [BookmarkChanged];
        }
      case Quit =>
        status := Exited;
    }

    /** One pass of the loop: a track the fetch stored meanwhile becomes current,
        then the biased select, then the message it gave. */
    method Poll(w: Wakeup)
      requires status == Running && BookmarkSafe(Snapshot(), w)
      modifies this, player
      ensures Snapshot() == PollSpec(old(Snapshot()), w)
      ensures player.emitProgress == old(player.emitProgress)
      ensures downloaderAborted == old(downloaderAborted) && progressTaskAborted == old(progressTaskAborted)
    {
      if w.installed.Some? {
        player.SetCurrent(w.installed.value);
      }
      var msg := Select(w.pending, w.ended, armed);
      if msg.Some? {
        Step(msg.value, w.stored);
      }
    }

    /** `Player::play` over a sequence of wakeups: loop until quit or an error,
        then abort the downloader and the progress task only after a quit. */
    method Run(ws: seq<Wakeup>)
      requires status == Running && !downloaderAborted && !progressTaskAborted
      requires RunSafe(Snapshot(), ws)
      modifies this, player
      ensures Snapshot() == RunSpec(old(Snapshot()), ws)
      ensures downloaderAborted <==> status == Exited
      ensures progressTaskAborted <==> status == Exited
      ensures player.emitProgress == old(player.emitProgress)
    {
      ghost var start := Snapshot();
      var i := 0;
      while i < |ws| && status == Running
        invariant 0 <= i <= |ws|
        invariant RunSafe(start, ws[..i])
        invariant Snapshot() == RunSpec(start, ws[..i])
        invariant !downloaderAborted && !progressTaskAborted
        invariant player.emitProgress == old(player.emitProgress)
      {
        assert ws[..i + 1][..i] == ws[..i];
        RunSafePrefix(start, ws, i + 1);
        Poll(ws[i]);
        i := i + 1;
      }
      if i < |ws| {
        StoppedRunIgnoresRest(start, ws, i);
      } else {
        assert ws[..i] == ws;
      }
      if status == Exited {
        downloaderAborted := true;
        progressTaskAborted := true;
      }
    }
  }
}
