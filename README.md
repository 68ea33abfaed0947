# lowfi's player loop and component interface, in Dafny

lowfi is a terminal lo-fi radio. This project models three parts of it:

- **The audio server.** `Player::play` takes control messages one at a time: next track, play, pause, volume, new song, bookmark, quit. For each one it updates the player's state, reports one event to the interface and may start a fetch of the next track. A separate progress task ticks while a track plays.
- **The component interface.** The render context, the leaf widgets and the containers:
  - leaf widgets: label, progress bar, volume bar, status line, control hints;
  - containers: vertical stack, horizontal stack, and the dynamic component that shows one of several states;
  - example widgets: a spectrum analyser, a playlist, lyrics, a network indicator and an equalizer preset selector.
- **The interface manager.** `UIManager` builds a window whose layout is the status line, a middle component and the control hints. Each update:
  1. refreshes the context from the player;
  2. runs the volume-flash counter, which picks the volume bar for the eleven updates after a volume change and the progress bar otherwise;
  3. draws the layout framed in the window.

  The released interface (`src/player/ui.rs`) shares the middle component with the layout. The draft (`a_files/ui_modular.rs`) hands the layout a copy.

Modules, in dependency order:

| module | file | what it holds |
|---|---|---|
| `Base` | base.dfy | `Option`, durations in nanoseconds, saturating subtraction, Rust's round-and-cast |
| `Text` | text.dfy | repetition, `join`, `str::lines`, decimal printing and zero padding |
| `Protocol` | protocol.dfy | control messages, interface events, track metadata |
| `Components` | components.dfy | the render context and the leaf widgets of the component library |
| `CustomWidgets` | custom_widgets.dfy | the example widgets, as functions of their fields |
| `Tree` | tree.dfy | the closed set of components as one datatype: render, visibility, height, minimum width, events |
| `Containers` | containers.dfy | `VStack`, `HStack` and `DynamicComponent` as classes that change in place |
| `CustomComponents` | custom_components.dfy | the example widgets as classes with their setters |
| `Window` | window.dfy | `ComponentWindow`: borders, framing of content lines, the draw outcome |
| `PlayerCore` | player.dfy | `Player` and the audio server loop, as a class proved against a state-machine function |
| `PlayerUI` | player_ui.dfy | the volume counter, the context update, the event filter, the released `UIManager` and the interface loop |
| `DraftUI` | draft_ui.dfy | the draft `UIManager`, which freezes a copy of its middle component |

Modelling choices:

- **Trait objects.** A boxed `dyn UIComponent` becomes one constructor of `Tree.Component`. The classes that change in place expose `AsComponent()`, the value the tree renders.
- **Numbers.**
  - `f32` arithmetic is exact `real` arithmetic.
  - `round() as usize` rounds halves up and saturates below at 0.
  - `Duration` is a natural number of nanoseconds.
- **Text.** Strings are sequences of characters. A grapheme is one character, and byte length is character length. Styling escape codes (`bold`, `italic`) add nothing.
- **Outside the model.** Time, the sink's position, the channel, the track a fetch stores and the bookmark store's answer are parameters: `Wakeup` for the server loop, `position` for the interface.

## Model

| member | source | states |
|---|---|---|
| PlayerCore.Clamp | src/player.rs:100-104 | the result lies in [0, 1]; it equals the input inside the range, 0 below it and 1 above it |
| PlayerCore.Player.constructor | src/player.rs:136-161 | no current track, not bookmarked, progress emission on, the sink at full volume and paused exactly when asked to start paused |
| PlayerCore.Player.CurrentExists | src/player.rs:96-98 | holds exactly when a track is current |
| PlayerCore.Player.SetVolume | src/player.rs:100-104 | the sink's volume becomes the clamped value; the track, pause, bookmark and progress flags are unchanged |
| PlayerCore.Player.SetCurrent | src/player.rs:90-94 | the current track becomes the given one; nothing else changes |
| PlayerCore.Player.SetProgressEmit | src/player.rs:110-113 | only the progress-emit flag changes, to the given value |
| PlayerCore.Player.GetPlaybackInfo | src/player.rs:172-182 | "playing" holds exactly when a track is current and the sink is not paused; playing implies not paused |
| PlayerCore.Player.ProgressOnlyWhilePlaying | src/player.rs:211-218 | a tick of the progress task sends an update exactly when emitting is on and the playback info says playing |
| PlayerCore.Player.ProgressDue | src/player.rs:211-216 | a tick is due only with emission on, a current track and a running sink, and never without any of them |
| PlayerCore.Select | src/player.rs:224-228 | the biased select: a pending message always wins; otherwise the end of the track yields `Next` exactly when the wait is armed |
| PlayerCore.Emitted | src/player.rs:230-305 | each message sends at most one event, never a progress update and never a redraw |
| PlayerCore.StepSpec | src/player.rs:230-305 | per message: the events sent, the bookmark reset and the fetch on `Next`/`Init`/`TryAgain` (a `Next` without a track sends nothing), the pause flag for play/pause/toggle, the clamped volume change, the arming on `NewSong`, the bookmark request and the stored flag or failure, and exit on `Quit`; every other message keeps the armed wait, a bookmark keeps the pause flag, volume and fetch count; the current track never changes |
| PlayerCore.PollSpec | src/player.rs:219-229 | a stopped loop ignores the wakeup; a running one first makes current the track a fetch stored meanwhile, if any, and keeps it through the message |
| PlayerCore.Installed | src/player.rs:90-94 | a stored track replaces the current one; without one the current track stays |
| PlayerCore.RunSpec | src/player.rs:219-306 | while the loop runs, the current track is the last one a fetch stored (or the starting track); a current track never goes away; each wakeup adds at most one event |
| PlayerCore.LastInstalled | src/player.rs:90-94 | the last track stored over a run, or the starting track when none was; a starting track is never lost |
| PlayerCore.RunKeepsVolumeInRange | src/player.rs:269-276 | after any run, a volume that started in [0, 1] is still in [0, 1] |
| PlayerCore.RunEventLog | src/player.rs:230-305 | the event log keeps its prefix and never gains a progress update or a redraw |
| PlayerCore.StoppedRunIgnoresRest | src/player.rs:304 | once the loop has quit or failed, later wakeups change nothing |
| PlayerCore.NewSongThenTrackEnds | src/player.rs:277-288 | `NewSong` arms the end-of-track wait; the first end of track then advances exactly once (two track-change events, one fetch) and disarms, so a second end of track does nothing |
| PlayerCore.NewSongArms | src/player.rs:277-288 | `NewSong` arms the wait and reports a track change, nothing else |
| PlayerCore.TrackEndAdvances | src/player.rs:224-241 | with the wait armed and a track current, the end of the track acts as `Next`: bookmark and wait reset, one track change, one fetch |
| PlayerCore.TrackEndIdle | src/player.rs:224-228 | with the wait disarmed, the end of the track changes nothing |
| PlayerCore.FetchedTrackIsBookmarked | src/player.rs:289-303 | from a start without a track, a track a fetch stores becomes current and a bookmark then asks the store for that track and shows its answer |
| PlayerCore.QuitStopsRun | src/player.rs:304-309 | a `Quit` anywhere in the wakeups stops the loop for good |
| PlayerCore.AudioServer.constructor | src/player.rs:196-199 | the stored volume is applied, clamped; nothing has been sent, fetched or requested, and nothing is aborted |
| PlayerCore.AudioServer.Step | src/player.rs:230-305 | the state after one message equals `StepSpec` of the state before; the abort flags and the progress flag are unchanged |
| PlayerCore.AudioServer.Poll | src/player.rs:219-229 | a stored track is installed with `set_current`, then the state after the wakeup equals `PollSpec` of the state before |
| PlayerCore.AudioServer.Run | src/player.rs:219-309 | the loop's final state equals `RunSpec` of the start; the downloader and the progress task are aborted exactly when the loop exited on `Quit` |
| PlayerUI.VolumeTimer.constructor | src/player/ui.rs:72-75 | the counter starts idle, at 0 |
| PlayerUI.VolumeTimer.FlashAudio | src/player/ui.rs:77-79 | the counter is set to 1 |
| PlayerUI.TimerStep | src/player/ui.rs:239-252 | an update shows the volume bar exactly when the counter is positive; the counter then goes up by one up to `AUDIO_BAR_DURATION`, resets to 0 past it, stays 0 when idle, and never exceeds `AUDIO_BAR_DURATION + 1` |
| PlayerUI.CountdownShows | src/player/ui.rs:239-252 | from any counter value `t` in [1, 11], the next `12 - t` updates show the volume bar and the one after shows the progress bar |
| PlayerUI.FlashShowsVolumeBar | src/player/ui.rs:69-79 | after `flash_audio`, exactly `AUDIO_BAR_DURATION + 1` updates show the volume bar, then the progress bar returns |
| PlayerUI.IdleShowsProgress | src/player/ui.rs:249-251 | with the counter idle, every update shows the progress bar |
| PlayerUI.PlaybackStateOf | src/player/ui.rs:216-222 | `Loading` exactly without a track, `Paused` exactly with a track and a paused sink, `Playing` exactly with a track and a running sink |
| PlayerUI.PlayingMatchesPlaybackInfo | src/player/ui.rs:216-222 | the interface shows `Playing` exactly when the player's playback info says it is playing |
| PlayerUI.TrackInfoOf | src/player/ui.rs:224-231 | the display name, width and duration are copied; the name is the display name in the released interface and the track's own name in the draft |
| PlayerUI.UpdatedContext | src/player/ui.rs:215-236 | width and border flag are kept; the state follows the track and the sink; track info is present exactly when a track is; the position is 0 without a track and the sink's position with one; the volume and bookmark flag are copied |
| PlayerUI.RedrawNeeded | src/player/ui.rs:258-273 | every event but a progress update redraws; a progress update redraws exactly when the sink is not paused and a track is current |
| PlayerUI.TickerUpdatesAreDrawn | src/player/ui.rs:267 | every progress update the player's ticker sends passes the interface's filter |
| PlayerUI.InterfaceWidth | src/player/ui.rs:363 | the width is odd, between 21 and 85, and `21 + 2w` for a `--width` of at most 32 |
| PlayerUI.InterfaceWidthFits | src/player/ui.rs:363 | every width the interface starts with fits the full layout, and the control line spans it exactly |
| PlayerUI.MiddleRender | src/player/ui.rs:34-39 | with either state selected, the shared middle component is visible and draws the selected bar |
| PlayerUI.ManagerLayoutRender | src/player/ui.rs:179-199 | the manager's layout renders as the status line, the selected bar, and the control hints unless minimalist, one per line |
| PlayerUI.ScreensDiffer | src/player/ui.rs:239-255 | the screen with the volume bar selected differs from the screen with the progress bar |
| PlayerUI.BarsDiffer | a_files/ui_component_system.rs:220-283 | the progress bar's line opens with `" ["` and the volume bar's with `" v"`, so the two never draw the same line |
| PlayerUI.SelectBar | src/player/ui.rs:239-252 | the middle component selects the volume bar exactly when the counter was positive, else the progress bar; the counter takes its next value; the states are unchanged |
| PlayerUI.NewMiddle | src/player/ui.rs:184-191 | a fresh middle component holding the progress bar at index 0 and the volume bar at index 1, with the progress bar selected |
| PlayerUI.NewLayout | src/player/ui.rs:180-197 | a stack without spacing of the status bar, the middle component, and the control hints unless minimalist |
| PlayerUI.RenderLayout | src/player/ui.rs:123-127 | rendering the window whose root is the layout around a state draws that state's screen, split into lines and framed; only the written log changes |
| PlayerUI.UIManager.constructor | src/player/ui.rs:173-209 | a fresh window whose borders are drawn for the given width and border style and whose context is that width, loading, no track, full volume, position 0, not paused, with nothing written, and a fresh middle component with the progress bar selected; the manager is valid |
| PlayerUI.UIManager.Update | src/player/ui.rs:211-256 | the context becomes `UpdatedContext` of the player's state; the middle component follows `TimerStep`; the frame drawn is the screen of the bar now selected, so the volume bar shows right after a flash; the window's size and borders are kept |
| PlayerUI.UIManager.HandleEvent | src/player/ui.rs:258-273 | an update happens exactly when `RedrawNeeded` holds, and then draws the selected bar's screen; otherwise window, middle component and counter are untouched |
| PlayerUI.RedrawCount | src/player/ui.rs:330-337 | at most one redraw per event |
| PlayerUI.Dispatch | src/player/ui.rs:333-336 | one event of the loop: it draws exactly when `RedrawNeeded` holds, and then reports whether the volume bar was shown; without a draw the counter is unchanged and nothing fails |
| PlayerUI.InterfaceLoop | src/player/ui.rs:322-338 | the first update and then every event in turn; the bars shown follow the volume counter from its start (`Shows`), and without a failure there is one draw for the first update plus one per event that needs a redraw |
| PlayerUI.EventLoop | src/player/ui.rs:332-337 | the event loop extends the record of bars shown as `Shows` predicts, by exactly the events that need a redraw when nothing fails |
| PlayerUI.ShowsExtend | src/player/ui.rs:239-252 | one more update appends what the counter then says and advances the counter by one step |
| Window.Borders | src/player/ui.rs:93-98 | empty borders when borderless; otherwise a top and a bottom line of `width + 4` characters with their corners |
| Text.Lines | src/player/ui.rs:125 | `str::lines`: no lines exactly for the empty string, no line holds a line break, and text without a line break is one line |
| Window.FrameLine | src/player/ui.rs:131-142 | a content line is padding, a space, the line, filler spaces up to the width (when spacing), a space, padding and `"\r\n"`; a line no wider than the window is framed to `width + 6` characters |
| Window.Menu | src/player/ui.rs:131-142 | the framed lines in order: empty exactly without lines, at least six characters per line, ending in `"\r\n"` |
| Window.MenuLength | src/player/ui.rs:131-142 | with spacing, lines no wider than the window fold to `width + 6` characters each |
| Window.DrawFrame | src/player/ui.rs:129-159 | more lines than a `u16` holds give the conversion error; otherwise the frame is the top border, a line break, the framed lines in order and the bottom border, and the cursor moves up one row more than there are lines, wrapping to 0 at the `u16` limit |
| Window.FrameSize | src/player/ui.rs:129-159 | a bordered frame of fitting lines is two border lines plus `width + 6` characters per content line |
| Window.ComponentWindow.constructor | src/player/ui.rs:92-110 | the borders for the width, the default layout as root, and a context at the window's width, loading, without a track, at full volume |
| Window.ComponentWindow.SetRoot | src/player/ui.rs:112-114 | only the root changes |
| Window.ComponentWindow.UpdateContext | src/player/ui.rs:116-121 | only the context changes |
| Window.ComponentWindow.Draw | src/player/ui.rs:129-159 | the outcome is `DrawFrame` of the content; a drawn frame is appended to the written log, a failure writes nothing |
| Window.ComponentWindow.Render | src/player/ui.rs:123-127 | the outcome is `DrawFrame` of the lines of the root's render in the current context |
| Components.RenderLabel | a_files/ui_component_system.rs:146-154 | a label draws its text unchanged, whatever the style |
| Components.FormatDuration | a_files/ui_component_system.rs:194-198 | two digit groups of at least two digits around a colon, reading as the whole minutes and the remaining seconds; five characters under 100 minutes |
| Components.FormatDurationRoundTrip | a_files/ui_component_system.rs:194-198 | reading the clock back gives the duration's whole seconds |
| Components.BarInterior | a_files/ui_component_system.rs:220-224 | exactly `bw` cells, each the fill character below `filled` and the empty character from there, even when `filled` exceeds `bw` |
| Components.PlayedCells | a_files/ui_component_system.rs:211-212 | up to the end of the track, the rounded played fraction is at most the bar's width |
| Components.ProgressFilled | a_files/ui_component_system.rs:209-218 | 0 without a track or a known duration; at most the bar's width while the position is within a nonzero duration |
| Components.ProgressTimes | a_files/ui_component_system.rs:225-234 | a space, the position's clock, a slash, the track's clock (`TotalClock`) and a space; 13 characters when both clocks are short |
| Components.TotalClock | a_files/ui_component_system.rs:227-231 | the track's duration on the clock, `00:00` without a track or a known duration |
| Components.ProgressTimesReadBack | a_files/ui_component_system.rs:225-234 | with short clocks, the position and the track's length read back as whole seconds from fixed columns (0 for an unknown length) |
| Components.ProgressBarWidth | a_files/ui_component_system.rs:202-206 | with times, 16 columns fewer than the context (0 below 16); without times, the whole width |
| Components.RenderProgressBar | a_files/ui_component_system.rs:202-238 | the line opens with `" ["`, holds the interior of the bar's width, closes it with `]` and ends with the times or a single space; with times and short clocks it is exactly as wide as the context (from 16 columns), without times it is 4 wider |
| Components.ProgressBarAtMinWidth | a_files/ui_component_system.rs:240-242 | at its minimum width, a progress bar with short times renders exactly that many characters |
| Components.VolumeFilled | a_files/ui_component_system.rs:277 | a volume in [0, 1] fills at most the bar; a volume at or below 0 fills nothing |
| Components.VolumePercentRange | a_files/ui_component_system.rs:270 | the percentage fits a `u32`; a volume in [0, 1] is at most 100 percent and one at or below 0 is 0 percent |
| Components.VolumeBarWidthLeaves | a_files/ui_component_system.rs:271-275 | with a percentage, 17 columns fewer than the context; without, 10 fewer; 0 when the context is narrower than that |
| Components.VolumeSuffix | a_files/ui_component_system.rs:285-289 | six characters with a percentage under 1000, one without a percentage |
| Components.RenderVolumeBar | a_files/ui_component_system.rs:269-290 | the line opens with `" volume: ["`, holds the interior of the bar's width, closes it with `]` and ends with `VolumeSuffix`; with a percentage it is exactly as wide as the context (from 17 columns), without one it is 2 wider |
| Components.VolumeBarAtMinWidth | a_files/ui_component_system.rs:292-294 | at its minimum width, a volume bar with a percentage renders exactly that many characters |
| Components.BookmarkMark | a_files/ui_component_system.rs:331-335 | `"*"` exactly when the indicator is on and the track is bookmarked, else empty |
| Components.StatusText | a_files/ui_component_system.rs:312-341 | for a playing or paused track: the word, a space, the mark and the display name; otherwise the bare word |
| Components.RenderStatusBar | a_files/ui_component_system.rs:311-351 | when the text fits the budget, the text then spaces for the spare width; otherwise exactly the text's first `width - 3` characters (all of it if shorter) then `"..."`, at most the width |
| Components.StatusBarNamedFillsWidth | a_files/ui_component_system.rs:337-349 | a named track whose recorded width is its real width fills the line exactly, and the line starts with the word, a space and the mark |
| Components.StatusBarUnnamed | a_files/ui_component_system.rs:312-349 | without a name the line is the word followed by `width - 2*|word| - |mark|` spaces, so no mark is shown |
| Components.FormatControls | a_files/ui_component_system.rs:395-398 | hint `i` is control `i`'s key followed by its label, and the hints add up to the controls' total length |
| Components.RenderControlBar | a_files/ui_component_system.rs:383-408 | the formatted hints joined by runs of `ControlSpacing` spaces, plus one space when the width is even; its length is the hints plus the gaps, and more than one hint is at most one wider than the context |
| Components.DefaultControlBarFillsWidth | a_files/ui_component_system.rs:359-408 | the default hints fill every width that fits them exactly |
| CustomWidgets.CharIndex | a_files/custom_components_example.rs:43-44 | the level index is inside the characters; 0 for heights at or below 0, the last for heights at or above 1 |
| CustomWidgets.BarCells | a_files/custom_components_example.rs:42-46 | `width / bars` copies of the height's level character |
| CustomWidgets.RenderSpectrum | a_files/custom_components_example.rs:38-50 | `width / bars` cells for every height |
| CustomWidgets.SpectrumCells | a_files/custom_components_example.rs:38-50 | cell `i` shows the level character of height `i / (width / bars)` |
| CustomWidgets.SpectrumCellAt | a_files/custom_components_example.rs:42-46 | one cell of the spectrum, by induction on the heights |
| CustomWidgets.SpectrumFitsWidth | a_files/custom_components_example.rs:38-54 | with one height per bar the spectrum never overflows the width, and at its minimum width it fills it exactly |
| CustomWidgets.Resized | a_files/custom_components_example.rs:28-35 | exactly `bars` heights: the data's first values, then zeros |
| CustomWidgets.SpectrumHandleEvent | a_files/custom_components_example.rs:56-65 | consumed exactly for a custom event starting `spectrum:`, never a redraw |
| CustomWidgets.PlaylistLine | a_files/custom_components_example.rs:98-115 | the line starts with the play marker exactly for the current track; then the track itself when it fits `width - 3`, otherwise its first `width - 6` characters and `"..."`, one short of the width |
| CustomWidgets.PlaylistLines | a_files/custom_components_example.rs:97-117 | one line per track of the window `start..end`, in order: line `i` is `PlaylistLine` of track `start + i`, marked exactly when that track is current |
| CustomWidgets.RenderPlaylist | a_files/custom_components_example.rs:93-120 | an empty playlist draws "No tracks in playlist"; otherwise the window's lines joined by line breaks |
| CustomWidgets.PlaylistStart | a_files/custom_components_example.rs:98 | the window starts at most half a window before the current track, exactly half when there is room |
| CustomWidgets.PlaylistEnd | a_files/custom_components_example.rs:99 | the window ends a full window after its start or at the end of the list, whichever comes first |
| CustomWidgets.PlaylistHeight | a_files/custom_components_example.rs:122-124 | the smaller of the window size and the number of tracks |
| CustomWidgets.PlaylistWindowShowsCurrent | a_files/custom_components_example.rs:97-124 | with the current track in the list, the window contains it and is no taller than the playlist's height |
| CustomWidgets.LeadingRun | a_files/custom_components_example.rs:160-167 | the leading lyric lines whose time has come, up to the first one still ahead |
| CustomWidgets.CurrentLine | a_files/custom_components_example.rs:158-167 | none exactly when there are no lyrics or the first is still ahead; otherwise a line whose time and all earlier times have come, and whose next line is still ahead |
| CustomWidgets.RenderLyrics | a_files/custom_components_example.rs:154-180 | no lyrics draw "No lyrics available"; with lyrics but no line reached yet, "♪ ♪ ♪"; otherwise the current line's text, after its bracketed clock and a space when timestamps are shown |
| CustomWidgets.LyricsHandleEvent | a_files/custom_components_example.rs:182-204 | a progress update moves the current line to `CurrentLine` at its position; it asks for a redraw exactly when the line changed; other events are ignored |
| CustomWidgets.RenderNetworkStatus | a_files/custom_components_example.rs:241-258 | the icon first, then with details a space and the word; never wider than the minimum width |
| CustomWidgets.NextIndex | a_files/custom_components_example.rs:281-283 | the next preset wraps from the last to the first |
| CustomWidgets.PrevIndex | a_files/custom_components_example.rs:285-291 | the previous preset stays within the presets |
| CustomWidgets.PrevNextInverse | a_files/custom_components_example.rs:281-291 | stepping forward then back, or back then forward, returns to the same preset |
| CustomWidgets.NextIteratedCycles | a_files/custom_components_example.rs:281-283 | `k` steps forward within one lap land on `current + k` wrapped once; as many steps as presets return to the start |
| CustomWidgets.RenderEqualizer | a_files/custom_components_example.rs:295-300 | `"EQ: "` followed by the current preset's name |
| Tree.IsVisible | a_files/ui_component_system.rs:530-534 | every component but a dynamic one is visible (the default at lines 25-27); a dynamic one is visible exactly when its current state exists and is visible |
| Tree.Height | a_files/ui_component_system.rs:452-458 | a stack counts `spacing` for every gap between its children, hidden ones included; a playlist is its window's height; every other component is one line |
| Tree.CorrectedHeight | a_files/ui_component_system.rs:452-458 | as `Height`, but a stack counts `spacing` only between visible children |
| Tree.MinWidth | a_files/ui_component_system.rs:240-242 | a label its text's length, a progress bar 20 with times and 5 without, a volume bar 20 or 12, a spectrum two columns per bar; stacks, dynamic components, the status line and the control hints 0 (the default at lines 15-17) |
| Tree.DefaultLayout | a_files/ui_component_system.rs:544-562 | a stack without spacing of the status line, an empty (so invisible) dynamic component and, unless minimalist, the control hints |
| Tree.ChildContext | a_files/custom_components_example.rs:351-357 | each of `n` children gets an `n`-th of the width and the rest of the context unchanged |
| Tree.Render | a_files/ui_component_system.rs:513-520 | a dynamic component whose state is missing draws nothing; an empty horizontal stack draws nothing |
| Tree.PopN | a_files/ui_component_system.rs:444-447 | popping `n` lines removes up to `n` from the end and nothing when there are none |
| Tree.Interleave | a_files/ui_component_system.rs:432-450 | renders with `spacing` blank lines between consecutive ones: `|rs| + spacing*(|rs|-1)` lines ending with the last render |
| Tree.StackLinesInterleave | a_files/ui_component_system.rs:432-450 | the push and pop of `VStack::render` yield exactly the visible renders with spacing between them, none after the last |
| Tree.StackLinesMatchCorrectedHeight | a_files/ui_component_system.rs:452-458 | with spacing counted only between visible children, a stack of one-line children renders exactly its height in lines |
| Tree.StackHeightOvercounts | a_files/ui_component_system.rs:452-458 | as written, `height` counts the gap before a hidden child: a label and an empty dynamic component one line apart claim two lines and draw one |
| Tree.AllVisibleStack | a_files/ui_component_system.rs:432-450 | a stack without spacing whose children are all visible draws their renders joined by newlines |
| Tree.RenderAll | a_files/custom_components_example.rs:354-358 | one render per child, in order |
| Tree.HStackWidth | a_files/custom_components_example.rs:347-363 | when each child keeps to its share, the line is at most the width plus one space between each pair of children |
| Tree.FitsAtMinWidth | a_files/ui_component_system.rs:15-17 | a label, a network indicator, a spectrum, a progress bar with short times or a volume bar with its percentage fits on the line at its minimum width |
| Tree.HandleEvent | a_files/ui_component_system.rs:522-528 | a component that does not ask for a redraw is unchanged; visibility never changes; a dynamic component with its state missing ignores the event; only dynamic components, spectra and lyrics react |
| Tree.DefaultLayoutRender | a_files/ui_component_system.rs:544-562 | the default layout's empty dynamic component is skipped: it draws the status line, then the control hints unless minimalist |
| Containers.Without | a_files/ui_component_system.rs:466-472 | removing index `i` keeps the children before it and shifts the rest down by one |
| Containers.ChildAt | a_files/ui_component_system.rs:478-480 | a child exactly for an index in range, and then the child at that index |
| Containers.PopLines | a_files/ui_component_system.rs:444-447 | the pop loop leaves `PopN` of the pushed lines |
| Containers.VStack.constructor | a_files/ui_component_system.rs:418-429 | no children and the given spacing |
| Containers.VStack.ChildCount | a_files/ui_component_system.rs:474-476 | the number of children |
| Containers.VStack.AddChild | a_files/ui_component_system.rs:462-464 | the child is appended and the count grows by one |
| Containers.VStack.RemoveChild | a_files/ui_component_system.rs:466-472 | in range: returns the child and removes it; out of range: returns none and changes nothing |
| Containers.VStack.PushChildren | a_files/ui_component_system.rs:434-442 | the push loop yields every visible child's render followed by `spacing` blank lines |
| Containers.VStack.Render | a_files/ui_component_system.rs:432-450 | the render equals the tree's render, which is the visible renders with spacing between them, joined by newlines |
| Containers.HStack.constructor | a_files/custom_components_example.rs:339-343 | no children |
| Containers.HStack.ChildCount | a_files/custom_components_example.rs:378-380 | the number of children |
| Containers.HStack.AddChild | a_files/custom_components_example.rs:366-368 | the child is appended and the count grows by one |
| Containers.HStack.RemoveChild | a_files/custom_components_example.rs:370-376 | in range: returns the child and removes it; out of range: returns none and changes nothing |
| Containers.HStack.Render | a_files/custom_components_example.rs:347-363 | nothing without children; otherwise every child drawn at its share of the width, joined by single spaces |
| Containers.DynamicComponent.constructor | a_files/ui_component_system.rs:490-495 | no states, state 0 selected |
| Containers.DynamicComponent.AddState | a_files/ui_component_system.rs:497-500 | the state is appended and its index returned; the selection is kept |
| Containers.DynamicComponent.SetState | a_files/ui_component_system.rs:502-506 | an existing state is selected; an out-of-range index keeps the selection |
| Containers.DynamicComponent.HandleEvent | a_files/ui_component_system.rs:522-528 | the result and new state equal the tree's `HandleEvent`; the selection and the number of states are kept; a missing state ignores the event |
| Containers.DynamicOutOfRange | a_files/ui_component_system.rs:514-532 | a dynamic component whose state is missing draws nothing, ignores every event and is not visible |
| Containers.AddAndSelect | a_files/ui_component_system.rs:497-506 | adding a state and selecting its index makes it current |
| Containers.SwitchBetweenStates | a_files/custom_components_example.rs:437-454 | three states get the indices 0, 1 and 2, and selecting one makes it current |
| CustomComponents.SpectrumAnalyzer.constructor | a_files/custom_components_example.rs:20-26 | `bars` heights at zero and the level characters |
| CustomComponents.SpectrumAnalyzer.UpdateSpectrum | a_files/custom_components_example.rs:28-35 | the heights become `Resized(data, bars)`, exactly `bars` of them |
| CustomComponents.SpectrumAnalyzer.Render | a_files/custom_components_example.rs:38-50 | the loop's result equals the tree's render: `width / bars` cells per height |
| CustomComponents.PlaylistView.constructor | a_files/custom_components_example.rs:75-81 | no tracks, index 0, the given window size |
| CustomComponents.PlaylistView.SetTracks | a_files/custom_components_example.rs:83-85 | only the tracks change |
| CustomComponents.PlaylistView.SetCurrent | a_files/custom_components_example.rs:87-89 | only the index changes, unchecked |
| CustomComponents.PlaylistView.WindowLines | a_files/custom_components_example.rs:100-117 | the loop builds exactly `PlaylistLines` |
| CustomComponents.PlaylistView.Render | a_files/custom_components_example.rs:93-120 | the result equals the tree's render; an empty playlist draws "No tracks in playlist" |
| CustomComponents.LyricsDisplay.constructor | a_files/custom_components_example.rs:135-141 | no lyrics, no current line, timestamps off |
| CustomComponents.LyricsDisplay.LoadLyrics | a_files/custom_components_example.rs:143-145 | only the lyrics change |
| CustomComponents.LyricsDisplay.ScanCurrentLine | a_files/custom_components_example.rs:160-167 | the scan loop finds `CurrentLine` |
| CustomComponents.LyricsDisplay.Render | a_files/custom_components_example.rs:154-180 | the result equals the tree's render |
| CustomComponents.LyricsDisplay.HandleEvent | a_files/custom_components_example.rs:182-204 | the result and new current line equal `LyricsHandleEvent`; the lyrics are kept |
| CustomComponents.NetworkStatus.constructor | a_files/custom_components_example.rs:228-233 | connected, without details |
| CustomComponents.NetworkStatus.UpdateStatus | a_files/custom_components_example.rs:235-237 | only the status changes |
| CustomComponents.EqualizerPreset.constructor | a_files/custom_components_example.rs:268-279 | five presets, the first selected |
| CustomComponents.EqualizerPreset.NextPreset | a_files/custom_components_example.rs:281-283 | the selection moves to `NextIndex` and stays valid |
| CustomComponents.EqualizerPreset.PreviousPreset | a_files/custom_components_example.rs:285-291 | the selection moves to `PrevIndex` and stays valid |
| CustomComponents.NextThenPrevious | a_files/custom_components_example.rs:281-291 | next then previous leaves the same preset selected |
| DraftUI.FrozenLayoutDrawsProgress | a_files/ui_modular.rs:210-215 | the layout around the copy draws the progress bar's screen and never the volume bar's |
| DraftUI.UIManager.constructor | a_files/ui_modular.rs:200-232 | the window's borders are drawn for the given width and border style and its context is that width, loading, no track, full volume, position 0, not paused; its root is the layout around a copy of the middle component with the progress bar selected |
| DraftUI.UIManager.Update | a_files/ui_modular.rs:235-294 | the context takes the track's own name; the manager's middle component follows `TimerStep`; the frame drawn is always the progress bar's screen |
| DraftUI.UIManager.HandleEvent | a_files/ui_modular.rs:297-313 | an update happens exactly when `RedrawNeeded` holds, and it draws the progress bar's screen; otherwise nothing changes |
| DraftUI.FlashIsNotShown | a_files/ui_modular.rs:276-293 | right after `flash_audio`, the draft selects the volume bar but draws a screen different from the volume bar's |

## Left out

- The downloader, the fetch of the next track and the sink's audio are out of scope. Spawning a fetch is a counter (`fetches`). The track a fetch later stores with `set_current` is an input, `Wakeup.installed`, that may arrive at any pass of the loop; the model does not tie it to an earlier fetch. The position is an input.
- MPRIS is out of scope: the feature-gated calls in `play` can fail and make the loop return an error, which is not modelled.
- Concurrency, channels and the `tokio::select!` of the interface loop are out of scope. Events arrive as a sequence, in order, and the player's state is fixed while the interface loop runs.
- Bookmark storage is out of scope. Its answer is an input, `Wakeup.stored`: `None` is a storage error, which makes the loop return.
- Terminal setup, raw mode, input listening and `start`'s task wiring are out of scope: `Environment`, `input::listen` and the merge task.
- The Windows variant of `draw` (two more rows and a trailing `"\r\n"`) is not modelled. Only the other targets are.
- `f32` rounding and overflow are not modelled: floats are exact reals. `as_secs_f32` keeps the nanoseconds.
- Grapheme clusters, Unicode width and UTF-8 byte lengths are not modelled: one character counts as one column and one byte. `track.len()` and the slicing `&track[..width - 6]` in the playlist therefore never hit a non-boundary panic here.
- Escape codes for bold, italic and underline are not modelled: styles add no characters.
- `create_advanced_layout` and the `ComponentFactory` shorthands (`label`, `progress_bar`, …) only assemble components already modelled, so they are not modelled themselves.
- `custom_data` in the render context is not modelled, because no modelled component reads it.
- `get_child_mut` is modelled as a read (`Containers.ChildAt`): an alias into the children is not modelled.
- The draft's interface loop and `start` are not modelled separately. They are the released loop over the draft manager.
- The draft's `middle.clone()` needs `Clone` for `DynamicComponent`, which the component library does not provide; the model takes it as a deep copy.
- PlayerCore.StepSpec: requires a current track for `Bookmark`, because the loop unwraps it and panics otherwise.
- PlayerCore.AudioServer.Step: requires a current track for `Bookmark`, for the same reason.
- PlayerCore.RunSpec: requires `RunSafe`, that every `Bookmark` arrives once a track is current (from the start, or stored by a fetch by then), for the same reason.
- PlayerUI.UIManager.Update: requires `LayoutFits` (a width of at least 3, and room for the control hints unless minimalist). Below that, the status or control bar's `usize` subtraction underflows. `PlayerUI.InterfaceWidthFits` shows that every width `start` passes meets it.
- Components.RenderStatusBar: requires `StatusBarRenders`, because `context.width - 3` underflows when the text must be cut in fewer than three columns.
- Components.RenderControlBar: requires `ControlBarRenders`, because `context.width - total_len` underflows when several hints do not fit.
- CustomWidgets.RenderPlaylist: requires `PlaylistRenders`, because `width - 3` and `width - 6` underflow on narrow widths and `tracks[start..end]` panics when the start is past the end.
- CustomWidgets.RenderSpectrum: requires `SpectrumRenders`, because the division by the number of bars and the empty character list panic.
- Window.DrawFrame: at exactly 65535 lines the `u16` sum `len + 1` wraps to 0 as in a release build; a debug build would panic there instead.
- PlayerUI.UIManager.constructor: the middle component is shared through `Arc<Mutex<_>>`. The model keeps the object in the manager and re-sets the window's root to the layout around its current value before each render, which draws the same frame.

## Findings

| source | as written | input that shows it | evidently intended | confidence | as-written member | corrected member |
|---|---|---|---|---|---|---|
| a_files/ui_modular.rs:215 | the layout receives `middle.clone()`, a copy, while `update` switches the manager's own `middle_component`; `DynamicComponent` derives no `Clone` (a_files/ui_component_system.rs:484), so the draft does not build as given and this is its evident meaning, not observed behaviour | `flash_audio()` then one `update()`: the manager selects the volume bar, the window draws the progress bar | the layout shows the bar the manager selects, as `src/player/ui.rs:185-193` does by sharing it through `Arc<Mutex<_>>` | not executed | DraftUI.FlashIsNotShown | PlayerUI.UIManager.Update |
| a_files/ui_component_system.rs:452-458 | `height` adds `spacing` for every gap between children, visible or not | a stack with spacing 1 of a label and an empty dynamic component: height 2, one line drawn | spacing only between visible children, which is what `render` draws | not executed | Tree.StackHeightOvercounts | Tree.StackLinesMatchCorrectedHeight |
