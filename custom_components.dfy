/** The example components whose fields change in place: the spectrum analyser's
    heights, the playlist's tracks and position, the lyrics' current line, the
    network status and the equalizer's selected preset. */
module CustomComponents {
  import opened Base
  import opened Text
  import opened Components
  import opened CustomWidgets
  import Tree

  class SpectrumAnalyzer {
    var bars: nat
    var heights: seq<real>
    var characters: seq<char>

    /** `SpectrumAnalyzer::new(bars)`: all bars at zero. */
    constructor (bars: nat)
      ensures this.bars == bars && heights == seq(bars, _ => 0.0) && characters == SPECTRUM_CHARS
    {
      this.bars := bars;
      heights := seq(bars, _ => 0.0);
      characters := SPECTRUM_CHARS;
    }

    function AsComponent(): Tree.Component
      reads this
    {
      Tree.SpectrumNode(bars, heights, characters)
    }

    /** Keeps the first `bars` values of `data` and pads with zeros, so there is
        always exactly one height per bar. */
    method UpdateSpectrum(data: seq<real>)
      modifies this
      ensures heights == Resized(data, bars)
      ensures |heights| == bars
      ensures bars == old(bars) && characters == old(characters)
    {
      heights := data[..Min(bars, |data|)];
      while |heights| < bars
        invariant bars == old(bars) && characters == old(characters)
        invariant Min(bars, |data|) <= |heights| <= bars
        invariant heights[..Min(bars, |data|)] == data[..Min(bars, |data|)]
        invariant forall i :: Min(bars, |data|) <= i < |heights| ==> heights[i] == 0.0
        decreases bars - |heights|
      {
        heights := heights + [0.0];
      }
      assert forall i :: 0 <= i < |heights| ==> heights[i] == Resized(data, bars)[i];
    }

    /** `SpectrumAnalyzer::render`: one run of level characters per height. */
    method Render(ctx: RenderContext) returns (r: string)
      requires SpectrumRenders(bars, characters)
      ensures r == Tree.Render(AsComponent(), ctx)
      ensures |r| == |heights| * (ctx.width / bars)
    {
      var barWidth := ctx.width / bars;
      r := "";
      var i := 0;
      while i < |heights|
        invariant 0 <= i <= |heights|
        invariant r == RenderSpectrum(bars, heights[..i], characters, ctx.width)
      {
        assert heights[..i + 1][..i] == heights[..i];
        var index := CharIndex(heights[i], |characters|);
        r := r + Text.Repeat(characters[index], barWidth);
        i := i + 1;
      }
      assert heights[..i] == heights;
    }
  }

  class PlaylistView {
    var tracks: seq<string>
    var currentIndex: nat
    var maxVisible: nat

    constructor (maxVisible: nat)
      ensures tracks == [] && currentIndex == 0 && this.maxVisible == maxVisible
    {
      tracks := [];
      currentIndex := 0;
      this.maxVisible := maxVisible;
    }

    function AsComponent(): Tree.Component
      reads this
    {
      Tree.PlaylistNode(tracks, currentIndex, maxVisible)
    }

    method SetTracks(tracks: seq<string>)
      modifies this
      ensures this.tracks == tracks && currentIndex == old(currentIndex) && maxVisible == old(maxVisible)
    {
      this.tracks := tracks;
    }

    /** The index is stored as given; it is not checked against the list. */
    method SetCurrent(index: nat)
      modifies this
      ensures currentIndex == index && tracks == old(tracks) && maxVisible == old(maxVisible)
    {
      currentIndex := index;
    }

    /** `PlaylistView::render`: the window of tracks around the current one, one
        line per track, the marker on the current track only. */
    method Render(ctx: RenderContext) returns (r: string)
      requires PlaylistRenders(tracks, currentIndex, maxVisible, ctx.width)
      ensures r == Tree.Render(AsComponent(), ctx)
      ensures |tracks| == 0 ==> r == "No tracks in playlist"
    {
      if |tracks| == 0 {
        return "No tracks in playlist";
      }
      var lines := WindowLines(ctx.width);
      r := Join(lines, "\n");
    }

    /** The loop of `render`: the lines of the visible window, in order. */
    method WindowLines(width: nat) returns (lines: seq<string>)
      requires |tracks| > 0 && PlaylistRenders(tracks, currentIndex, maxVisible, width)
      ensures lines == PlaylistLines(tracks, currentIndex, maxVisible, width)
    {
      var start := SatSub(currentIndex, maxVisible / 2);
      var end := Min(start + maxVisible, |tracks|);
      ghost var expected := PlaylistLines(tracks, currentIndex, maxVisible, width);
      lines := [];
      var i := 0;
      while i < end - start
        invariant 0 <= i <= end - start
        invariant lines == expected[..i]
      {
        var line := FormatLine(tracks[start + i], start + i == currentIndex, width);
        lines := lines + [line];
        i := i + 1;
      }
      assert expected[..i] == expected;
    }

    /** One line of the loop: the marker, then the track, cut when too wide. */
    static method FormatLine(track: string, isCurrent: bool, width: nat) returns (line: string)
      requires LineFits(track, width)
      ensures line == PlaylistLine(track, isCurrent, width)
    {
      var prefix := if isCurrent then "▶ " else "  ";
      var truncated := if |track| > width - 3 then track[..width - 6] + "..." else track;
      line := prefix + truncated;
    }
  }

  class LyricsDisplay {
    var lyrics: seq<(Duration, string)>
    var currentLine: Option<nat>
    var showTimestamp: bool

    /** `LyricsDisplay::new()`: no lyrics, no current line, no timestamps. */
    constructor ()
      ensures lyrics == [] && currentLine == None && !showTimestamp
    {
      lyrics := [];
      currentLine := None;
      showTimestamp := false;
    }

    function AsComponent(): Tree.Component
      reads this
    {
      Tree.LyricsNode(lyrics, currentLine, showTimestamp)
    }

    method LoadLyrics(lyrics: seq<(Duration, string)>)
      modifies this
      ensures this.lyrics == lyrics && currentLine == old(currentLine) && showTimestamp == old(showTimestamp)
    {
      this.lyrics := lyrics;
    }

    /** The scan both `render` and `handle_event` run: remember every line whose
        time has come and stop at the first that has not. */
    method ScanCurrentLine(position: Duration) returns (line: Option<nat>)
      ensures line == CurrentLine(lyrics, position)
    {
      line := None;
      var i := 0;
      while i < |lyrics|
        invariant 0 <= i <= |lyrics|
        invariant forall j :: 0 <= j < i ==> lyrics[j].0 <= position
        invariant line == if i == 0 then None else Some(i - 1)
      {
        if position >= lyrics[i].0 {
          line := Some(i);
        } else {
          break;
        }
        i := i + 1;
      }
    }

    /** `LyricsDisplay::render`, at the context's playback position. */
    method Render(ctx: RenderContext) returns (r: string)
      ensures r == Tree.Render(AsComponent(), ctx)
    {
      if |lyrics| == 0 {
        return "No lyrics available";
      }
      var current := ScanCurrentLine(ctx.position);
      match current
      case Some(index) =>
        var line := lyrics[index].1;
        if showTimestamp {
          r := "[" + FormatDuration(lyrics[index].0) + "] " + line;
        } else {
          r := line;
        }
      case None =>
        r := "♪ ♪ ♪";
    }

    /** A progress update moves the current line and asks for a redraw exactly
        when the line changes; every other event is ignored. */
    method HandleEvent(event: ComponentEvent) returns (result: EventResult)
      modifies this
      ensures (result, currentLine) == LyricsHandleEvent(lyrics, old(currentLine), event)
      ensures (result, AsComponent()) == Tree.HandleEvent(old(AsComponent()), event)
      ensures lyrics == old(lyrics) && showTimestamp == old(showTimestamp)
    {
      match event
      case ProgressUpdate(position, _) =>
        var newLine := ScanCurrentLine(position);
        if newLine != currentLine {
          currentLine := newLine;
          result := Redraw;
        } else {
          result := Ignored;
        }
      case _ =>
        result := Ignored;
    }
  }

  class NetworkStatus {
    var status: ConnectionStatus
    var showDetails: bool

    constructor ()
      ensures status == Connected && !showDetails
    {
      status := Connected;
      showDetails := false;
    }

    function AsComponent(): Tree.Component
      reads this
    {
      Tree.NetworkStatusNode(status, showDetails)
    }

    method UpdateStatus(status: ConnectionStatus)
      modifies this
      ensures this.status == status && showDetails == old(showDetails)
    {
      this.status := status;
    }
  }

  class EqualizerPreset {
    var presets: seq<string>
    var current: nat

    /** The selected preset is one of the presets. */
    predicate Valid()
      reads this
    {
      current < |presets|
    }

    /** Five presets, the first one selected. */
    constructor ()
      ensures presets == DefaultPresets() && current == 0 && Valid()
    {
      presets := DefaultPresets();
      current := 0;
    }

    function AsComponent(): Tree.Component
      reads this
    {
      Tree.EqualizerNode(presets, current)
    }

    method NextPreset()
      requires Valid()
      modifies this
      ensures presets == old(presets) && current == NextIndex(old(current), |presets|)
      ensures Valid()
    {
      current := (current + 1) % |presets|;
    }

    method PreviousPreset()
      requires Valid()
      modifies this
      ensures presets == old(presets) && current == PrevIndex(old(current), |presets|)
      ensures Valid()
    {
      if current == 0 {
        current := |presets| - 1;
      } else {
        current := current - 1;
      }
    }
  }

  /** Stepping the equalizer forward and then back leaves the same preset
      selected. */
  method NextThenPrevious(eq: EqualizerPreset)
    requires eq.Valid()
    modifies eq
    ensures eq.current == old(eq.current) && eq.presets == old(eq.presets) && eq.Valid()
  {
    eq.NextPreset();
    eq.PreviousPreset();
    PrevNextInverse(old(eq.current), |eq.presets|);
  }
}
