/** The example components built on the library: a spectrum analyser, a playlist
    window, a lyrics line, a network indicator and an equalizer preset selector.
    These are their pure parts; the parts that update fields live in
    `CustomComponents`. */
module CustomWidgets {
  import opened Base
  import opened Text
  import opened Components

  // ---------------------------------------------------------------------------
  // Spectrum analyser

  const SPECTRUM_CHARS: seq<char> := ['▁', '▂', '▃', '▄', '▅', '▆', '▇', '█']

  /** `(height * (n - 1) as f32) as usize`, capped at `n - 1`: the cast truncates
      toward zero and sends negative values to 0. */
  function CharIndex(height: real, nchars: nat): (r: nat)
    requires nchars > 0
    ensures r < nchars
    ensures height <= 0.0 ==> r == 0
    ensures height >= 1.0 ==> r == nchars - 1
  {
    var x := height * (nchars - 1) as real;
    assert height >= 1.0 ==> x >= (nchars - 1) as real;
    var i := if x <= 0.0 then 0 else x.Floor;
    if i < nchars - 1 then i else nchars - 1
  }

  /** `available_width / self.bars` divides by zero without bars, and
      `characters.len() - 1` underflows without characters. */
  predicate SpectrumRenders(bars: nat, characters: seq<char>)
  {
    bars > 0 && |characters| > 0
  }

  /** The cells of one bar: its level character, `width / bars` times. */
  function BarCells(bars: nat, height: real, characters: seq<char>, width: nat): (r: string)
    requires SpectrumRenders(bars, characters)
    ensures |r| == width / bars
    ensures forall i :: 0 <= i < |r| ==> r[i] == characters[CharIndex(height, |characters|)]
  {
    Repeat(characters[CharIndex(height, |characters|)], width / bars)
  }

  /** Each height becomes `width / bars` copies of its level character. */
  function RenderSpectrum(bars: nat, heights: seq<real>, characters: seq<char>, width: nat): (r: string)
    requires SpectrumRenders(bars, characters)
    ensures |r| == |heights| * (width / bars)
  {
    if |heights| == 0 then ""
    else
      var init := RenderSpectrum(bars, heights[..|heights| - 1], characters, width);
      var r := init + BarCells(bars, heights[|heights| - 1], characters, width);
      assert |r| == (|heights| - 1) * (width / bars) + (width / bars);
      r
  }

  /** Cell `i` of the analyser shows the level character of bar `i / (width / bars)`:
      every bar is a run of `width / bars` copies of its own character. */
  lemma SpectrumCells(bars: nat, heights: seq<real>, characters: seq<char>, width: nat)
    requires SpectrumRenders(bars, characters) && width / bars > 0
    ensures var r := RenderSpectrum(bars, heights, characters, width);
            var k := width / bars;
            forall i :: 0 <= i < |r| ==>
              i / k < |heights| && r[i] == characters[CharIndex(heights[i / k], |characters|)]
  {
    forall i | 0 <= i < |RenderSpectrum(bars, heights, characters, width)| {
      SpectrumCellAt(bars, heights, characters, width, i);
    }
  }

  /** One cell of the analyser, by induction on the heights. */
  lemma {:induction false} SpectrumCellAt(bars: nat, heights: seq<real>, characters: seq<char>, width: nat, i: nat)
    requires SpectrumRenders(bars, characters) && width / bars > 0
    requires i < |RenderSpectrum(bars, heights, characters, width)|
    ensures i / (width / bars) < |heights|
    ensures RenderSpectrum(bars, heights, characters, width)[i]
              == characters[CharIndex(heights[i / (width / bars)], |characters|)]
  {
    var k := width / bars;
    var n := |heights|;
    var init := RenderSpectrum(bars, heights[..n - 1], characters, width);
    var cells := BarCells(bars, heights[n - 1], characters, width);
    assert RenderSpectrum(bars, heights, characters, width) == init + cells;
    assert |init| == (n - 1) * k;
    if i < |init| {
      DivBelow(i, n - 1, k);
      SpectrumCellAt(bars, heights[..n - 1], characters, width, i);
      assert heights[..n - 1][i / k] == heights[i / k];
    } else {
      DivInBlock(i, n - 1, k);
    }
  }

  /** Below `m` whole blocks of `k`, an index lies in one of the first `m` blocks. */
  lemma DivBelow(i: nat, m: nat, k: nat)
    requires k > 0 && i < m * k
    ensures i / k < m
  {
    assert i == k * (i / k) + i % k;
    if i / k >= m {
      ScaleStep(k, m - 1, i / k);
    }
  }

  /** An index in block `j` of width `k` divides to `j`. */
  lemma DivInBlock(i: nat, j: nat, k: nat)
    requires k > 0 && j * k <= i < j * k + k
    ensures i / k == j
  {
    assert i == k * (i / k) + i % k;
    if i / k < j {
      ScaleStep(k, i / k, j);
    } else if i / k > j {
      ScaleStep(k, j, i / k);
    }
  }

  /** With one height per bar the analyser never overflows its width, and at its
      minimum width (two columns per bar) it fills it exactly. */
  lemma SpectrumFitsWidth(bars: nat, heights: seq<real>, characters: seq<char>, width: nat)
    requires SpectrumRenders(bars, characters) && |heights| == bars
    ensures |RenderSpectrum(bars, heights, characters, width)| <= width
    ensures width == SpectrumMinWidth(bars) ==> |RenderSpectrum(bars, heights, characters, width)| == width
  {
    var r := RenderSpectrum(bars, heights, characters, width);
    assert |r| <= width by {
      DivisionFloor(width, bars);
    }
    if width == SpectrumMinWidth(bars) {
      CancelFactor(bars, 2);
    }
  }

  /** Whole shares of `w` among `b` never add up to more than `w`. */
  lemma DivisionFloor(w: nat, b: nat)
    requires b > 0
    ensures b * (w / b) <= w
  {
    assert w == b * (w / b) + w % b;
  }

  lemma CancelFactor(b: nat, k: nat)
    requires b > 0
    ensures (b * k) / b == k
  {
    var q := (b * k) / b;
    assert b * k == b * q + (b * k) % b;
    if q < k {
      ScaleStep(b, q, k);
    } else if q > k {
      ScaleStep(b, k, q);
    }
  }

  /** Between two different multiples of `b` there is at least `b`. */
  lemma ScaleStep(b: nat, x: int, y: int)
    requires x < y
    ensures b * x + b <= b * y
  {
    var d: nat := y - x - 1;
    assert b * y - b * x == b * (y - x) == b * d + b;
    assert b * d >= 0;
  }

  function SpectrumMinWidth(bars: nat): nat
  {
    bars * 2
  }

  /** The heights after an update: the first `bars` values of `data`, padded with
      zeros up to `bars`. */
  function Resized(data: seq<real>, bars: nat): (r: seq<real>)
    ensures |r| == bars
    ensures forall i :: 0 <= i < |r| ==> r[i] == if i < |data| then data[i] else 0.0
  {
    var kept := data[..Min(bars, |data|)];
    kept + seq(bars - |kept|, _ => 0.0)
  }

  /** Spectrum data arrives as a custom event tagged `spectrum:`. */
  function SpectrumHandleEvent(event: ComponentEvent): (r: EventResult)
    ensures r == Consumed <==> event.Custom? && |event.data| >= 9 && event.data[..9] == "spectrum:"
    ensures r != Redraw
  {
    match event
    case Custom(data) => if |data| >= 9 && data[..9] == "spectrum:" then Consumed else Ignored
    case _ => Ignored
  }

  // ---------------------------------------------------------------------------
  // Playlist window

  /** The window of tracks shown starts half a window before the current one. */
  function PlaylistStart(current: nat, maxVisible: nat): (r: nat)
    ensures r <= current && current - r <= maxVisible / 2
    ensures current >= maxVisible / 2 ==> current - r == maxVisible / 2
  {
    SatSub(current, maxVisible / 2)
  }

  function PlaylistEnd(current: nat, maxVisible: nat, count: nat): (r: nat)
    ensures r <= count && r <= PlaylistStart(current, maxVisible) + maxVisible
    ensures r == count || r == PlaylistStart(current, maxVisible) + maxVisible
  {
    Min(PlaylistStart(current, maxVisible) + maxVisible, count)
  }

  /** What `render` needs not to panic: the window start inside the list
      (`tracks[start..end]`), room for `width - 3` when a line is drawn, and room
      for `width - 6` when a track is cut. */
  predicate PlaylistRenders(tracks: seq<string>, current: nat, maxVisible: nat, width: nat)
  {
    var start := PlaylistStart(current, maxVisible);
    var end := PlaylistEnd(current, maxVisible, |tracks|);
    |tracks| == 0 ||
    (start <= |tracks| &&
     forall i :: start <= i < end ==> LineFits(tracks[i], width))
  }

  /** A line can be drawn at `width`: `width - 3` does not underflow, nor does
      `width - 6` when the track has to be cut. */
  predicate LineFits(track: string, width: nat)
  {
    width >= 3 && (|track| + 3 > width ==> width >= 6)
  }

  /** One line of the window: a play marker or two spaces, then the track, cut to
      `width - 6` characters plus `"..."` when longer than `width - 3`. */
  function PlaylistLine(track: string, isCurrent: bool, width: nat): (r: string)
    requires LineFits(track, width)
    ensures |r| >= 2 && (r[..2] == "▶ " <==> isCurrent)
    ensures |track| + 3 <= width ==> r[2..] == track
    ensures |track| + 3 > width ==> r[2..] == track[..width - 6] + "..." && |r| == width - 1
  {
    var prefix := if isCurrent then "▶ " else "  ";
    var truncated := if |track| > width - 3 then track[..Min(|track|, width - 6)] + "..." else track;
    var r := prefix + truncated;
    assert r[..2] == prefix;
    assert r[2..] == truncated;
    r
  }

  /** The lines of a non-empty playlist: the tracks `start..end`, the marker on the
      current one only. */
  function PlaylistLines(tracks: seq<string>, current: nat, maxVisible: nat, width: nat): (r: seq<string>)
    requires |tracks| > 0 && PlaylistRenders(tracks, current, maxVisible, width)
    ensures |r| == PlaylistEnd(current, maxVisible, |tracks|) - PlaylistStart(current, maxVisible)
    ensures forall i :: 0 <= i < |r| ==>
              |r[i]| >= 2 && (r[i][..2] == "▶ " <==> PlaylistStart(current, maxVisible) + i == current)
    ensures forall i :: 0 <= i < |r| ==>
              r[i] == PlaylistLine(tracks[PlaylistStart(current, maxVisible) + i],
                                   PlaylistStart(current, maxVisible) + i == current, width)
  {
    var start := PlaylistStart(current, maxVisible);
    var end := PlaylistEnd(current, maxVisible, |tracks|);
    var r := seq(end - start, i requires 0 <= i < end - start => PlaylistLine(tracks[start + i], start + i == current, width));
    assert forall i :: 0 <= i < |r| ==> r[i] == PlaylistLine(tracks[start + i], start + i == current, width);
    r
  }

  /** `PlaylistView::render`. */
  function RenderPlaylist(tracks: seq<string>, current: nat, maxVisible: nat, width: nat): (r: string)
    requires PlaylistRenders(tracks, current, maxVisible, width)
    ensures |tracks| == 0 ==> r == "No tracks in playlist"
    ensures |tracks| > 0 ==> r == Join(PlaylistLines(tracks, current, maxVisible, width), "\n")
  {
    if |tracks| == 0 then "No tracks in playlist"
    else Join(PlaylistLines(tracks, current, maxVisible, width), "\n")
  }

  /** `PlaylistView::height`. */
  function PlaylistHeight(count: nat, maxVisible: nat): (r: nat)
    ensures r <= count && r <= maxVisible
    ensures r == count || r == maxVisible
  {
    Min(maxVisible, count)
  }

  /** A playlist with a current track inside it always shows that track, and never
      shows more lines than its height. */
  lemma PlaylistWindowShowsCurrent(tracks: seq<string>, current: nat, maxVisible: nat)
    requires current < |tracks| && maxVisible > 0
    ensures var start := PlaylistStart(current, maxVisible);
            var end := PlaylistEnd(current, maxVisible, |tracks|);
            start <= current < end && end - start <= PlaylistHeight(|tracks|, maxVisible)
  {
  }

  // ---------------------------------------------------------------------------
  // Lyrics

  /** The number of leading lyric lines whose time has been reached. */
  function LeadingRun(lyrics: seq<(Duration, string)>, position: Duration): (r: nat)
    ensures r <= |lyrics|
    ensures forall j :: 0 <= j < r ==> lyrics[j].0 <= position
    ensures r < |lyrics| ==> lyrics[r].0 > position
  {
    if |lyrics| == 0 || lyrics[0].0 > position then 0
    else 1 + LeadingRun(lyrics[1..], position)
  }

  /** The current lyric line: the last of the leading lines whose time has come,
      or none when the first line is still ahead. Later lines are not looked at. */
  function CurrentLine(lyrics: seq<(Duration, string)>, position: Duration): (r: Option<nat>)
    ensures r.None? <==> |lyrics| == 0 || lyrics[0].0 > position
    ensures r.Some? ==> r.value < |lyrics|
    ensures r.Some? ==> forall j :: 0 <= j <= r.value ==> lyrics[j].0 <= position
    ensures r.Some? && r.value + 1 < |lyrics| ==> lyrics[r.value + 1].0 > position
  {
    var run := LeadingRun(lyrics, position);
    if run == 0 then None else Some(run - 1)
  }

  /** `LyricsDisplay::render`. */
  function RenderLyrics(lyrics: seq<(Duration, string)>, showTimestamp: bool, position: Duration): (r: string)
    ensures |lyrics| == 0 ==> r == "No lyrics available"
    ensures |lyrics| > 0 && CurrentLine(lyrics, position).None? ==> r == "♪ ♪ ♪"
    ensures CurrentLine(lyrics, position).Some? ==>
              var i := CurrentLine(lyrics, position).value;
              r == (if showTimestamp then "[" + FormatDuration(lyrics[i].0) + "] " else "") + lyrics[i].1
  {
    if |lyrics| == 0 then "No lyrics available"
    else
      match CurrentLine(lyrics, position)
      case Some(i) =>
        (if showTimestamp then "[" + FormatDuration(lyrics[i].0) + "] " else "") + lyrics[i].1
      case None => "♪ ♪ ♪"
  }

  /** `LyricsDisplay::handle_event` as a value: a progress update moves the current
      line and asks for a redraw exactly when the line changes; every other event
      is ignored and changes nothing. */
  function LyricsHandleEvent(lyrics: seq<(Duration, string)>, currentLine: Option<nat>, event: ComponentEvent)
    : (r: (EventResult, Option<nat>))
    ensures !event.ProgressUpdate? ==> r == (Ignored, currentLine)
    ensures event.ProgressUpdate? ==> r.1 == CurrentLine(lyrics, event.position)
    ensures r.0 == Redraw <==> r.1 != currentLine
    ensures r.0 != Consumed
  {
    match event
    case ProgressUpdate(position, _) =>
      var newLine := CurrentLine(lyrics, position);
      if newLine != currentLine then (Redraw, newLine) else (Ignored, currentLine)
    case _ => (Ignored, currentLine)
  }

  // ---------------------------------------------------------------------------
  // Network indicator

  datatype ConnectionStatus = Connected | Buffering | Disconnected | Connecting

  function NetworkIcon(status: ConnectionStatus): char
  {
    match status
    case Connected => '●'
    case Buffering => '◐'
    case Disconnected => '○'
    case Connecting => '◑'
  }

  function NetworkText(status: ConnectionStatus): string
  {
    match status
    case Connected => "Connected"
    case Buffering => "Buffering"
    case Disconnected => "Disconnected"
    case Connecting => "Connecting"
  }

  function NetworkMinWidth(showDetails: bool): nat
  {
    if showDetails then 15 else 1
  }

  /** `NetworkStatus::render`: the icon, and with details a space and the word.
      The line always fits the component's minimum width. */
  function RenderNetworkStatus(status: ConnectionStatus, showDetails: bool): (r: string)
    ensures |r| >= 1 && r[0] == NetworkIcon(status)
    ensures |r| <= NetworkMinWidth(showDetails)
    ensures showDetails ==> r[1..] == " " + NetworkText(status)
  {
    if showDetails then [NetworkIcon(status)] + " " + NetworkText(status) else [NetworkIcon(status)]
  }

  // ---------------------------------------------------------------------------
  // Equalizer presets

  function DefaultPresets(): seq<string>
  {
    ["Flat", "Bass Boost", "Vocal", "Classical", "Rock"]
  }

  /** The preset after `current`, wrapping to the first. */
  function NextIndex(current: nat, count: nat): (r: nat)
    requires count > 0
    ensures r < count
    ensures current + 1 < count ==> r == current + 1
    ensures current + 1 == count ==> r == 0
  {
    (current + 1) % count
  }

  /** The preset before `current`, wrapping from the first to the last. */
  function PrevIndex(current: nat, count: nat): (r: nat)
    requires count > 0
    ensures current < count ==> r < count
  {
    if current == 0 then count - 1 else current - 1
  }

  /** Stepping back after stepping forward (or forward after back) returns to
      the same preset. */
  lemma PrevNextInverse(current: nat, count: nat)
    requires current < count
    ensures PrevIndex(NextIndex(current, count), count) == current
    ensures NextIndex(PrevIndex(current, count), count) == current
  {
  }

  function NextIterated(current: nat, count: nat, k: nat): (r: nat)
    requires count > 0
  {
    if k == 0 then current else NextIndex(NextIterated(current, count, k - 1), count)
  }

  /** Within one lap, `k` steps forward land on `current + k` wrapped once past
      the end, so `count` steps come back to the start. */
  lemma {:induction false} NextIteratedCycles(current: nat, count: nat, k: nat)
    requires current < count && k <= count
    ensures NextIterated(current, count, k) == if current + k < count then current + k else current + k - count
    ensures k == count ==> NextIterated(current, count, k) == current
  {
    if k > 0 {
      NextIteratedCycles(current, count, k - 1);
    }
  }

  /** `EqualizerPreset::render`. */
  function RenderEqualizer(presets: seq<string>, current: nat): (r: string)
    requires current < |presets|
    ensures |r| >= 4 && r[..4] == "EQ: " && r[4..] == presets[current]
  {
    "EQ: " + presets[current]
  }
}
