/** The render context and the leaf widgets of the component library: labels, the
    progress and volume bars, the status line and the control hints.
    ANSI styling (bold, italic, underline) is the identity here. */
module Components {
  import opened Base
  import opened Text

  datatype PlaybackState = Playing | Paused | Stopped | Loading

  /** What the widgets know about the current track. `width` is the track's own
      record of its display width, not recomputed here. */
  datatype TrackInfo = TrackInfo(name: string, displayName: string, width: nat, duration: Option<Duration>)

  /** Everything a component may read while rendering. */
  datatype RenderContext = RenderContext(
    width: nat,
    playbackState: PlaybackState,
    trackInfo: Option<TrackInfo>,
    volume: real,
    position: Duration,
    isBookmarked: bool,
    borderless: bool)

  datatype EventResult = Consumed | Ignored | Redraw

  datatype ComponentEvent =
    | VolumeChanged(volume: real)
    | PlaybackStateChanged(state: PlaybackState)
    | TrackChanged(track: TrackInfo)
    | ProgressUpdate(position: Duration, total: Option<Duration>)
    | BookmarkChanged(bookmarked: bool)
    | Custom(data: string)

  datatype TextStyle = Normal | Bold | Italic | Underline

  const USIZE_MAX: nat := 0xFFFF_FFFF_FFFF_FFFF
  const U32_MAX: nat := 0xFFFF_FFFF

  // ---------------------------------------------------------------------------
  // Label

  /** A label renders its text; the style only adds escape codes. */
  function RenderLabel(text: string, style: TextStyle): (r: string)
    ensures r == text
  {
    text
  }

  // ---------------------------------------------------------------------------
  // Clock display

  /** `format_duration`: whole minutes and the remaining seconds, each printed
      with at least two digits, separated by a colon. */
  function FormatDuration(d: Duration): (r: string)
    ensures |r| >= 5 && r[|r| - 3] == ':'
    ensures AllDigits(r[..|r| - 3]) && AllDigits(r[|r| - 2..])
    ensures ValueOf(r[..|r| - 3]) == AsSecs(d) / 60
    ensures ValueOf(r[|r| - 2..]) == AsSecs(d) % 60
    ensures AsSecs(d) < 6000 ==> |r| == 5
  {
    var secs := AsSecs(d);
    var m := ZeroPad2(secs / 60);
    var s := ZeroPad2(secs % 60);
    var r := m + ":" + s;
    assert r[..|r| - 3] == m;
    assert r[|r| - 2..] == s;
    r
  }

  /** Reads a `minutes:seconds` display back into seconds. */
  function ParseClock(s: string): nat
    requires |s| >= 3
  {
    ValueOf(s[..|s| - 3]) * 60 + ValueOf(s[|s| - 2..])
  }

  /** The clock display loses only the fraction of a second. */
  lemma FormatDurationRoundTrip(d: Duration)
    ensures ParseClock(FormatDuration(d)) == AsSecs(d)
  {
  }

  // ---------------------------------------------------------------------------
  // Progress and volume bars

  /** The inside of a bar: `filled` fill characters (at most `bw`), then empty
      characters up to exactly `bw`, whatever `filled` is. */
  function BarInterior(fill: char, empty: char, filled: nat, bw: nat): (r: string)
    ensures |r| == bw
    ensures forall i :: 0 <= i < bw ==> r[i] == if i < filled then fill else empty
  {
    Repeat(fill, Min(filled, bw)) + Repeat(empty, SatSub(bw, filled))
  }

  /** A bar line: the opening, the interior, the closing bracket, then whatever
      follows; each part sits where the one before it ends. */
  function BarLine(opening: string, interior: string, suffix: string): (r: string)
    ensures |r| == |opening| + |interior| + 1 + |suffix|
    ensures r[..|opening|] == opening && r[|opening|..|opening| + |interior|] == interior
    ensures r[|opening| + |interior|] == ']'
    ensures |opening| >= 2 ==> r[1] == opening[1]
    ensures r[|opening| + |interior| + 1..] == suffix
  {
    var r := opening + interior + "]" + suffix;
    assert r[..|opening|] == opening;
    assert r[|opening|..|opening| + |interior|] == interior;
    assert r[|opening| + |interior| + 1..] == suffix;
    r
  }

  /** The bar leaves 16 columns for the times when it shows them. */
  function ProgressBarWidth(showTime: bool, width: nat): (r: nat)
    ensures r <= width
    ensures showTime && width >= 16 ==> r == width - 16
    ensures showTime && width < 16 ==> r == 0
    ensures !showTime ==> r == width
  {
    if showTime then SatSub(width, 16) else width
  }

  /** Both clocks fit in five characters (under 100 minutes). */
  predicate ShortTimes(ctx: RenderContext)
  {
    AsSecs(ctx.position) < 6000 &&
    (ctx.trackInfo.Some? && ctx.trackInfo.value.duration.Some? ==>
      AsSecs(ctx.trackInfo.value.duration.value) < 6000)
  }

  /** The played fraction of a track scaled to `bw` cells. */
  function ScaledPosition(position: Duration, dur: Duration, bw: nat): real
    requires 0 < dur
  {
    position as real / dur as real * bw as real
  }

  /** A part no greater than the whole is at most one whole. */
  lemma FractionAtMostOne(p: nat, d: nat)
    requires 0 < d && p <= d
    ensures 0.0 <= p as real / d as real <= 1.0
  {
    var q := p as real / d as real;
    assert q * d as real == p as real;
  }

  /** A fraction of at most one scales a width to at most that width. */
  lemma ScaleAtMost(q: real, b: nat)
    requires q <= 1.0
    ensures q * b as real <= b as real
  {
    assert b as real - q * b as real == (1.0 - q) * b as real;
  }

  /** Up to the end of the track the scaled position, and its rounding, are at
      most `bw`. */
  lemma PlayedCellsAtMost(position: Duration, dur: Duration, bw: nat)
    requires 0 < dur && position <= dur
    ensures RoundToNat(ScaledPosition(position, dur, bw)) <= bw
  {
    FractionAtMostOne(position, dur);
    ScaleAtMost(position as real / dur as real, bw);
    RoundAtMost(ScaledPosition(position, dur, bw), bw);
  }

  /** `(position / duration * bw).round()` for a known, nonzero duration. */
  function PlayedCells(position: Duration, dur: Duration, bw: nat): (r: nat)
    requires 0 < dur
    ensures position <= dur ==> r <= bw
  {
    if position <= dur then
      PlayedCellsAtMost(position, dur, bw);
      RoundToNat(ScaledPosition(position, dur, bw))
    else RoundToNat(ScaledPosition(position, dur, bw))
  }

  /** How many cells of a `bw`-wide progress bar are filled: the played fraction
      of the track, rounded; 0 without a track or a known duration. A zero
      duration gives 0/0 (NaN, cast to 0) or x/0 (infinity, cast to `usize::MAX`). */
  function ProgressFilled(ctx: RenderContext, bw: nat): (r: nat)
    ensures ctx.trackInfo.None? || ctx.trackInfo.value.duration.None? ==> r == 0
    ensures ctx.trackInfo.Some? && ctx.trackInfo.value.duration.Some? &&
            0 < ctx.trackInfo.value.duration.value && ctx.position <= ctx.trackInfo.value.duration.value
            ==> r <= bw
  {
    match ctx.trackInfo
    case None => 0
    case Some(t) =>
      match t.duration
      case None => 0
      case Some(dur) =>
        if dur == 0 then
          (if ctx.position == 0 || bw == 0 then 0 else USIZE_MAX)
        else
          var f := PlayedCells(ctx.position, dur, bw);
          if f > USIZE_MAX then USIZE_MAX else f
  }

  /** The track's length on the clock, `00:00` without a track or a known duration. */
  function TotalClock(ctx: RenderContext): (r: string)
    ensures ctx.trackInfo.Some? && ctx.trackInfo.value.duration.Some? ==>
              r == FormatDuration(ctx.trackInfo.value.duration.value)
    ensures ctx.trackInfo.None? || ctx.trackInfo.value.duration.None? ==> r == "00:00"
  {
    if ctx.trackInfo.Some? && ctx.trackInfo.value.duration.Some?
    then FormatDuration(ctx.trackInfo.value.duration.value) else "00:00"
  }

  /** `" MM:SS/MM:SS "`: the position and the track's duration (`00:00` if unknown). */
  function ProgressTimes(ctx: RenderContext): (r: string)
    ensures r == " " + FormatDuration(ctx.position) + "/" + TotalClock(ctx) + " "
    ensures ShortTimes(ctx) ==> |r| == 13
  {
    " " + FormatDuration(ctx.position) + "/" + TotalClock(ctx) + " "
  }

  /** With short clocks both times read back from their fixed columns: the
      position's whole seconds, and the track's whole seconds (0 if unknown). */
  lemma ProgressTimesReadBack(ctx: RenderContext)
    requires ShortTimes(ctx)
    ensures var r := ProgressTimes(ctx);
            |r| == 13 && r[0] == ' ' && r[6] == '/' && r[12] == ' ' &&
            ParseClock(r[1..6]) == AsSecs(ctx.position) &&
            ParseClock(r[7..12]) == (if ctx.trackInfo.Some? && ctx.trackInfo.value.duration.Some?
                                     then AsSecs(ctx.trackInfo.value.duration.value) else 0)
  {
    var r := ProgressTimes(ctx);
    var pos := FormatDuration(ctx.position);
    var total := TotalClock(ctx);
    assert r[1..6] == pos;
    assert r[7..12] == total;
    FormatDurationRoundTrip(ctx.position);
    if ctx.trackInfo.Some? && ctx.trackInfo.value.duration.Some? {
      FormatDurationRoundTrip(ctx.trackInfo.value.duration.value);
    } else {
      assert ParseClock(total) == 0 by {
        assert total[..2] == "00" && total[3..] == "00";
        assert "00"[..1] == "0" && "0"[..0] == [];
      }
    }
  }

  /** `ProgressBar::render`: `" [bar]"` then the times or a single space. With
      times and short clocks the line is exactly as wide as the context. */
  function RenderProgressBar(fill: char, empty: char, showTime: bool, ctx: RenderContext): (r: string)
    ensures var bw := ProgressBarWidth(showTime, ctx.width);
            |r| >= bw + 4 && r[..2] == " [" && r[1] == '[' && r[bw + 2] == ']' &&
            r[2..bw + 2] == BarInterior(fill, empty, ProgressFilled(ctx, bw), bw) &&
            r[bw + 3..] == (if showTime then ProgressTimes(ctx) else " ")
    ensures showTime && ctx.width >= 16 && ShortTimes(ctx) ==> |r| == ctx.width
    ensures !showTime ==> |r| == ctx.width + 4
  {
    var bw := ProgressBarWidth(showTime, ctx.width);
    var interior := BarInterior(fill, empty, ProgressFilled(ctx, bw), bw);
    var suffix := if showTime then ProgressTimes(ctx) else " ";
    BarLine(" [", interior, suffix)
  }

  /** `ProgressBar::min_width`. */
  function ProgressBarMinWidth(showTime: bool): nat
  {
    if showTime then 20 else 5
  }

  /** At its minimum width a progress bar with times renders exactly that many
      characters. */
  lemma ProgressBarAtMinWidth(fill: char, empty: char, ctx: RenderContext)
    requires ctx.width == ProgressBarMinWidth(true) && ShortTimes(ctx)
    ensures |RenderProgressBar(fill, empty, true, ctx)| == ProgressBarMinWidth(true)
  {
  }

  /** The volume as a whole percentage (`as u32` saturates). */
  function VolumePercent(volume: real): nat
  {
    var p := RoundToNat(volume * 100.0);
    if p > U32_MAX then U32_MAX else p
  }

  /** A volume in [0, 1] is at most 100 percent, and a volume at or below 0 is 0
      percent. */
  lemma VolumePercentRange(volume: real)
    ensures VolumePercent(volume) <= U32_MAX
    ensures 0.0 <= volume <= 1.0 ==> VolumePercent(volume) <= 100
    ensures volume <= 0.0 ==> VolumePercent(volume) == 0
  {
    if 0.0 <= volume <= 1.0 {
      RoundAtMost(volume * 100.0, 100);
    }
  }

  function VolumeBarWidth(showPercentage: bool, width: nat): nat
  {
    if showPercentage then SatSub(width, 17) else SatSub(width, 10)
  }

  /** The volume bar leaves 17 columns for the label and the percentage, or 10
      for the label alone, and shrinks to nothing on narrower lines. */
  lemma VolumeBarWidthLeaves(showPercentage: bool, width: nat)
    ensures VolumeBarWidth(showPercentage, width) <= width
    ensures showPercentage && width >= 17 ==> VolumeBarWidth(showPercentage, width) == width - 17
    ensures !showPercentage && width >= 10 ==> VolumeBarWidth(showPercentage, width) == width - 10
    ensures (showPercentage && width < 17) || (!showPercentage && width < 10) ==>
              VolumeBarWidth(showPercentage, width) == 0
  {
  }

  /** Filled cells of the volume bar; never more than the bar for a volume in [0, 1]. */
  function VolumeFilled(volume: real, bw: nat): (r: nat)
    ensures 0.0 <= volume <= 1.0 ==> r <= bw
    ensures volume <= 0.0 ==> r == 0
  {
    if volume <= 1.0 then
      ScaleAtMost(volume, bw);
      RoundAtMost(volume * bw as real, bw);
      RoundToNat(volume * bw as real)
    else RoundToNat(volume * bw as real)
  }

  /** `VolumeBar::render`: `" volume: [bar]"`, then the percentage right-aligned in
      four columns, or a single space. */
  function RenderVolumeBar(fill: char, empty: char, showPercentage: bool, ctx: RenderContext): (r: string)
    ensures var bw := VolumeBarWidth(showPercentage, ctx.width);
            |r| >= bw + 12 && r[..10] == " volume: [" && r[1] == 'v' && r[bw + 10] == ']' &&
            r[10..bw + 10] == BarInterior(fill, empty, VolumeFilled(ctx.volume, bw), bw) &&
            r[bw + 11..] == VolumeSuffix(showPercentage, ctx.volume)
    ensures showPercentage && ctx.width >= 17 && VolumePercent(ctx.volume) < 1000 ==> |r| == ctx.width
    ensures !showPercentage && ctx.width >= 10 ==> |r| == ctx.width + 2
  {
    var bw := VolumeBarWidth(showPercentage, ctx.width);
    var interior := BarInterior(fill, empty, VolumeFilled(ctx.volume, bw), bw);
    var suffix := VolumeSuffix(showPercentage, ctx.volume);
    BarLine(" volume: [", interior, suffix)
  }

  /** What follows the volume bar: the percentage right-aligned in four columns
      between spaces, or a single space. */
  function VolumeSuffix(showPercentage: bool, volume: real): (r: string)
    ensures |r| >= 1
    ensures showPercentage && VolumePercent(volume) < 1000 ==> |r| == 6
    ensures !showPercentage ==> |r| == 1
  {
    var percentage := Decimal(VolumePercent(volume)) + "%";
    DecimalShort(VolumePercent(volume));
    if showPercentage then " " + PadLeft(percentage, 4) + " " else " "
  }

  function VolumeBarMinWidth(showPercentage: bool): nat
  {
    if showPercentage then 20 else 12
  }

  /** At its minimum width a volume bar with percentage renders exactly that many
      characters. */
  lemma VolumeBarAtMinWidth(fill: char, empty: char, ctx: RenderContext)
    requires ctx.width == VolumeBarMinWidth(true) && VolumePercent(ctx.volume) < 1000
    ensures |RenderVolumeBar(fill, empty, true, ctx)| == VolumeBarMinWidth(true)
  {
  }

  // ---------------------------------------------------------------------------
  // Status line

  function StatusWord(state: PlaybackState): string
  {
    match state
    case Playing => "playing"
    case Paused => "paused"
    case Stopped => "stopped"
    case Loading => "loading"
  }

  /** The status line names the track only while playing or paused with a track. */
  predicate ShowsName(ctx: RenderContext)
  {
    (ctx.playbackState == Playing || ctx.playbackState == Paused) && ctx.trackInfo.Some?
  }

  /** The width the status line budgets for what follows the word: the track's
      recorded width, or a constant when there is no name. */
  function StatusNameWidth(ctx: RenderContext): nat
  {
    if ShowsName(ctx) then ctx.trackInfo.value.width
    else |StatusWord(ctx.playbackState)|
  }

  function BookmarkMark(showIndicator: bool, ctx: RenderContext): (r: string)
    ensures r == "*" <==> showIndicator && ctx.isBookmarked
    ensures r == "" <==> !(showIndicator && ctx.isBookmarked)
  {
    if showIndicator && ctx.isBookmarked then "*" else ""
  }

  /** The untruncated status text: the word, and for a named track a space, the
      bookmark mark and the display name. */
  function StatusText(showIndicator: bool, ctx: RenderContext): (r: string)
    ensures ShowsName(ctx) ==>
              r == StatusWord(ctx.playbackState) + " " + BookmarkMark(showIndicator, ctx) + ctx.trackInfo.value.displayName
    ensures !ShowsName(ctx) ==> r == StatusWord(ctx.playbackState)
  {
    var status := StatusWord(ctx.playbackState);
    if ShowsName(ctx) then status + " " + BookmarkMark(showIndicator, ctx) + ctx.trackInfo.value.displayName
    else status
  }

  /** `text_width`: word, mark, budgeted width, and the separating space. */
  function StatusTextWidth(showIndicator: bool, ctx: RenderContext): nat
  {
    |StatusWord(ctx.playbackState)| + |BookmarkMark(showIndicator, ctx)| + StatusNameWidth(ctx)
      + (if ShowsName(ctx) then 1 else 0)
  }

  /** `context.width - 3` underflows when a line too wide for a context narrower
      than three columns has to be cut. */
  predicate StatusBarRenders(showIndicator: bool, ctx: RenderContext)
  {
    StatusTextWidth(showIndicator, ctx) <= ctx.width || ctx.width >= 3
  }

  /** `StatusBar::render`: pad the text with `width - text_width` spaces when it
      fits, otherwise cut it to `width - 3` characters and append `"..."`. */
  function RenderStatusBar(showIndicator: bool, ctx: RenderContext): (r: string)
    requires StatusBarRenders(showIndicator, ctx)
    ensures var full := StatusText(showIndicator, ctx);
            StatusTextWidth(showIndicator, ctx) > ctx.width ==>
              r == full[..Min(|full|, ctx.width - 3)] + "..." && 3 <= |r| <= ctx.width
    ensures var full := StatusText(showIndicator, ctx);
            var tw := StatusTextWidth(showIndicator, ctx);
            tw <= ctx.width ==>
              |r| == |full| + (ctx.width - tw) && r[..|full|] == full &&
              forall i :: |full| <= i < |r| ==> r[i] == ' '
  {
    var full := StatusText(showIndicator, ctx);
    var tw := StatusTextWidth(showIndicator, ctx);
    if tw > ctx.width then
      var truncated := full[..Min(|full|, ctx.width - 3)];
      truncated + "..."
    else
      full + Spaces(ctx.width - tw)
  }

  /** A named track whose recorded width is its real width fills the line exactly,
      and the line starts with the word, a space and the mark. */
  lemma StatusBarNamedFillsWidth(showIndicator: bool, ctx: RenderContext)
    requires ShowsName(ctx) && ctx.trackInfo.value.width == |ctx.trackInfo.value.displayName|
    requires StatusTextWidth(showIndicator, ctx) <= ctx.width
    ensures var r := RenderStatusBar(showIndicator, ctx);
            var lead := StatusWord(ctx.playbackState) + " " + BookmarkMark(showIndicator, ctx);
            |r| == ctx.width && r[..|lead|] == lead
  {
    var r := RenderStatusBar(showIndicator, ctx);
    var lead := StatusWord(ctx.playbackState) + " " + BookmarkMark(showIndicator, ctx);
    var full := StatusText(showIndicator, ctx);
    assert full == lead + ctx.trackInfo.value.displayName;
    assert r[..|lead|] == full[..|lead|];
  }

  /** Without a name (loading, stopped, or no track) the line is the bare word and
      spaces, and no bookmark mark is shown; it is short of the width by the word
      and the mark, because `text_width` counts the word twice. */
  lemma StatusBarUnnamed(showIndicator: bool, ctx: RenderContext)
    requires !ShowsName(ctx)
    requires StatusTextWidth(showIndicator, ctx) <= ctx.width
    ensures var r := RenderStatusBar(showIndicator, ctx);
            var word := StatusWord(ctx.playbackState);
            r == word + Spaces(ctx.width - 2 * |word| - |BookmarkMark(showIndicator, ctx)|)
  {
    var r := RenderStatusBar(showIndicator, ctx);
    var word := StatusWord(ctx.playbackState);
    assert r[..|word|] == word;
    assert r == r[..|word|] + r[|word|..];
  }

  // ---------------------------------------------------------------------------
  // Control hints

  function DefaultControls(): seq<(string, string)>
  {
    [("[s]", "kip"), ("[p]", "ause"), ("[q]", "uit")]
  }

  function ControlsLength(controls: seq<(string, string)>): nat
  {
    if |controls| == 0 then 0 else |controls[0].0| + |controls[0].1| + ControlsLength(controls[1..])
  }

  /** `context.width - total_len` underflows when several hints do not fit. */
  predicate ControlBarRenders(controls: seq<(string, string)>, width: nat)
  {
    |controls| <= 1 || width >= ControlsLength(controls)
  }

  function ControlSpacing(controls: seq<(string, string)>, width: nat): nat
    requires ControlBarRenders(controls, width)
  {
    if |controls| > 1 then (width - ControlsLength(controls)) / (|controls| - 1) else 0
  }

  function FormatControls(controls: seq<(string, string)>): (r: seq<string>)
    ensures |r| == |controls|
    ensures SumLengths(r) == ControlsLength(controls)
    ensures forall i :: 0 <= i < |r| ==> r[i] == controls[i].0 + controls[i].1
  {
    if |controls| == 0 then [] else [controls[0].0 + controls[0].1] + FormatControls(controls[1..])
  }

  /** Sharing `spare` columns out equally among `k` gaps uses at most `spare`. */
  lemma ShareAtMost(spare: nat, k: nat)
    requires k > 0
    ensures (spare / k) * k <= spare
  {
  }

  /** `ControlBar::render`: the hints joined by equal runs of spaces that share out
      the spare width, plus one space when the width is even. */
  function RenderControlBar(controls: seq<(string, string)>, width: nat): (r: string)
    requires ControlBarRenders(controls, width)
    ensures |r| == ControlsLength(controls) + ControlSpacing(controls, width) * SatSub(|controls|, 1)
                   + (if width % 2 == 0 then 1 else 0)
    ensures r == Join(FormatControls(controls), Spaces(ControlSpacing(controls, width)))
                 + (if width % 2 == 0 then " " else "")
    ensures |controls| > 1 ==> |r| <= width + 1
  {
    var spacing := ControlSpacing(controls, width);
    var formatted := FormatControls(controls);
    var joined := Join(formatted, Spaces(spacing));
    assert |joined| == ControlsLength(controls) + spacing * SatSub(|controls|, 1) by {
      if |controls| > 0 {
        JoinLength(formatted, Spaces(spacing));
      }
    }
    assert |controls| > 1 ==> spacing * (|controls| - 1) <= width - ControlsLength(controls) by {
      if |controls| > 1 {
        ShareAtMost(width - ControlsLength(controls), |controls| - 1);
      }
    }
    joined + (if width % 2 == 0 then " " else "")
  }

  /** With the default hints the control line is exactly as wide as the context,
      for every width that fits them. */
  lemma DefaultControlBarFillsWidth(width: nat)
    requires width >= ControlsLength(DefaultControls())
    ensures |RenderControlBar(DefaultControls(), width)| == width
  {
    assert ControlsLength(DefaultControls()) == 19;
  }
}
