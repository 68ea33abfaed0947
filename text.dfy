/** Strings as sequences of characters: repetition, joining, Rust's `str::lines`,
    and decimal formatting (`{}`, `{:02}`, `{:>4}`). One character stands for one
    grapheme throughout. */
module Text {

  /** `c.to_string().repeat(n)`. */
  function Repeat(c: char, n: nat): (r: string)
    ensures |r| == n
    ensures forall i :: 0 <= i < n ==> r[i] == c
  {
    seq(n, _ => c)
  }

  function Spaces(n: nat): (r: string)
    ensures |r| == n
    ensures forall i :: 0 <= i < n ==> r[i] == ' '
  {
    Repeat(' ', n)
  }

  /** `parts.join(sep)`. */
  function Join(parts: seq<string>, sep: string): string
  {
    if |parts| == 0 then ""
    else if |parts| == 1 then parts[0]
    else parts[0] + sep + Join(parts[1..], sep)
  }

  function SumLengths(parts: seq<string>): nat
  {
    if |parts| == 0 then 0 else |parts[0]| + SumLengths(parts[1..])
  }

  /** Joining `n` parts adds `n - 1` separators and nothing else. */
  lemma {:induction false} JoinLength(parts: seq<string>, sep: string)
    requires |parts| > 0
    ensures |Join(parts, sep)| == SumLengths(parts) + (|parts| - 1) * |sep|
  {
    if |parts| > 1 {
      JoinLength(parts[1..], sep);
    }
  }

  /** Parts no longer than `b` add up to at most `b` per part. */
  lemma {:induction false} SumLengthsAtMost(parts: seq<string>, b: nat)
    requires forall i :: 0 <= i < |parts| ==> |parts[i]| <= b
    ensures SumLengths(parts) <= |parts| * b
  {
    if |parts| > 0 {
      SumLengthsAtMost(parts[1..], b);
    }
  }

  /** Index of the first `'\n'` in `s`, or `|s|` when there is none. */
  function NewlineIndex(s: string): (k: nat)
    ensures k <= |s|
    ensures k < |s| ==> s[k] == '\n'
    ensures forall i :: 0 <= i < k ==> s[i] != '\n'
  {
    if s == [] then 0
    else if s[0] == '\n' then 0
    else 1 + NewlineIndex(s[1..])
  }

  predicate NoNewline(s: string)
  {
    forall i :: 0 <= i < |s| ==> s[i] != '\n'
  }

  /** Drops one trailing carriage return, as `lines` does before a `'\n'`. */
  function StripCR(s: string): string
  {
    if |s| > 0 && s[|s| - 1] == '\r' then s[..|s| - 1] else s
  }

  /** `str::lines`: the pieces between `'\n'`s, each without a trailing `'\r'`;
      a final `'\n'` does not start an empty line, and `""` has no lines. */
  function Lines(s: string): (r: seq<string>)
    ensures r == [] <==> s == []
    ensures forall i :: 0 <= i < |r| ==> NoNewline(r[i])
    ensures s != [] && NoNewline(s) ==> r == [s]
    decreases |s|
  {
    if s == [] then []
    else
      var k := NewlineIndex(s);
      if k == |s| then [s] else [StripCR(s[..k])] + Lines(s[k + 1..])
  }

  /** A line the splitter gives back unchanged when it is joined with others. */
  predicate PlainLine(s: string)
  {
    NoNewline(s) && !(|s| > 0 && s[|s| - 1] == '\r')
  }

  /** `lines` undoes `join("\n")` when no line holds a newline or ends in a
      carriage return and the last line is not empty. */
  lemma {:induction false} LinesOfJoin(ls: seq<string>)
    requires forall i :: 0 <= i < |ls| ==> PlainLine(ls[i])
    requires |ls| > 0 ==> ls[|ls| - 1] != ""
    ensures Lines(Join(ls, "\n")) == ls
  {
    if |ls| == 1 {
      assert NewlineIndex(ls[0]) == |ls[0]|;
    } else if |ls| > 1 {
      var rest := Join(ls[1..], "\n");
      var s := ls[0] + "\n" + rest;
      assert Join(ls, "\n") == s;
      assert s[|ls[0]|] == '\n';
      assert forall i :: 0 <= i < |ls[0]| ==> s[i] == ls[0][i];
      assert NewlineIndex(s) == |ls[0]|;
      assert s[..|ls[0]|] == ls[0];
      assert s[|ls[0]| + 1..] == rest;
      LinesOfJoin(ls[1..]);
    }
  }

  // ---------------------------------------------------------------------------
  // Decimal numbers

  function DigitChar(d: nat): (c: char)
    requires d < 10
    ensures '0' <= c <= '9'
  {
    ['0', '1', '2', '3', '4', '5', '6', '7', '8', '9'][d]
  }

  predicate IsDigit(c: char)
  {
    '0' <= c <= '9'
  }

  predicate AllDigits(s: string)
  {
    forall i :: 0 <= i < |s| ==> IsDigit(s[i])
  }

  function DigitValue(c: char): nat
  {
    if IsDigit(c) then (c as int) - ('0' as int) else 0
  }

  /** The number a string of decimal digits denotes. */
  function ValueOf(s: string): nat
  {
    if s == [] then 0 else ValueOf(s[..|s| - 1]) * 10 + DigitValue(s[|s| - 1])
  }

  /** `format!("{}", n)` for an unsigned integer. */
  function Decimal(n: nat): (r: string)
    ensures |r| >= 1 && AllDigits(r)
    ensures |r| == 1 <==> n < 10
  {
    if n < 10 then [DigitChar(n)] else Decimal(n / 10) + [DigitChar(n % 10)]
  }

  lemma DigitRoundTrip(d: nat)
    requires d < 10
    ensures DigitValue(DigitChar(d)) == d
  {
  }

  /** Reading back the printed number gives the number. */
  lemma {:induction false} ValueOfDecimal(n: nat)
    ensures ValueOf(Decimal(n)) == n
  {
    var s := Decimal(n);
    if n < 10 {
      DigitRoundTrip(n);
      assert s[..0] == [];
    } else {
      assert s[..|s| - 1] == Decimal(n / 10);
      DigitRoundTrip(n % 10);
      ValueOfDecimal(n / 10);
    }
  }

  /** Numbers below 100 print in at most two digits, below 1000 in at most three. */
  lemma DecimalShort(n: nat)
    ensures n < 100 ==> |Decimal(n)| <= 2
    ensures n < 1000 ==> |Decimal(n)| <= 3
  {
    if n >= 10 {
      assert |Decimal(n)| == |Decimal(n / 10)| + 1;
      if n >= 100 {
        assert |Decimal(n / 10)| == |Decimal(n / 100)| + 1;
      }
    }
  }

  /** `format!("{:02}", n)`: at least two digits, zero-padded. */
  function ZeroPad2(n: nat): (r: string)
    ensures |r| >= 2 && AllDigits(r) && ValueOf(r) == n
    ensures n < 100 ==> |r| == 2
  {
    ValueOfDecimal(n);
    DecimalShort(n);
    if n < 10 then
      var r := ['0', DigitChar(n)];
      assert r[..1] == ['0'] && ['0'][..0] == [];
      DigitRoundTrip(n);
      r
    else Decimal(n)
  }

  /** `format!("{:>w}", s)`: right-aligned in a field of `w` characters. */
  function PadLeft(s: string, w: nat): (r: string)
    ensures |r| == if |s| >= w then |s| else w
    ensures r[|r| - |s|..] == s
  {
    if |s| >= w then s else Spaces(w - |s|) + s
  }
}
