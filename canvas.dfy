/**
 * The computational parts of src/canvas.context.ts: the per-column min/max scan of
 * `computeValues` and the `toHHMMSS` time label.
 */
module Canvas {
  import opened Wrappers
  import opened Seqs

  // ---------------------------------------------------------------------------------------------
  // computeValues

  /** `bufferData[idx]`: a sample, or `undefined` past either end. */
  function SampleAt(buffer: seq<real>, idx: int): (r: Option<real>)
    ensures r.Some? <==> 0 <= idx < |buffer|
    ensures r.Some? ==> r.value == buffer[idx]
  {
    if 0 <= idx < |buffer| then Some(buffer[idx]) else None
  }

  /**
   * One step of the inner loop as written: a sample below `min` lowers it, otherwise a sample
   * above `max` raises it; `undefined` compares false both ways.
   */
  function ScanStep(acc: (real, real), curr: Option<real>): (real, real)
  {
    match curr
    case None => acc
    case Some(c) => if c < acc.0 then (c, acc.1) else if c > acc.1 then (acc.0, c) else acc
  }

  /** The pair `[min, max]` after the first `count` indices of the column starting at `start`. */
  function Scan(buffer: seq<real>, start: int, count: nat): (real, real)
  {
    if count == 0 then (1.0, -1.0)
    else ScanStep(Scan(buffer, start, count - 1), SampleAt(buffer, start + count - 1))
  }

  /** Each step moves at most one end of the pair, and an `undefined` sample moves neither. */
  lemma ScanStepMovesOneEnd(acc: (real, real), curr: Option<real>)
    ensures ScanStep(acc, curr).0 == acc.0 || ScanStep(acc, curr).1 == acc.1
    ensures curr.None? ==> ScanStep(acc, curr) == acc
  {
  }

  /** The first component is the minimum of 1.0 and the column's samples. */
  lemma {:induction false} ScanMin(buffer: seq<real>, start: int, count: nat)
    ensures var m := Scan(buffer, start, count).0;
      && m <= 1.0
      && (forall idx :: start <= idx < start + count && 0 <= idx < |buffer| ==> m <= buffer[idx])
      && (m == 1.0 || exists idx :: start <= idx < start + count && 0 <= idx < |buffer| && m == buffer[idx])
  {
    if count > 0 {
      ScanMin(buffer, start, count - 1);
    }
  }

  /** The second component never exceeds the larger of -1.0 and the column's samples. */
  lemma {:induction false} ScanMaxBounded(buffer: seq<real>, start: int, count: nat)
    ensures var m := Scan(buffer, start, count).1;
      m == -1.0 || exists idx :: start <= idx < start + count && 0 <= idx < |buffer| && m == buffer[idx]
  {
    if count > 0 {
      ScanMaxBounded(buffer, start, count - 1);
    }
  }

  /** One positive sample: it lowers `min` and is never compared against `max`. */
  lemma ElseIfSkipsMaximum()
    ensures Scan([0.5], 0, 1) == (0.5, -1.0)
    ensures Envelope([0.5], 0, 1) == (0.5, 0.5)
  {
  }

  /** The scan with both comparisons made for every sample. */
  function EnvelopeStep(acc: (real, real), curr: Option<real>): (real, real)
  {
    match curr
    case None => acc
    case Some(c) => (if c < acc.0 then c else acc.0, if c > acc.1 then c else acc.1)
  }

  function Envelope(buffer: seq<real>, start: int, count: nat): (real, real)
  {
    if count == 0 then (1.0, -1.0)
    else EnvelopeStep(Envelope(buffer, start, count - 1), SampleAt(buffer, start + count - 1))
  }

  /** The corrected scan yields the minimum of 1.0 and the samples and the maximum of -1.0 and the samples. */
  lemma {:induction false} EnvelopeIsExtremes(buffer: seq<real>, start: int, count: nat)
    ensures var (lo, hi) := Envelope(buffer, start, count);
      && lo <= 1.0 && -1.0 <= hi
      && (forall idx :: start <= idx < start + count && 0 <= idx < |buffer| ==> lo <= buffer[idx] <= hi)
      && (lo == 1.0 || exists idx :: start <= idx < start + count && 0 <= idx < |buffer| && lo == buffer[idx])
      && (hi == -1.0 || exists idx :: start <= idx < start + count && 0 <= idx < |buffer| && hi == buffer[idx])
  {
    if count > 0 {
      EnvelopeIsExtremes(buffer, start, count - 1);
    }
  }

  /** `Math.ceil(len / width)` for a positive width. */
  function ColumnStep(len: nat, width: nat): (step: nat)
    requires width > 0
    ensures step * width >= len
    ensures step > 0 ==> (step - 1) * width < len
  {
    var q := len / width;
    if q * width == len then q else q + 1
  }

  class CanvasContext {
    var width: nat
    var step: nat
    var audioData: seq<(real, real)>

    constructor (width: nat)
      ensures this.width == width && step == 0 && audioData == []
    {
      this.width := width;
      step := 0;
      audioData := [];
    }

    /** The inner loop of `computeValues` for column `i`. */
    method ScanColumn(bufferData: seq<real>, i: nat) returns (pair: (real, real))
      ensures pair == Scan(bufferData, i * step, step)
    {
      var min := 1.0;
      var max := -1.0;
      for j := 0 to step
        invariant (min, max) == Scan(bufferData, i * step, j)
      {
        var curr := SampleAt(bufferData, i * step + j);
        if curr.Some? && curr.value < min {
          min := curr.value;
        } else if curr.Some? && curr.value > max {
          max := curr.value;
        }
      }
      pair := (min, max);
    }

    /**
     * `computeValues(bufferData)`: `width` pairs, pair `i` scanning the indices
     * `[i * step, (i + 1) * step)` with `step = ceil(len / width)`.
     */
    method ComputeValues(bufferData: seq<real>)
      modifies this
      ensures width == old(width)
      ensures width > 0 ==> step == ColumnStep(|bufferData|, width)
      ensures |audioData| == width
      ensures forall i :: 0 <= i < width ==> audioData[i] == Scan(bufferData, i * step, step)
    {
      var s := if width > 0 then ColumnStep(|bufferData|, width) else 0;
      step := s;
      var data: seq<(real, real)> := [];
      for i := 0 to width
        invariant width == old(width) && step == s
        invariant |data| == i
        invariant forall c :: 0 <= c < i ==> data[c] == Scan(bufferData, c * step, step)
      {
        var pair := ScanColumn(bufferData, i);
        data := data + [pair];
      }
      audioData := data;
    }
  }

  /** With `step = ceil(len / width)` the columns together reach every sample of the buffer. */
  lemma ColumnsCoverBuffer(len: nat, width: nat, idx: nat)
    requires width > 0 && idx < len
    ensures var step := ColumnStep(len, width);
      step > 0 && idx / step < width && (idx / step) * step <= idx < (idx / step) * step + step
  {
    var step := ColumnStep(len, width);
    var c := idx / step;
    assert idx == c * step + idx % step;
    assert c * step < width * step;
    assert (width - c) * step == width * step - c * step;
  }

  // ---------------------------------------------------------------------------------------------
  // toHHMMSS

  function DigitChar(d: nat): (c: char)
    requires d < 10
    ensures '0' <= c <= '9' && (c as int) - ('0' as int) == d
  {
    (('0' as int) + d) as char
  }

  predicate AllDigits(s: string)
  {
    forall k :: 0 <= k < |s| ==> '0' <= s[k] <= '9'
  }

  /** `n.toString()` for a whole number. */
  function Digits(n: nat): (s: string)
    ensures |s| >= 1 && AllDigits(s)
    ensures n < 10 <==> |s| == 1
  {
    if n < 10 then [DigitChar(n)] else Digits(n / 10) + [DigitChar(n % 10)]
  }

  /** The number a string of decimal digits denotes. */
  function DecimalValue(s: string): nat
    requires AllDigits(s)
  {
    if s == [] then 0
    else DecimalValue(s[..|s| - 1]) * 10 + ((s[|s| - 1] as int) - ('0' as int))
  }

  lemma {:induction false} DigitsRoundTrip(n: nat)
    ensures DecimalValue(Digits(n)) == n
  {
    if n >= 10 {
      DigitsRoundTrip(n / 10);
      var s := Digits(n);
      assert s[..|s| - 1] == Digits(n / 10);
    }
  }

  /** A leading zero does not change the value. */
  lemma {:induction false} LeadingZero(s: string)
    requires AllDigits(s)
    ensures AllDigits("0" + s) && DecimalValue("0" + s) == DecimalValue(s)
    decreases |s|
  {
    if s != [] {
      assert ("0" + s)[..|"0" + s| - 1] == "0" + s[..|s| - 1];
      LeadingZero(s[..|s| - 1]);
    }
  }

  /** A component as `toHHMMSS` prints it: below 10 with a leading zero, else as is. */
  function Pad(x: nat): (s: string)
    ensures AllDigits(s) && DecimalValue(s) == x
    ensures x < 100 ==> |s| == 2
    ensures |s| >= 2
  {
    DigitsRoundTrip(x);
    if x < 10 then
      LeadingZero(Digits(x));
      "0" + Digits(x)
    else
      assert x / 10 < 10 ==> |Digits(x / 10)| == 1;
      Digits(x)
  }

  /** The hours, minutes and seconds `toHHMMSS` prints. */
  datatype Clock = Clock(hours: nat, minutes: nat, seconds: nat)

  /** `Math.floor` of the hour and minute quotients and what remains as seconds. */
  function Components(secs: nat): (c: Clock)
    ensures c.minutes < 60 && c.seconds < 60
    ensures c.hours * 3600 + c.minutes * 60 + c.seconds == secs
    ensures c.hours == 0 <==> secs < 3600
  {
    var hours := secs / 3600;
    var rest := secs - hours * 3600;
    var minutes := rest / 60;
    Clock(hours, minutes, rest - minutes * 60)
  }

  /** `toHHMMSS(secs)` for a whole number of seconds. */
  function ToHHMMSS(secs: nat): (r: string)
    ensures secs < 3600 <==> |r| == 5
    ensures secs >= 3600 ==> |r| >= 8 && r[|r| - 6] == ':' && r[|r| - 3] == ':'
  {
    Label(Components(secs))
  }

  /** The string built from the components: the hours field only when there is one. */
  function Label(c: Clock): (r: string)
    ensures |r| >= 5
    ensures c.hours == 0 && c.minutes < 100 && c.seconds < 100 ==> |r| == 5
  {
    if c.hours == 0 then Pad(c.minutes) + ":" + Pad(c.seconds)
    else Pad(c.hours) + ":" + Pad(c.minutes) + ":" + Pad(c.seconds)
  }

  /** The colon-separated fields of a string. */
  function Split(s: string): (parts: seq<string>)
    ensures |parts| >= 1
    decreases |s|
  {
    var i := IndexOf(s, ':');
    if i < 0 then [s] else [s[..i]] + Split(s[i + 1..])
  }

  lemma SplitJoin(a: string, b: string)
    requires ':' !in a
    ensures Split(a + ":" + b) == [a] + Split(b)
  {
    var s := a + ":" + b;
    var i := IndexOf(s, ':');
    assert s[|a|] == ':';
    assert forall j :: 0 <= j < |a| ==> s[j] == a[j];
    assert i == |a|;
    assert s[..i] == a && s[i + 1..] == b;
  }

  lemma SplitNone(a: string)
    requires ':' !in a
    ensures Split(a) == [a]
  {
  }

  lemma DigitsHaveNoColon(s: string)
    requires AllDigits(s)
    ensures ':' !in s
  {
  }

  /** The seconds that colon-separated fields denote: `MM:SS` or `HH:MM:SS`, minutes and seconds below 60. */
  function ClockValue(parts: seq<string>): Option<nat>
  {
    if !(forall k :: 0 <= k < |parts| ==> AllDigits(parts[k])) then None
    else if |parts| == 2 && DecimalValue(parts[0]) < 60 && DecimalValue(parts[1]) < 60 then
      Some(DecimalValue(parts[0]) * 60 + DecimalValue(parts[1]))
    else if |parts| == 3 && DecimalValue(parts[1]) < 60 && DecimalValue(parts[2]) < 60 then
      Some(DecimalValue(parts[0]) * 3600 + DecimalValue(parts[1]) * 60 + DecimalValue(parts[2]))
    else None
  }

  /** Reads a label back. */
  function ParseClock(s: string): Option<nat>
  {
    ClockValue(Split(s))
  }

  /** Two colon-free fields joined by a colon split back into them. */
  lemma SplitTwo(a: string, b: string)
    requires ':' !in a && ':' !in b
    ensures Split(a + ":" + b) == [a, b]
  {
    SplitNone(b);
    SplitJoin(a, b);
  }

  /** Three colon-free fields joined by colons split back into them. */
  lemma SplitThree(a: string, b: string, d: string)
    requires ':' !in a && ':' !in b && ':' !in d
    ensures Split(a + ":" + b + ":" + d) == [a, b, d]
  {
    var tail := b + ":" + d;
    JoinAssoc(a, b, d);
    SplitJoin(a, tail);
    SplitTwo(b, d);
  }

  lemma JoinAssoc(a: string, b: string, d: string)
    ensures a + ":" + b + ":" + d == a + ":" + (b + ":" + d)
  {
  }

  /** An `MM:SS` label splits into its two padded fields. */
  lemma SplitMinutes(m: nat, sec: nat)
    ensures Split(Pad(m) + ":" + Pad(sec)) == [Pad(m), Pad(sec)]
  {
    DigitsHaveNoColon(Pad(m));
    DigitsHaveNoColon(Pad(sec));
    SplitTwo(Pad(m), Pad(sec));
  }

  /** An `HH:MM:SS` label splits into its three padded fields. */
  lemma SplitHours(h: nat, m: nat, sec: nat)
    ensures Split(Pad(h) + ":" + Pad(m) + ":" + Pad(sec)) == [Pad(h), Pad(m), Pad(sec)]
  {
    DigitsHaveNoColon(Pad(h));
    DigitsHaveNoColon(Pad(m));
    DigitsHaveNoColon(Pad(sec));
    SplitThree(Pad(h), Pad(m), Pad(sec));
  }

  lemma ValueOfMinutes(m: nat, sec: nat)
    requires m < 60 && sec < 60
    ensures ClockValue([Pad(m), Pad(sec)]) == Some(m * 60 + sec)
  {
  }

  lemma ValueOfHours(h: nat, m: nat, sec: nat)
    requires m < 60 && sec < 60
    ensures ClockValue([Pad(h), Pad(m), Pad(sec)]) == Some(h * 3600 + m * 60 + sec)
  {
  }

  /** Without hours the label is `MM:SS`. */
  lemma LabelWithoutHours(c: Clock)
    requires c.hours == 0 && c.minutes < 60 && c.seconds < 60
    ensures Split(Label(c)) == [Pad(c.minutes), Pad(c.seconds)]
    ensures ClockValue(Split(Label(c))) == Some(c.minutes * 60 + c.seconds)
  {
    SplitMinutes(c.minutes, c.seconds);
    ValueOfMinutes(c.minutes, c.seconds);
  }

  /** With hours the label is `HH:MM:SS`. */
  lemma LabelWithHours(c: Clock)
    requires c.hours > 0 && c.minutes < 60 && c.seconds < 60
    ensures Split(Label(c)) == [Pad(c.hours), Pad(c.minutes), Pad(c.seconds)]
    ensures ClockValue(Split(Label(c))) == Some(c.hours * 3600 + c.minutes * 60 + c.seconds)
  {
    SplitHours(c.hours, c.minutes, c.seconds);
    ValueOfHours(c.hours, c.minutes, c.seconds);
  }

  /** Any label of minutes and seconds below 60 reads back as its number of seconds. */
  lemma LabelRoundTrip(c: Clock)
    requires c.minutes < 60 && c.seconds < 60
    ensures ParseClock(Label(c)) == Some(c.hours * 3600 + c.minutes * 60 + c.seconds)
    ensures |Split(Label(c))| == if c.hours == 0 then 2 else 3
    ensures var parts := Split(Label(c));
      |parts[|parts| - 1]| == 2 && |parts[|parts| - 2]| == 2
  {
    if c.hours == 0 {
      LabelWithoutHours(c);
    } else {
      LabelWithHours(c);
    }
  }

  /**
   * The label reads back as the same number of seconds: two-digit minutes and seconds below 60,
   * and an hours field exactly when there is at least one hour.
   */
  lemma ToHHMMSSRoundTrip(secs: nat)
    ensures ParseClock(ToHHMMSS(secs)) == Some(secs)
    ensures |Split(ToHHMMSS(secs))| == if secs < 3600 then 2 else 3
    ensures var parts := Split(ToHHMMSS(secs));
      |parts[|parts| - 1]| == 2 && |parts[|parts| - 2]| == 2
  {
    LabelRoundTrip(Components(secs));
  }
}
