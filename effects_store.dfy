/**
 * `EffectsStore` of src/effects.store.ts: the registry of effect records, their affected
 * seconds, and the per-second window plan whose rendered output is patched into the buffer.
 * Offline rendering is the parameter `render`: it receives a window's effect chain and input
 * samples and yields the rendered samples, or `None` when rendering fails.
 */
module Effects {
  import opened Wrappers
  import opened Seqs
  import EffectsData
  import opened BufferContext

  /**
   * An `IEffect` record. Nothing changes its fields after `add`, and `remove` finds it by
   * reference (`indexOf`), so it is an object rather than a value.
   */
  class EffectRecord {
    const effect: string
    const properties: map<string, real>
    const indexStart: int
    const indexEnd: int
    const seconds: seq<real>

    constructor (effect: string, properties: map<string, real>, indexStart: int, indexEnd: int, seconds: seq<real>)
      ensures this.effect == effect && this.properties == properties
      ensures this.indexStart == indexStart && this.indexEnd == indexEnd && this.seconds == seconds
    {
      this.effect := effect;
      this.properties := properties;
      this.indexStart := indexStart;
      this.indexEnd := indexEnd;
      this.seconds := seconds;
    }
  }

  datatype AddError = UnknownEffectType(name: string)

  // ---------------------------------------------------------------------------------------------
  // Sample indices and seconds

  /** `index / sampleRate` as a JavaScript number (exactly, without rounding). */
  function Ratio(index: int, rate: nat): real
    requires rate > 0
  {
    index as real / rate as real
  }

  /** `Math.floor(index / rate)`. */
  function FloorDiv(index: int, rate: nat): int
    requires rate > 0
  {
    index / rate
  }

  /** `Math.ceil(index / rate)`. */
  function CeilDiv(index: int, rate: nat): int
    requires rate > 0
  {
    -((-index) / rate)
  }

  lemma RatioScales(index: int, rate: nat)
    requires rate > 0
    ensures Ratio(index, rate) * rate as real == index as real
  {
  }

  /** Dividing by the rate keeps the order of sample indices, both ways. */
  lemma RatioOrder(a: int, b: int, rate: nat)
    requires rate > 0
    ensures a <= b <==> Ratio(a, rate) <= Ratio(b, rate)
    ensures a < b <==> Ratio(a, rate) < Ratio(b, rate)
  {
    RatioScales(a, rate);
    RatioScales(b, rate);
  }

  lemma FloorDivBounds(index: int, rate: nat)
    requires rate > 0
    ensures FloorDiv(index, rate) as real <= Ratio(index, rate) < (FloorDiv(index, rate) + 1) as real
  {
    var q := index / rate;
    var r := index % rate;
    assert index == rate * q + r && 0 <= r < rate;
    QuotientSplit(q, r, rate);
    FractionBelowOne(r, rate);
  }

  /** `(rate·q + r) / rate` is `q` plus the fraction `r / rate`. */
  lemma QuotientSplit(q: int, r: int, rate: nat)
    requires rate > 0
    ensures Ratio(rate * q + r, rate) == q as real + Ratio(r, rate)
  {
    var x := rate as real;
    assert (rate * q + r) as real == x * q as real + r as real;
    assert (x * q as real + r as real) / x == q as real + r as real / x;
  }

  lemma FractionBelowOne(r: int, rate: nat)
    requires 0 <= r < rate
    ensures 0.0 <= Ratio(r, rate) < 1.0
  {
    var x := rate as real;
    assert r as real < x;
    assert r as real / x < x / x;
  }

  lemma CeilDivBounds(index: int, rate: nat)
    requires rate > 0
    ensures (CeilDiv(index, rate) - 1) as real < Ratio(index, rate) <= CeilDiv(index, rate) as real
  {
    FloorDivBounds(-index, rate);
  }

  /**
   * What `calculateSeconds(start, end)` yields at `rate`: `start/rate`, `start/rate + 1`, …, each
   * below `end/rate`, and no further one would be.
   */
  predicate SecondsMatch(seconds: seq<real>, startIndex: int, endIndex: int, rate: nat)
    requires rate > 0
  {
    && (forall k :: 0 <= k < |seconds| ==> seconds[k] == Ratio(startIndex, rate) + k as real)
    && (forall k :: 0 <= k < |seconds| ==> seconds[k] < Ratio(endIndex, rate))
    && Ratio(startIndex, rate) + |seconds| as real >= Ratio(endIndex, rate)
  }

  /** The seconds are empty exactly when the range is. */
  lemma SecondsEmpty(seconds: seq<real>, startIndex: int, endIndex: int, rate: nat)
    requires rate > 0 && SecondsMatch(seconds, startIndex, endIndex, rate)
    ensures seconds == [] <==> endIndex <= startIndex
  {
    RatioOrder(endIndex, startIndex, rate);
    if seconds != [] {
      assert seconds[0] == Ratio(startIndex, rate);
    }
  }

  /** There are as many seconds as fit: the last one is below `end/rate`, one more would not be. */
  lemma SecondsCount(seconds: seq<real>, startIndex: int, endIndex: int, rate: nat)
    requires rate > 0 && SecondsMatch(seconds, startIndex, endIndex, rate)
    ensures seconds != [] ==> Ratio(startIndex, rate) + (|seconds| - 1) as real < Ratio(endIndex, rate)
    ensures Ratio(endIndex, rate) <= Ratio(startIndex, rate) + |seconds| as real
  {
    if seconds != [] {
      assert seconds[|seconds| - 1] == Ratio(startIndex, rate) + (|seconds| - 1) as real;
    }
  }

  /**
   * A start index that is not a whole number of seconds gives fractional seconds only, so the
   * record never matches the whole second a window asks for.
   */
  lemma OffGridNeverActive(e: EffectRecord, rate: nat, second: int)
    requires rate > 0 && SecondsMatch(e.seconds, e.indexStart, e.indexEnd, rate)
    requires e.indexStart % rate != 0
    ensures second as real !in e.seconds
  {
    if second as real in e.seconds {
      var k :| 0 <= k < |e.seconds| && e.seconds[k] == second as real;
      WholeRatio(e.indexStart, rate, second - k);
      MultipleHasNoRemainder(rate, second - k);
    }
  }

  /**
   * The whole seconds evidently meant for a record over `[startIndex, endIndex)`: the seconds
   * from the floor of its start to the ceiling of its end, each of whose windows
   * `[rate·i, rate·(i+1))` the planner renders.
   */
  function CoveringSeconds(startIndex: int, endIndex: int, rate: nat): seq<real>
    requires rate > 0
  {
    var lo := FloorDiv(startIndex, rate);
    var hi := CeilDiv(endIndex, rate);
    seq(if lo < hi then hi - lo else 0, k => (lo + k) as real)
  }

  /** Every sample of the range falls in the window of one of the covering seconds. */
  lemma CoveringSecondsHoldRange(startIndex: int, endIndex: int, rate: nat, x: int)
    requires rate > 0 && startIndex <= x < endIndex
    ensures FloorDiv(x, rate) as real in CoveringSeconds(startIndex, endIndex, rate)
    ensures rate * FloorDiv(x, rate) <= x < rate * (FloorDiv(x, rate) + 1)
  {
    var lo, hi, i := FloorDiv(startIndex, rate), CeilDiv(endIndex, rate), FloorDiv(x, rate);
    FloorDivBounds(startIndex, rate);
    FloorDivBounds(x, rate);
    CeilDivBounds(endIndex, rate);
    RatioOrder(startIndex, x, rate);
    RatioOrder(x, endIndex, rate);
    assert lo <= i < hi;
    var r := CoveringSeconds(startIndex, endIndex, rate);
    assert r[i - lo] == i as real;
    assert x == rate * i + x % rate;
    assert rate * (i + 1) == rate * i + rate;
  }

  /** On a start that is a whole number of seconds, the code's seconds are the covering ones. */
  lemma OnGridSecondsCover(seconds: seq<real>, startIndex: int, endIndex: int, rate: nat)
    requires rate > 0 && SecondsMatch(seconds, startIndex, endIndex, rate)
    requires startIndex % rate == 0
    ensures seconds == CoveringSeconds(startIndex, endIndex, rate)
  {
    var q := FloorDiv(startIndex, rate);
    var c := CeilDiv(endIndex, rate);
    var n := |seconds|;
    assert startIndex == rate * q + 0;
    QuotientSplit(q, 0, rate);
    assert Ratio(0, rate) == 0.0;
    assert Ratio(startIndex, rate) == q as real;
    CeilDivBounds(endIndex, rate);
    SecondsCount(seconds, startIndex, endIndex, rate);
    if n > 0 {
      assert (q + n - 1) as real < c as real;
    } else {
      assert (c - 1) as real < q as real;
    }
    assert n == (if q < c then c - q else 0);
  }

  /** A whole number of seconds is a whole multiple of the rate. */
  lemma WholeRatio(index: int, rate: nat, q: int)
    requires rate > 0 && Ratio(index, rate) == q as real
    ensures index == rate * q
  {
    RatioScales(index, rate);
    assert (rate * q) as real == rate as real * q as real;
  }

  lemma MultipleHasNoRemainder(rate: nat, q: int)
    requires rate > 0
    ensures (rate * q) % rate == 0
  {
    var a := rate * q;
    var d := q - a / rate;
    assert a == rate * (a / rate) + a % rate;
    assert rate * d == rate * q - rate * (a / rate);
    assert rate * d == a % rate;
    if d >= 1 {
      MulMonotone(rate, 1, d);
    } else if d <= -1 {
      MulMonotone(rate, d, -1);
    }
  }

  // ---------------------------------------------------------------------------------------------
  // The registry as seen by the planner

  /** `effectsForSecond(second)`: the records whose seconds contain `second`, in registration order. */
  function ActiveAt(effects: seq<EffectRecord>, second: int): (r: seq<EffectRecord>)
    ensures forall k :: 0 <= k < |r| ==> r[k] in effects && second as real in r[k].seconds
    ensures forall k :: 0 <= k < |effects| && second as real in effects[k].seconds ==> effects[k] in r
    ensures |r| <= |effects|
  {
    if effects == [] then []
    else
      var last := effects[|effects| - 1];
      ActiveAt(effects[..|effects| - 1], second) + (if second as real in last.seconds then [last] else [])
  }

  /** Filtering two registries one after the other keeps each one's order. */
  lemma {:induction false} ActiveAtAppend(a: seq<EffectRecord>, b: seq<EffectRecord>, second: int)
    ensures ActiveAt(a + b, second) == ActiveAt(a, second) + ActiveAt(b, second)
    decreases |b|
  {
    if b == [] {
      assert a + b == a;
    } else {
      assert (a + b)[..|a + b| - 1] == a + b[..|b| - 1];
      ActiveAtAppend(a, b[..|b| - 1], second);
    }
  }

  /** The smallest `indexStart`, as the running minimum of `getSecondsInterval` finds it. */
  function MinStart(effects: seq<EffectRecord>): (m: int)
    requires effects != []
    ensures forall k :: 0 <= k < |effects| ==> m <= effects[k].indexStart
    ensures exists k :: 0 <= k < |effects| && m == effects[k].indexStart
  {
    if |effects| == 1 then effects[0].indexStart
    else
      var m := MinStart(effects[..|effects| - 1]);
      var last := effects[|effects| - 1].indexStart;
      if last < m then last else m
  }

  /** The largest `indexEnd`. */
  function MaxEnd(effects: seq<EffectRecord>): (m: int)
    requires effects != []
    ensures forall k :: 0 <= k < |effects| ==> effects[k].indexEnd <= m
    ensures exists k :: 0 <= k < |effects| && m == effects[k].indexEnd
  {
    if |effects| == 1 then effects[0].indexEnd
    else
      var m := MaxEnd(effects[..|effects| - 1]);
      var last := effects[|effects| - 1].indexEnd;
      if last > m then last else m
  }

  /** `getSecondsInterval()`: `[0, 0]` for no effects, else the smallest start and the largest end. */
  function Interval(effects: seq<EffectRecord>): (int, int)
  {
    if effects == [] then (0, 0) else (MinStart(effects), MaxEnd(effects))
  }

  /** One entry of the `seconds` list of `applyEffectPerSecond`: patch offset, input range, chain. */
  datatype Window = Window(offset: int, inputStart: int, inputEnd: int, effects: seq<EffectRecord>)

  /** The window of second `i`: offset and input start `rate * i`, input end `rate * (i + 1)`. */
  function WindowFor(effects: seq<EffectRecord>, rate: nat, i: int): Window
  {
    Window(rate * i, rate * i, rate * (i + 1), ActiveAt(effects, i))
  }

  /** The windows kept for the seconds `lo`, …, `hi - 1`, in ascending order; empty chains are skipped. */
  function Windows(effects: seq<EffectRecord>, rate: nat, lo: int, hi: int): seq<Window>
    decreases hi - lo
  {
    if hi <= lo then []
    else
      var w := WindowFor(effects, rate, hi - 1);
      Windows(effects, rate, lo, hi - 1) + (if w.effects == [] then [] else [w])
  }

  /** The windows `apply` renders: whole seconds from the floor of the interval's start to the ceiling of its end. */
  function Plan(effects: seq<EffectRecord>, rate: nat): seq<Window>
    requires rate > 0
  {
    var (start, end) := Interval(effects);
    Windows(effects, rate, FloorDiv(start, rate), CeilDiv(end, rate))
  }

  /** `w` is the window of some second in `[lo, hi)` whose chain is not empty. */
  ghost predicate WindowOfRange(effects: seq<EffectRecord>, rate: nat, lo: int, hi: int, w: Window)
  {
    exists i :: lo <= i < hi && w == WindowFor(effects, rate, i) && ActiveAt(effects, i) != []
  }

  /** Every planned window is the window of a second in range, with a non-empty chain. */
  lemma {:induction false} WindowsSound(effects: seq<EffectRecord>, rate: nat, lo: int, hi: int)
    ensures forall k :: 0 <= k < |Windows(effects, rate, lo, hi)| ==>
      WindowOfRange(effects, rate, lo, hi, Windows(effects, rate, lo, hi)[k])
    decreases hi - lo
  {
    if lo < hi {
      var init := Windows(effects, rate, lo, hi - 1);
      var ws := Windows(effects, rate, lo, hi);
      WindowsSound(effects, rate, lo, hi - 1);
      forall k | 0 <= k < |ws|
        ensures WindowOfRange(effects, rate, lo, hi, ws[k])
      {
        if k < |init| {
          assert ws[k] == init[k];
          assert WindowOfRange(effects, rate, lo, hi - 1, init[k]);
          var i :| lo <= i < hi - 1 && init[k] == WindowFor(effects, rate, i) && ActiveAt(effects, i) != [];
          assert lo <= i < hi;
        } else {
          assert ws[k] == WindowFor(effects, rate, hi - 1);
        }
      }
    }
  }

  /** Every second in range with an active effect gets its window. */
  lemma {:induction false} WindowsComplete(effects: seq<EffectRecord>, rate: nat, lo: int, hi: int, i: int)
    requires lo <= i < hi && ActiveAt(effects, i) != []
    ensures WindowFor(effects, rate, i) in Windows(effects, rate, lo, hi)
    decreases hi - lo
  {
    var init := Windows(effects, rate, lo, hi - 1);
    var w := WindowFor(effects, rate, hi - 1);
    var tail := if w.effects == [] then [] else [w];
    assert Windows(effects, rate, lo, hi) == init + tail;
    if i < hi - 1 {
      WindowsComplete(effects, rate, lo, hi - 1, i);
      assert WindowFor(effects, rate, i) in init;
    } else {
      assert w == WindowFor(effects, rate, i) && tail == [w];
    }
  }

  /** The windows of a shorter range are a prefix of those of a longer one. */
  lemma {:induction false} WindowsPrefix(effects: seq<EffectRecord>, rate: nat, lo: int, mid: int, hi: int)
    requires lo <= mid <= hi
    ensures Windows(effects, rate, lo, mid) <= Windows(effects, rate, lo, hi)
    decreases hi - mid
  {
    if mid < hi {
      WindowsPrefix(effects, rate, lo, mid, hi - 1);
    }
  }

  /** The planning loop reaching second `i` with an empty-input window throws over the whole range. */
  lemma EmptyWindowThrows(original: seq<real>, effects: seq<EffectRecord>, rate: nat, lo: int, i: int, hi: int)
    requires lo <= i < hi && ActiveAt(effects, i) != []
    requires EmptyInput(original, WindowFor(effects, rate, i))
    ensures PlanThrows(original, Windows(effects, rate, lo, hi))
  {
    var init := Windows(effects, rate, lo, i);
    var w := WindowFor(effects, rate, i);
    assert Windows(effects, rate, lo, i + 1) == init + [w];
    WindowsPrefix(effects, rate, lo, i + 1, hi);
    assert Windows(effects, rate, lo, hi)[|init|] == (init + [w])[|init|] == w;
  }

  /**
   * One step of the planning loop: after second `i`, the windows so far are those up to `i + 1`,
   * and none of them has empty input.
   */
  lemma PlanStep(original: seq<real>, effects: seq<EffectRecord>, rate: nat, lo: int, i: int, ws: seq<Window>)
    requires lo <= i && !PlanThrows(original, Windows(effects, rate, lo, i))
    requires ActiveAt(effects, i) == [] ==> ws == Windows(effects, rate, lo, i)
    requires ActiveAt(effects, i) != [] ==>
      && ws == Windows(effects, rate, lo, i) + [WindowFor(effects, rate, i)]
      && !EmptyInput(original, WindowFor(effects, rate, i))
    ensures ws == Windows(effects, rate, lo, i + 1)
    ensures !PlanThrows(original, ws)
  {
    var init := Windows(effects, rate, lo, i);
    forall k | 0 <= k < |ws|
      ensures !EmptyInput(original, ws[k])
    {
      if k < |init| {
        assert ws[k] == init[k];
      }
    }
  }

  /** Where the planning loop ends, the windows so far are the whole plan, and it does not throw. */
  lemma PlanDone(original: seq<real>, effects: seq<EffectRecord>, rate: nat, lo: int, i: int, hi: int, ws: seq<Window>)
    requires lo <= i && (i <= hi || i == lo) && hi <= i
    requires ws == Windows(effects, rate, lo, i) && !PlanThrows(original, ws)
    ensures ws == Windows(effects, rate, lo, hi) && !PlanThrows(original, Windows(effects, rate, lo, hi))
  {
    if hi < lo {
      assert Windows(effects, rate, lo, hi) == [] == Windows(effects, rate, lo, lo);
    }
  }

  lemma MulMonotone(rate: nat, a: int, b: int)
    requires a <= b
    ensures rate * a <= rate * b
  {
    assert rate * b - rate * a == rate * (b - a);
  }

  /** Windows come in ascending order and each input range ends before the next window starts. */
  lemma {:induction false} WindowsAscending(effects: seq<EffectRecord>, rate: nat, lo: int, hi: int)
    ensures forall a, b :: 0 <= a < b < |Windows(effects, rate, lo, hi)| ==>
      Windows(effects, rate, lo, hi)[a].inputEnd <= Windows(effects, rate, lo, hi)[b].offset
    decreases hi - lo
  {
    if lo < hi {
      var init := Windows(effects, rate, lo, hi - 1);
      var ws := Windows(effects, rate, lo, hi);
      WindowsAscending(effects, rate, lo, hi - 1);
      WindowsSound(effects, rate, lo, hi - 1);
      forall a, b | 0 <= a < b < |ws|
        ensures ws[a].inputEnd <= ws[b].offset
      {
        if b < |init| {
          assert ws[a] == init[a] && ws[b] == init[b];
        } else {
          assert ws[a] == init[a] && ws[b] == WindowFor(effects, rate, hi - 1);
          assert WindowOfRange(effects, rate, lo, hi - 1, init[a]);
          var i :| lo <= i < hi - 1 && init[a] == WindowFor(effects, rate, i) && ActiveAt(effects, i) != [];
          MulMonotone(rate, i + 1, hi - 1);
        }
      }
    }
  }

  /**
   * Every second of every registered record lies in the planned range, so `apply` renders each
   * of them with that record in the chain.
   */
  lemma PlanCoversEverySecond(effects: seq<EffectRecord>, rate: nat, e: EffectRecord, second: int)
    requires rate > 0 && e in effects
    requires forall x :: x in effects ==> SecondsMatch(x.seconds, x.indexStart, x.indexEnd, rate)
    requires second as real in e.seconds
    ensures WindowFor(effects, rate, second) in Plan(effects, rate)
    ensures e in WindowFor(effects, rate, second).effects
  {
    var lo := FloorDiv(MinStart(effects), rate);
    var hi := CeilDiv(MaxEnd(effects), rate);
    var k :| 0 <= k < |e.seconds| && e.seconds[k] == second as real;
    assert Ratio(e.indexStart, rate) <= second as real;
    assert second as real < Ratio(e.indexEnd, rate);
    RatioOrder(MinStart(effects), e.indexStart, rate);
    RatioOrder(e.indexEnd, MaxEnd(effects), rate);
    FloorDivBounds(MinStart(effects), rate);
    CeilDivBounds(MaxEnd(effects), rate);
    assert lo <= second < hi;
    WindowsComplete(effects, rate, lo, hi, second);
  }

  /**
   * With every record's seconds the covering ones, every sample of every record lies in the
   * input range of a planned window whose chain holds that record.
   */
  lemma CorrectedPlanCoversRange(effects: seq<EffectRecord>, rate: nat, e: EffectRecord, x: int)
    requires rate > 0 && e in effects
    requires forall r :: r in effects ==> r.seconds == CoveringSeconds(r.indexStart, r.indexEnd, rate)
    requires e.indexStart <= x < e.indexEnd
    ensures var w := WindowFor(effects, rate, FloorDiv(x, rate));
      w in Plan(effects, rate) && e in w.effects && w.inputStart <= x < w.inputEnd
  {
    var i := FloorDiv(x, rate);
    CoveringSecondsHoldRange(e.indexStart, e.indexEnd, rate, x);
    assert i as real in e.seconds;
    var k :| 0 <= k < |effects| && effects[k] == e;
    assert e in ActiveAt(effects, i);
    var lo := FloorDiv(MinStart(effects), rate);
    var hi := CeilDiv(MaxEnd(effects), rate);
    FloorDivBounds(MinStart(effects), rate);
    FloorDivBounds(x, rate);
    CeilDivBounds(MaxEnd(effects), rate);
    RatioOrder(MinStart(effects), x, rate);
    RatioOrder(x, MaxEnd(effects), rate);
    assert lo <= i < hi;
    assert Interval(effects) == (MinStart(effects), MaxEnd(effects));
    WindowsComplete(effects, rate, lo, hi, i);
  }

  /** The worked example: a record over samples [44100, 88200) at 44100 Hz is active in second 1 only. */
  lemma OneSecondScenario(e: EffectRecord)
    requires e.indexStart == 44100 && e.indexEnd == 88200
    requires SecondsMatch(e.seconds, 44100, 88200, 44100)
    ensures e.seconds == [1.0]
    ensures Plan([e], 44100) == [Window(44100, 44100, 88200, [e])]
  {
    assert Ratio(44100, 44100) == 1.0;
    assert Ratio(88200, 44100) == 2.0;
    SecondsCount(e.seconds, 44100, 88200, 44100);
    assert e.seconds == [1.0];
    assert [e][..0] == [];
    assert FloorDiv(44100, 44100) == 1 && CeilDiv(88200, 44100) == 2;
    assert ActiveAt([e], 1) == [e];
  }

  // ---------------------------------------------------------------------------------------------
  // Rendering and patching

  /** The input samples and rendered samples of window `w`. */
  function RenderWindow(original: seq<real>, w: Window,
                        render: (seq<EffectRecord>, seq<real>) -> Option<seq<real>>): Option<seq<real>>
  {
    render(w.effects, Extract(original, w.inputStart, w.inputEnd))
  }

  /**
   * The list handed to `applyBufferChanges` once every window has rendered, or `None` when one
   * rendering fails (the promise chain then never reaches `applyBufferChanges`).
   */
  function RenderAll(original: seq<real>, ws: seq<Window>,
                     render: (seq<EffectRecord>, seq<real>) -> Option<seq<real>>): Option<seq<Patch>>
  {
    if forall k :: 0 <= k < |ws| ==> RenderWindow(original, ws[k], render).Some? then
      Some(seq(|ws|, k requires 0 <= k < |ws| && RenderWindow(original, ws[k], render).Some? =>
                       Patch(ws[k].offset, RenderWindow(original, ws[k], render).value)))
    else None
  }

  /**
   * `createBuffer(1, second.inputBuffer.length, rate)` throws (`NotSupportedError`) for a length
   * of 0: the window's clamped input range holds no sample.
   */
  predicate EmptyInput(original: seq<real>, w: Window)
  {
    Extract(original, w.inputStart, w.inputEnd) == []
  }

  /**
   * The planning loop throws at a window with empty input. It throws before the final
   * `p.then(... applyBufferChanges)` is attached, so nothing is patched and no notification is sent.
   */
  predicate PlanThrows(original: seq<real>, ws: seq<Window>)
  {
    exists k :: 0 <= k < |ws| && EmptyInput(original, ws[k])
  }

  /** The error escaping `apply()` (and `remove(effect, true)`) when `createBuffer` throws. */
  datatype ApplyError = CreateBufferNotSupported

  /**
   * What `applyEffectPerSecond` hands to `applyBufferChanges`: nothing when the planning loop
   * throws or a rendering fails, else every window's patch.
   */
  function Applied(original: seq<real>, ws: seq<Window>,
                   render: (seq<EffectRecord>, seq<real>) -> Option<seq<real>>): Option<seq<Patch>>
  {
    if PlanThrows(original, ws) then None else RenderAll(original, ws, render)
  }

  /** Second `i`'s input range `[rate·i, rate·(i+1))` holds no sample of a buffer of `len` samples. */
  predicate OutsideBuffer(rate: nat, len: nat, i: int)
  {
    i < 0 || rate * i >= len
  }

  /** A second's window has empty input exactly when the second lies outside the buffer. */
  lemma EmptyInputIff(original: seq<real>, effects: seq<EffectRecord>, rate: nat, i: int)
    requires rate > 0
    ensures EmptyInput(original, WindowFor(effects, rate, i)) <==> OutsideBuffer(rate, |original|, i)
  {
    var len := |original|;
    assert rate * (i + 1) == rate * i + rate;
    if i < 0 {
      MulMonotone(rate, i + 1, 0);
      assert Clamp(rate * (i + 1), len) == 0;
    } else if rate * i < len {
      MulMonotone(rate, 0, i);
      assert Clamp(rate * i, len) == rate * i < Clamp(rate * (i + 1), len);
    }
  }

  /**
   * `apply` throws exactly when some registered record is active in a second outside the
   * buffer — a record over a range that runs past the end of the buffer or before its start.
   */
  lemma PlanThrowsIff(original: seq<real>, effects: seq<EffectRecord>, rate: nat)
    requires rate > 0
    requires forall x :: x in effects ==> SecondsMatch(x.seconds, x.indexStart, x.indexEnd, rate)
    ensures PlanThrows(original, Plan(effects, rate)) <==>
      exists i :: ActiveAt(effects, i) != [] && OutsideBuffer(rate, |original|, i)
  {
    if PlanThrows(original, Plan(effects, rate)) {
      var i := ThrowingSecond(original, effects, rate);
    }
    if i :| ActiveAt(effects, i) != [] && OutsideBuffer(rate, |original|, i) {
      SecondOutsideThrows(original, effects, rate, i);
    }
  }

  /** A throwing plan has a second with an active record outside the buffer. */
  lemma ThrowingSecond(original: seq<real>, effects: seq<EffectRecord>, rate: nat) returns (i: int)
    requires rate > 0 && PlanThrows(original, Plan(effects, rate))
    ensures ActiveAt(effects, i) != [] && OutsideBuffer(rate, |original|, i)
  {
    var ws := Plan(effects, rate);
    var lo, hi := FloorDiv(Interval(effects).0, rate), CeilDiv(Interval(effects).1, rate);
    assert ws == Windows(effects, rate, lo, hi);
    var k :| 0 <= k < |ws| && EmptyInput(original, ws[k]);
    WindowsSound(effects, rate, lo, hi);
    assert WindowOfRange(effects, rate, lo, hi, ws[k]);
    i :| lo <= i < hi && ws[k] == WindowFor(effects, rate, i) && ActiveAt(effects, i) != [];
    EmptyInputIff(original, effects, rate, i);
  }

  /** A second outside the buffer with an active record makes the plan throw. */
  lemma SecondOutsideThrows(original: seq<real>, effects: seq<EffectRecord>, rate: nat, i: int)
    requires rate > 0
    requires forall x :: x in effects ==> SecondsMatch(x.seconds, x.indexStart, x.indexEnd, rate)
    requires ActiveAt(effects, i) != [] && OutsideBuffer(rate, |original|, i)
    ensures PlanThrows(original, Plan(effects, rate))
  {
    var ws := Plan(effects, rate);
    var e := ActiveAt(effects, i)[0];
    PlanCoversEverySecond(effects, rate, e, i);
    var k :| 0 <= k < |ws| && ws[k] == WindowFor(effects, rate, i);
    EmptyInputIff(original, effects, rate, i);
  }

  /** Records whose ranges lie within the buffer never make `apply` throw. */
  lemma InBufferNeverThrows(original: seq<real>, effects: seq<EffectRecord>, rate: nat)
    requires rate > 0
    requires forall x :: x in effects ==> SecondsMatch(x.seconds, x.indexStart, x.indexEnd, rate)
    requires forall x :: x in effects ==> 0 <= x.indexStart && x.indexEnd <= |original|
    ensures !PlanThrows(original, Plan(effects, rate))
  {
    PlanThrowsIff(original, effects, rate);
    forall i | ActiveAt(effects, i) != []
      ensures !OutsideBuffer(rate, |original|, i)
    {
      var e := ActiveAt(effects, i)[0];
      SecondInBuffer(e, rate, |original|, i);
    }
  }

  /** A record over samples [0, 3) at 1 Hz on a two-sample buffer: its third second throws. */
  lemma RangePastEndThrows(e: EffectRecord, original: seq<real>)
    requires e.indexStart == 0 && e.indexEnd == 3 && SecondsMatch(e.seconds, 0, 3, 1)
    requires |original| == 2
    ensures PlanThrows(original, Plan([e], 1))
  {
    SecondsCount(e.seconds, 0, 3, 1);
    assert e.seconds[2] == 2.0;
    assert ActiveAt([e], 2) != [];
    PlanThrowsIff(original, [e], 1);
  }

  /** A whole second of a record within `[0, len]` has its input range inside the buffer. */
  lemma SecondInBuffer(e: EffectRecord, rate: nat, len: nat, i: int)
    requires rate > 0 && SecondsMatch(e.seconds, e.indexStart, e.indexEnd, rate)
    requires 0 <= e.indexStart && e.indexEnd <= len
    requires i as real in e.seconds
    ensures 0 <= i && rate * i < len
  {
    var k :| 0 <= k < |e.seconds| && e.seconds[k] == i as real;
    RatioOrder(0, e.indexStart, rate);
    RatioOrder(e.indexEnd, len, rate);
    assert 0.0 <= i as real < Ratio(len, rate);
    if rate * i >= len {
      RatioOrder(len, rate * i, rate);
      QuotientSplit(i, 0, rate);
    }
  }

  /** The active channel after an `apply` whose renders came out as `outcome`. */
  function AfterApply(active: seq<real>, outcome: Option<seq<Patch>>): seq<real>
  {
    match outcome
    case None => active
    case Some(patches) => ApplyPatches(active, patches)
  }

  /** Every planned window spans one second of samples from its offset. */
  lemma WindowsSpanOneSecond(effects: seq<EffectRecord>, rate: nat, lo: int, hi: int)
    ensures forall a :: 0 <= a < |Windows(effects, rate, lo, hi)| ==>
      Windows(effects, rate, lo, hi)[a].inputEnd == Windows(effects, rate, lo, hi)[a].offset + rate
  {
    var ws := Windows(effects, rate, lo, hi);
    WindowsSound(effects, rate, lo, hi);
    forall a | 0 <= a < |ws|
      ensures ws[a].inputEnd == ws[a].offset + rate
    {
      assert WindowOfRange(effects, rate, lo, hi, ws[a]);
      var i :| lo <= i < hi && ws[a] == WindowFor(effects, rate, i) && ActiveAt(effects, i) != [];
      assert rate * (i + 1) == rate * i + rate;
    }
  }

  /** Once every window has rendered, patch `m` is window `m`'s output at window `m`'s offset. */
  lemma RenderAllPatches(original: seq<real>, ws: seq<Window>,
                         render: (seq<EffectRecord>, seq<real>) -> Option<seq<real>>)
    requires RenderAll(original, ws, render).Some?
    ensures forall m :: 0 <= m < |ws| ==> RenderWindow(original, ws[m], render).Some?
    ensures var ps := RenderAll(original, ws, render).value;
      && |ps| == |ws|
      && forall m :: 0 <= m < |ws| ==>
           ps[m].offset == ws[m].offset && ps[m].samples == RenderWindow(original, ws[m], render).value
  {
  }

  /**
   * Patches at the offsets of windows one after the other, each one window long, land where
   * they were planned: sample `j` of patch `k` ends up at the window's offset plus `j`.
   */
  lemma PatchLands(ws: seq<Window>, ps: seq<Patch>, rate: nat, channel: seq<real>, k: nat, j: nat)
    requires |ps| == |ws|
    requires forall m :: 0 <= m < |ws| ==> ps[m].offset == ws[m].offset && |ps[m].samples| == rate
    requires forall a :: 0 <= a < |ws| ==> ws[a].inputEnd == ws[a].offset + rate
    requires forall a, b :: 0 <= a < b < |ws| ==> ws[a].inputEnd <= ws[b].offset
    requires k < |ws| && j < rate && 0 <= ws[k].offset + j < |channel|
    ensures ApplyPatches(channel, ps)[ws[k].offset + j] == ps[k].samples[j]
  {
    assert Ascending(ps);
    AscendingPatchAt(channel, ps, k, j);
  }

  /**
   * Over windows one after the other, each rendering to one window of samples, every window's
   * output lands at its offset.
   */
  lemma RenderedLands(original: seq<real>, ws: seq<Window>, rate: nat,
                      render: (seq<EffectRecord>, seq<real>) -> Option<seq<real>>,
                      channel: seq<real>, k: nat, j: nat)
    requires RenderAll(original, ws, render).Some?
    requires forall m :: 0 <= m < |ws| ==> |RenderWindow(original, ws[m], render).value| == rate
    requires forall a :: 0 <= a < |ws| ==> ws[a].inputEnd == ws[a].offset + rate
    requires forall a, b :: 0 <= a < b < |ws| ==> ws[a].inputEnd <= ws[b].offset
    requires k < |ws| && j < rate && 0 <= ws[k].offset + j < |channel|
    ensures ApplyPatches(channel, RenderAll(original, ws, render).value)[ws[k].offset + j]
      == RenderWindow(original, ws[k], render).value[j]
  {
    var ps := RenderAll(original, ws, render).value;
    RenderAllPatches(original, ws, render);
    PatchLands(ws, ps, rate, channel, k, j);
  }

  /** The windows the planner makes for `[lo, hi)` meet what `RenderedLands` asks of them. */
  lemma PlannedWindowsLand(original: seq<real>, effects: seq<EffectRecord>, rate: nat, lo: int, hi: int,
                           ws: seq<Window>, render: (seq<EffectRecord>, seq<real>) -> Option<seq<real>>,
                           channel: seq<real>, k: nat, j: nat)
    requires ws == Windows(effects, rate, lo, hi)
    requires RenderAll(original, ws, render).Some?
    requires forall m :: 0 <= m < |ws| ==> |RenderWindow(original, ws[m], render).value| == rate
    requires k < |ws| && j < rate && 0 <= ws[k].offset + j < |channel|
    ensures ApplyPatches(channel, RenderAll(original, ws, render).value)[ws[k].offset + j]
      == RenderWindow(original, ws[k], render).value[j]
  {
    WindowsSpanOneSecond(effects, rate, lo, hi);
    WindowsAscending(effects, rate, lo, hi);
    RenderedLands(original, ws, rate, render, channel, k, j);
  }

  lemma OutsideWindowsUntouched(original: seq<real>, ws: seq<Window>, rate: nat,
                                render: (seq<EffectRecord>, seq<real>) -> Option<seq<real>>,
                                channel: seq<real>, x: int)
    requires RenderAll(original, ws, render).Some?
    requires forall m :: 0 <= m < |ws| ==> |RenderWindow(original, ws[m], render).value| == rate
    requires 0 <= x < |channel|
    requires forall m :: 0 <= m < |ws| ==> !(ws[m].offset <= x < ws[m].offset + rate)
    ensures ApplyPatches(channel, RenderAll(original, ws, render).value)[x] == channel[x]
  {
    UncoveredUnchanged(channel, RenderAll(original, ws, render).value, x);
  }

  /**
   * With no registered effect the interval is `[0, 0]`, no window is planned, and the buffer
   * context still receives one (empty) list of changes, which leaves the channel as it was.
   */
  lemma EmptyRegistryPlan(original: seq<real>, rate: nat, render: (seq<EffectRecord>, seq<real>) -> Option<seq<real>>,
                          active: seq<real>)
    requires rate > 0
    ensures Interval([]) == (0, 0) && Plan([], rate) == []
    ensures !PlanThrows(original, Plan([], rate))
    ensures Applied(original, Plan([], rate), render) == Some([])
    ensures AfterApply(active, Applied(original, Plan([], rate), render)) == active
  {
    var none: seq<Patch> := [];
    assert RenderAll(original, [], render).value == none;
  }

  /** `add`'s loop over a descriptor's properties: each name maps to its default (the last one wins). */
  method DefaultProperties(props: seq<EffectsData.Property>) returns (m: map<string, real>)
    ensures m.Keys == set k | 0 <= k < |props| :: props[k].name
    ensures forall k :: 0 <= k < |props| && (forall j :: k < j < |props| ==> props[j].name != props[k].name) ==>
              m[props[k].name] == props[k].defaultValue
  {
    m := map[];
    for k := 0 to |props|
      invariant m.Keys == set i | 0 <= i < k :: props[i].name
      invariant forall i :: 0 <= i < k && (forall j :: i < j < k ==> props[j].name != props[i].name) ==>
                  m[props[i].name] == props[i].defaultValue
    {
      m := m[props[k].name := props[k].defaultValue];
    }
  }

  // ---------------------------------------------------------------------------------------------
  // The store

  class EffectsStore {
    var effects: seq<EffectRecord>
    var totalLoadedFiles: nat
    const audioCtx: AudioBufferContext

    ghost predicate Valid()
      reads this, audioCtx
    {
      && audioCtx.Valid()
      && forall e :: e in effects ==> SecondsMatch(e.seconds, e.indexStart, e.indexEnd, audioCtx.sampleRate)
    }

    constructor (audioCtx: AudioBufferContext)
      requires audioCtx.Valid()
      ensures Valid()
      ensures effects == [] && totalLoadedFiles == 0 && this.audioCtx == audioCtx
    {
      effects := [];
      totalLoadedFiles := 0;
      this.audioCtx := audioCtx;
    }

    /** The handler registered on the buffer-changed event: purge only when the file count moved. */
    method OnBufferChanged()
      requires Valid()
      modifies this
      ensures Valid()
      ensures old(totalLoadedFiles) != audioCtx.fileCount ==> effects == []
      ensures old(totalLoadedFiles) == audioCtx.fileCount ==> effects == old(effects)
      ensures totalLoadedFiles == audioCtx.fileCount
    {
      if totalLoadedFiles != audioCtx.fileCount {
        Sync();
      }
      totalLoadedFiles := audioCtx.fileCount;
    }

    /** `add(type, start, end)`: an unknown type throws before anything is pushed. */
    method Add(effectType: string, start: int, end: int) returns (r: Result<bool, AddError>)
      requires Valid()
      modifies this
      ensures Valid() && totalLoadedFiles == old(totalLoadedFiles)
      ensures effectType !in EffectsData.List ==> r == Failure(UnknownEffectType(effectType)) && effects == old(effects)
      ensures effectType in EffectsData.List ==>
        && r == Success(true)
        && |effects| == |old(effects)| + 1 && effects[..|old(effects)|] == old(effects)
        && var e := effects[|effects| - 1];
           var props := EffectsData.List[effectType].properties;
           && fresh(e) && e.effect == effectType && e.indexStart == start && e.indexEnd == end
           && SecondsMatch(e.seconds, start, end, audioCtx.sampleRate)
           && e.properties.Keys == (set k | 0 <= k < |props| :: props[k].name)
           && forall k :: 0 <= k < |props| ==> e.properties[props[k].name] == props[k].defaultValue
    {
      if effectType !in EffectsData.List {
        return Failure(UnknownEffectType(effectType));
      }
      var props := EffectsData.List[effectType].properties;
      EffectsData.CatalogSound(effectType);
      var properties := DefaultProperties(props);
      var seconds := CalculateSeconds(start, end);
      var e := new EffectRecord(effectType, properties, start, end, seconds);
      effects := effects + [e];
      r := Success(true);
    }

    /** `apply()`: render the whole interval of the registered effects; `createBuffer`'s throw escapes. */
    method Apply(render: (seq<EffectRecord>, seq<real>) -> Option<seq<real>>) returns (r: Result<(), ApplyError>)
      requires Valid()
      modifies audioCtx
      ensures Valid()
      ensures var ws := Plan(effects, audioCtx.sampleRate);
        var outcome := Applied(audioCtx.original, ws, render);
        && (r.Failure? <==> PlanThrows(audioCtx.original, ws))
        && audioCtx.active == AfterApply(old(audioCtx.active), outcome)
        && audioCtx.changeEvents == old(audioCtx.changeEvents) + (if outcome.Some? then 1 else 0)
      ensures audioCtx.original == old(audioCtx.original) && audioCtx.fileCount == old(audioCtx.fileCount)
    {
      var start, end := GetSecondsInterval();
      r := ApplyEffectPerSecond(start, end, render);
    }

    /** `remove(effect, false)`: the splice alone. */
    method Discard(effect: EffectRecord)
      requires Valid()
      modifies this
      ensures Valid() && totalLoadedFiles == old(totalLoadedFiles)
      ensures effects == Splice(old(effects), IndexOf(old(effects), effect))
    {
      var before := effects;
      effects := Splice(effects, IndexOf(effects, effect));
      if before != [] {
        SpliceMultiset(before, IndexOf(before, effect));
      }
    }

    /**
     * `remove(effect, changeBuffer)`: splice, then re-render what is left or revert when nothing
     * is. `true` is returned unless the re-render throws, in which case the splice has happened.
     */
    method Remove(effect: EffectRecord, changeBuffer: bool,
                  render: (seq<EffectRecord>, seq<real>) -> Option<seq<real>>) returns (r: Result<bool, ApplyError>)
      requires Valid()
      modifies this, audioCtx
      ensures Valid() && totalLoadedFiles == old(totalLoadedFiles)
      ensures effects == Splice(old(effects), IndexOf(old(effects), effect))
      ensures r.Success? ==> r.value
      ensures changeBuffer && effects != [] ==>
        var ws := Plan(effects, audioCtx.sampleRate);
        var outcome := Applied(audioCtx.original, ws, render);
        && (r.Failure? <==> PlanThrows(audioCtx.original, ws))
        && audioCtx.active == AfterApply(old(audioCtx.active), outcome)
        && audioCtx.changeEvents == old(audioCtx.changeEvents) + (if outcome.Some? then 1 else 0)
      ensures changeBuffer && effects == [] ==>
        r.Success? && audioCtx.active == audioCtx.original && audioCtx.changeEvents == old(audioCtx.changeEvents) + 1
      ensures !changeBuffer ==>
        r.Success? && audioCtx.active == old(audioCtx.active) && audioCtx.changeEvents == old(audioCtx.changeEvents)
      ensures audioCtx.original == old(audioCtx.original) && audioCtx.fileCount == old(audioCtx.fileCount)
    {
      Discard(effect);
      if changeBuffer && |effects| > 0 {
        var applied := Apply(render);
        if applied.Failure? {
          return Failure(applied.error);
        }
      }
      if changeBuffer && |effects| == 0 {
        audioCtx.RevertBufferChanges();
      }
      r := Success(true);
    }

    /** `sync()`: remove every record from the back without touching the buffer. */
    method Sync()
      requires Valid()
      modifies this
      ensures Valid() && effects == [] && totalLoadedFiles == old(totalLoadedFiles)
    {
      var i := |effects|;
      while i != 0
        invariant Valid() && |effects| == i && totalLoadedFiles == old(totalLoadedFiles)
      {
        i := i - 1;
        var effect := effects[i];
        Discard(effect);
      }
    }

    /** `calculateSeconds(start, end)`: step by one second from `start/rate` while below `end/rate`. */
    method CalculateSeconds(startIndex: int, endIndex: int) returns (seconds: seq<real>)
      requires audioCtx.sampleRate > 0
      ensures SecondsMatch(seconds, startIndex, endIndex, audioCtx.sampleRate)
    {
      var start := Ratio(startIndex, audioCtx.sampleRate);
      var bound := Ratio(endIndex, audioCtx.sampleRate);
      seconds := [];
      var i := start;
      while i < bound
        invariant i == start + |seconds| as real
        invariant forall k :: 0 <= k < |seconds| ==> seconds[k] == start + k as real && seconds[k] < bound
        decreases (bound - i).Floor
      {
        seconds := seconds + [i];
        i := i + 1.0;
      }
    }

    /** `getSecondsInterval()`: a running minimum of the starts and maximum of the ends. */
    method GetSecondsInterval() returns (start: int, end: int)
      ensures (start, end) == Interval(effects)
    {
      if |effects| == 0 {
        return 0, 0;
      }
      start := effects[0].indexStart;
      end := effects[0].indexEnd;
      for k := 0 to |effects|
        invariant k == 0 ==> start == effects[0].indexStart && end == effects[0].indexEnd
        invariant k > 0 ==> start == MinStart(effects[..k]) && end == MaxEnd(effects[..k])
      {
        assert effects[..k + 1][..k] == effects[..k];
        if effects[k].indexStart < start {
          start := effects[k].indexStart;
        }
        if effects[k].indexEnd > end {
          end := effects[k].indexEnd;
        }
      }
      assert effects[..|effects|] == effects;
    }

    /** `effectsForSecond(second)`: the loop that collects the chain of one window. */
    method EffectsForSecond(second: int) returns (list: seq<EffectRecord>)
      ensures list == ActiveAt(effects, second)
    {
      list := [];
      for k := 0 to |effects|
        invariant list == ActiveAt(effects[..k], second)
      {
        assert effects[..k + 1][..k] == effects[..k];
        if second as real in effects[k].seconds {
          list := list + [effects[k]];
        }
      }
      assert effects[..|effects|] == effects;
    }

    /**
     * One pass of the planning loop for second `i`: no window when its chain is empty
     * (`continue`), the error `createBuffer` throws when its input is empty, else its window.
     */
    method PlanSecond(i: int) returns (r: Result<Option<Window>, ApplyError>)
      ensures var w := WindowFor(effects, audioCtx.sampleRate, i);
        && (w.effects == [] ==> r == Success(None))
        && (w.effects != [] && EmptyInput(audioCtx.original, w) ==> r == Failure(CreateBufferNotSupported))
        && (w.effects != [] && !EmptyInput(audioCtx.original, w) ==> r == Success(Some(w)))
    {
      var rate := audioCtx.sampleRate;
      var effectsList := EffectsForSecond(i);
      if effectsList == [] {
        return Success(None);
      }
      var second := Window(rate * i, rate * i, rate * (i + 1), effectsList);
      var inputBuffer := audioCtx.ExtractBufferAt(second.inputStart, second.inputEnd);
      if |inputBuffer| == 0 {
        return Failure(CreateBufferNotSupported);
      }
      return Success(Some(second));
    }

    /**
     * The planning loop of `applyEffectPerSecond`: one window per second with a non-empty chain,
     * stopping with the error `createBuffer` throws at the first window whose input is empty.
     */
    method PlanWindows(lo: int, hi: int) returns (r: Result<seq<Window>, ApplyError>)
      ensures var ws := Windows(effects, audioCtx.sampleRate, lo, hi);
        && (r.Failure? <==> PlanThrows(audioCtx.original, ws))
        && (r.Success? ==> r.value == ws)
    {
      var rate := audioCtx.sampleRate;
      var seconds := [];
      var i := lo;
      while i < hi
        invariant lo <= i && (i <= hi || i == lo)
        invariant seconds == Windows(effects, rate, lo, i)
        invariant !PlanThrows(audioCtx.original, seconds)
        decreases hi - i
      {
        var planned := PlanSecond(i);
        if planned.Failure? {
          EmptyWindowThrows(audioCtx.original, effects, rate, lo, i, hi);
          return Failure(planned.error);
        }
        if planned.value.Some? {
          seconds := seconds + [planned.value.value];
        }
        PlanStep(audioCtx.original, effects, rate, lo, i, seconds);
        i := i + 1;
      }
      PlanDone(audioCtx.original, effects, rate, lo, i, hi, seconds);
      return Success(seconds);
    }

    /** The promise chain: render the windows one after the other, stopping at the first failure. */
    method RenderWindows(seconds: seq<Window>, render: (seq<EffectRecord>, seq<real>) -> Option<seq<real>>)
      returns (outcome: Option<seq<Patch>>)
      ensures outcome == RenderAll(audioCtx.original, seconds, render)
    {
      var patches: seq<Patch> := [];
      var k := 0;
      while k < |seconds|
        invariant 0 <= k <= |seconds| && |patches| == k
        invariant forall m :: 0 <= m < k ==> RenderWindow(audioCtx.original, seconds[m], render).Some?
        invariant forall m :: 0 <= m < k ==>
                    patches[m] == Patch(seconds[m].offset, RenderWindow(audioCtx.original, seconds[m], render).value)
      {
        var rendered := render(seconds[k].effects, audioCtx.ExtractBufferAt(seconds[k].inputStart, seconds[k].inputEnd));
        if rendered.None? {
          return None;
        }
        patches := patches + [Patch(seconds[k].offset, rendered.value)];
        k := k + 1;
      }
      var all := RenderAll(audioCtx.original, seconds, render);
      assert all.Some? && |all.value| == |patches|;
      assert forall m :: 0 <= m < |patches| ==> all.value[m] == patches[m];
      assert all.value == patches;
      return Some(patches);
    }

    /**
     * `applyEffectPerSecond(start, end)`: plan the windows of the whole seconds covering the
     * range, render them one after the other, and hand the results to `applyBufferChanges`.
     * A window with empty input makes the planning loop throw before anything is handed over.
     */
    method ApplyEffectPerSecond(start: int, end: int, render: (seq<EffectRecord>, seq<real>) -> Option<seq<real>>)
      returns (r: Result<(), ApplyError>)
      requires Valid()
      modifies audioCtx
      ensures Valid()
      ensures var rate := audioCtx.sampleRate;
        var ws := Windows(effects, rate, FloorDiv(start, rate), CeilDiv(end, rate));
        var outcome := Applied(audioCtx.original, ws, render);
        && (r.Failure? <==> PlanThrows(audioCtx.original, ws))
        && audioCtx.active == AfterApply(old(audioCtx.active), outcome)
        && audioCtx.changeEvents == old(audioCtx.changeEvents) + (if outcome.Some? then 1 else 0)
      ensures audioCtx.original == old(audioCtx.original) && audioCtx.fileCount == old(audioCtx.fileCount)
    {
      var rate := audioCtx.sampleRate;
      var planned := PlanWindows(FloorDiv(start, rate), CeilDiv(end, rate));
      if planned.Failure? {
        return Failure(planned.error);
      }
      var outcome := RenderWindows(planned.value, render);
      if outcome.Some? {
        audioCtx.ApplyBufferChanges(outcome.value);
      }
      r := Success(());
    }
  }
}
