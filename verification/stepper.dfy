/**
 * The position steppers of utils/stepper.ts: closures that keep a cursor
 * `prev` and turn absolute encoder positions into whole-unit steps, carrying
 * the fractional remainder over to the next position.
 *
 * Positions are real numbers; IEEE-754 rounding is not modelled.
 */
module Stepper {

  const TWO_31: int := 0x8000_0000
  const TWO_32: int := 0x1_0000_0000

  // ---------------------------------------------------------------------
  // Integer conversions of JavaScript
  // ---------------------------------------------------------------------

  /** Math.floor: the greatest integer not above `x`. */
  function Floor(x: real): (n: int)
    ensures n as real <= x < n as real + 1.0
  {
    x.Floor
  }

  /** Truncation toward zero, the integer part taken by ToInt32. */
  function Trunc(x: real): (n: int)
    ensures x >= 0.0 ==> n == Floor(x)
    ensures x < 0.0 ==> n == -Floor(-x)
    ensures -1.0 < x - n as real < 1.0
    ensures 0.0 <= x ==> 0 <= n && n as real <= x
    ensures x < 0.0 ==> n <= 0 && x <= n as real
  {
    if x >= 0.0 then Floor(x)
    else
      var f := Floor(-x);
      assert f as real <= -x < f as real + 1.0;
      -f
  }

  /** The wrap-around of ToInt32: the value of `n` modulo 2^32, read as a signed 32-bit integer. */
  function WrapInt32(n: int): (r: int)
    ensures -TWO_31 <= r < TWO_31
    ensures (n - r) % TWO_32 == 0
    ensures -TWO_31 <= n < TWO_31 ==> r == n
  {
    var m := n % TWO_32;
    if m >= TWO_31 then m - TWO_32 else m
  }

  /** Math.imul(x, 1): ToInt32(x) * ToInt32(1), kept to 32 bits. */
  function Imul1(x: real): (n: int)
    ensures -TWO_31 <= n < TWO_31
  {
    WrapInt32(Trunc(x))
  }

  lemma Imul1Truncates(x: real)
    ensures -(TWO_31 as real) < x < TWO_31 as real ==> Imul1(x) == Trunc(x)
    ensures -(TWO_31 as real) < x < TWO_31 as real ==> -1.0 < x - Imul1(x) as real < 1.0
  {
    var t := Trunc(x);
    if -(TWO_31 as real) < x < TWO_31 as real {
      if x >= 0.0 {
        assert t as real <= x;
      } else {
        assert x <= t as real;
        assert Floor(-x) as real <= -x;
      }
    }
  }

  // ---------------------------------------------------------------------
  // makeStepper: Math.floor, one callback call carrying the step count
  // ---------------------------------------------------------------------

  /** The step count `makeStepper` derives for `position` when its cursor is `prev`. */
  function FloorStep(prev: real, position: real): (steps: int)
    ensures steps as real <= position - prev < steps as real + 1.0
  {
    Floor(position - prev)
  }

  /** The arguments of the calls to `fn` made for one step count: none when it is zero. */
  function Report(steps: int): (calls: seq<int>)
    ensures steps == 0 <==> calls == []
    ensures steps != 0 ==> calls == [steps]
  {
    if steps == 0 then [] else [steps]
  }

  /** Sum of a list of step counts. */
  function Sum(s: seq<int>): int
  {
    if s == [] then 0 else Sum(s[..|s| - 1]) + s[|s| - 1]
  }

  lemma SumAppend(s: seq<int>, t: seq<int>)
    ensures Sum(s + t) == Sum(s) + Sum(t)
    decreases |t|
  {
    if t == [] {
      assert s + t == s;
    } else {
      assert (s + t)[..|s + t| - 1] == s + t[..|t| - 1];
      SumAppend(s, t[..|t| - 1]);
    }
  }

  /** The calls to `fn` made when `positions` are fed one by one to a stepper whose cursor is `prev`. */
  function FloorRun(prev: real, positions: seq<real>): seq<int>
    decreases |positions|
  {
    if positions == [] then []
    else
      var steps := FloorStep(prev, positions[0]);
      Report(steps) + FloorRun(prev + steps as real, positions[1..])
  }

  /** The floor is the only integer within one below `x`. */
  lemma FloorUnique(x: real, n: int)
    requires n as real <= x < n as real + 1.0
    ensures Floor(x) == n
  {
  }

  /** Math.floor commutes with shifting by a whole number. */
  lemma FloorShift(x: real, k: int)
    ensures Floor(x - k as real) == Floor(x) - k
  {
    var f := Floor(x);
    assert (f - k) as real <= x - k as real < (f - k) as real + 1.0;
  }

  /** Moving the cursor forward by `steps` whole units lowers the floor of the remaining distance by `steps`. */
  lemma FloorAfterStep(last: real, prev: real, steps: int)
    ensures Floor(last - (prev + steps as real)) == Floor(last - prev) - steps
  {
    FloorShift(last - prev, steps);
    assert last - (prev + steps as real) == (last - prev) - steps as real;
  }

  /** The reported calls for one step count add up to that count. */
  lemma SumReport(steps: int)
    ensures Sum(Report(steps)) == steps
  {
    if steps != 0 {
      assert Report(steps)[..0] == [];
    }
  }

  /**
   * Chunk invariance: however the movement from `prev` to the last position
   * is cut into intermediate positions, the reported steps add up to
   * floor(last - prev).
   */
  lemma {:induction false} FloorRunTotal(prev: real, positions: seq<real>)
    requires positions != []
    ensures Sum(FloorRun(prev, positions)) == Floor(positions[|positions| - 1] - prev)
    decreases |positions|
  {
    var steps := FloorStep(prev, positions[0]);
    var next := prev + steps as real;
    var rest := positions[1..];
    var tail := FloorRun(next, rest);
    var last := positions[|positions| - 1];
    assert FloorRun(prev, positions) == Report(steps) + tail;
    SumAppend(Report(steps), tail);
    SumReport(steps);
    var total := steps + Sum(tail);
    assert Sum(FloorRun(prev, positions)) == total;
    if rest == [] {
      assert tail == [];
      assert last == positions[0];
      assert total == Floor(last - prev);
    } else {
      FloorRunTotal(next, rest);
      assert rest[|rest| - 1] == last;
      FloorAfterStep(last, prev, steps);
      assert Sum(tail) == Floor(last - prev) - steps;
    }
  }

  /** The example of a drifting encoder: 0.0 -> 1.6 -> 3.1 reports 1 step, then 2. */
  lemma FloorRunExample()
    ensures FloorRun(0.0, [1.6, 3.1]) == [1, 2]
  {
    assert FloorStep(0.0, 1.6) == 1;
    assert FloorStep(1.0, 3.1) == 2;
    assert [1.6, 3.1][1..] == [3.1];
    assert [3.1][1..] == [];
  }

  /** The closure returned by makeStepper(fn, initial); `reported` lists the arguments `fn` was called with. */
  class FloorStepper {
    const initial: real
    var prev: real
    var reported: seq<int>

    /** The cursor has advanced from `initial` by exactly the steps reported, none of which is zero. */
    ghost predicate Valid()
      reads this
    {
      && prev == initial + Sum(reported) as real
      && forall i :: 0 <= i < |reported| ==> reported[i] != 0
    }

    /** makeStepper(fn, initial). */
    constructor (initial: real)
      ensures Valid()
      ensures this.initial == initial && prev == initial && reported == []
    {
      this.initial := initial;
      prev := initial;
      reported := [];
    }

    /** makeStepper(fn) with the default initial position 0. */
    constructor FromZero()
      ensures Valid()
      ensures initial == 0.0 && prev == 0.0 && reported == []
    {
      initial := 0.0;
      prev := 0.0;
      reported := [];
    }

    /** One call of the closure with a new absolute `position`. */
    method Update(position: real)
      requires Valid()
      modifies this
      ensures Valid()
      ensures prev == old(prev) + FloorStep(old(prev), position) as real
      ensures reported == old(reported) + Report(FloorStep(old(prev), position))
      ensures 0.0 <= position - prev < 1.0
      ensures Sum(reported) == Floor(position - initial)
    {
      var delta := position - prev;
      var steps := Floor(delta);
      prev := position - (delta - steps as real);
      if steps != 0 {
        reported := reported + [steps];
      }
      assert reported == old(reported) + Report(steps);
      SumAppend(old(reported), Report(steps));
      SumReport(steps);
      assert prev == initial + Sum(reported) as real;
      FloorUnique(position - initial, Sum(reported));
    }
  }

  // ---------------------------------------------------------------------
  // makeStepperUpDown: truncation, one `up` or `down` call per unit step
  // ---------------------------------------------------------------------

  datatype Pulse = Up | Down

  /** `count` copies of one pulse. */
  function Repeat(p: Pulse, count: nat): (s: seq<Pulse>)
    ensures |s| == count
    ensures forall i :: 0 <= i < count ==> s[i] == p
  {
    if count == 0 then [] else Repeat(p, count - 1) + [p]
  }

  /** The step count `makeStepperUpDown` derives for `position` when its cursor is `prev`. */
  function UpDownStep(prev: real, position: real): (steps: int)
    ensures -TWO_31 <= steps < TWO_31
    ensures -(TWO_31 as real) < position - prev < TWO_31 as real ==>
              steps == Trunc(position - prev) && -1.0 < position - prev - steps as real < 1.0
  {
    Imul1Truncates(position - prev);
    Imul1(position - prev)
  }

  /** The calls made for one step count: `up` steps times, or `down` -steps times, never both. */
  function Pulses(steps: int): (calls: seq<Pulse>)
    ensures steps >= 0 ==> calls == Repeat(Up, steps)
    ensures steps < 0 ==> calls == Repeat(Down, -steps)
  {
    if steps > 0 then Repeat(Up, steps)
    else if steps < 0 then Repeat(Down, -steps)
    else []
  }

  /** Number of `up` calls minus number of `down` calls. */
  function Net(s: seq<Pulse>): int
  {
    if s == [] then 0
    else Net(s[..|s| - 1]) + (if s[|s| - 1] == Up then 1 else -1)
  }

  lemma {:induction false} NetPulses(s: seq<Pulse>, steps: int)
    ensures Net(s + Pulses(steps)) == Net(s) + steps
  {
    if steps > 0 {
      NetRepeat(s, Up, steps);
    } else if steps < 0 {
      NetRepeat(s, Down, -steps);
    } else {
      assert s + Pulses(steps) == s;
    }
  }

  lemma {:induction false} NetRepeat(s: seq<Pulse>, p: Pulse, count: nat)
    ensures Net(s + Repeat(p, count)) == Net(s) + (if p == Up then count as int else -(count as int))
  {
    if count == 0 {
      assert s + Repeat(p, count) == s;
    } else {
      var t := s + Repeat(p, count);
      assert t[..|t| - 1] == s + Repeat(p, count - 1);
      NetRepeat(s, p, count - 1);
    }
  }

  /** The calls made when `positions` are fed one by one to an up/down stepper whose cursor is `prev`. */
  function UpDownRun(prev: real, positions: seq<real>): seq<Pulse>
    decreases |positions|
  {
    if positions == [] then []
    else
      var steps := UpDownStep(prev, positions[0]);
      Pulses(steps) + UpDownRun(prev + steps as real, positions[1..])
  }

  /** All positions lie at or above `low` and below `low` + 2^31, in non-decreasing order. */
  ghost predicate RisingFrom(low: real, positions: seq<real>)
  {
    && (forall i :: 0 <= i < |positions| ==> low <= positions[i] < low + TWO_31 as real)
    && (forall i, j :: 0 <= i <= j < |positions| ==> positions[i] <= positions[j])
  }

  /** Every call in `s` is a call of `up`. */
  ghost predicate AllUp(s: seq<Pulse>)
  {
    forall i :: 0 <= i < |s| ==> s[i] == Up
  }

  /** On a rising run the first position moves the cursor forward by floor steps and the rest still rises from there. */
  lemma RisingFirstStep(prev: real, positions: seq<real>)
    requires positions != []
    requires RisingFrom(prev, positions)
    ensures UpDownStep(prev, positions[0]) == Floor(positions[0] - prev) >= 0
    ensures RisingFrom(prev + UpDownStep(prev, positions[0]) as real, positions[1..])
  {
    var steps := UpDownStep(prev, positions[0]);
    var next := prev + steps as real;
    var rest := positions[1..];
    assert steps == Floor(positions[0] - prev);
    assert next <= positions[0];
    forall i | 0 <= i < |rest|
      ensures next <= rest[i] < next + TWO_31 as real
    {
      assert positions[0] <= positions[i + 1];
    }
    forall i, j | 0 <= i <= j < |rest|
      ensures rest[i] <= rest[j]
    {
      assert positions[i + 1] <= positions[j + 1];
    }
  }

  /**
   * A knob turned one way only, never by 2^31 units or more, makes only
   * `up` calls, and as many as whole units lie between the cursor and the
   * last position.
   */
  lemma AllUpAppend(run: seq<Pulse>, a: seq<Pulse>, b: seq<Pulse>, n: int)
    requires run == a + b
    requires AllUp(a) && AllUp(b) && |b| == n - |a|
    ensures AllUp(run) && |run| == n
  {
    forall i | 0 <= i < |a + b|
      ensures (a + b)[i] == Up
    {
      if i >= |a| {
        assert (a + b)[i] == b[i - |a|];
      }
    }
  }

  /** One step of UpDownRun: the calls for the first position, then the run from the moved cursor. */
  lemma UpDownRunFirst(prev: real, positions: seq<real>)
    requires positions != []
    ensures var steps := UpDownStep(prev, positions[0]);
      UpDownRun(prev, positions) == Pulses(steps) + UpDownRun(prev + steps as real, positions[1..])
  {
  }

  lemma {:induction false} UpDownRunRising(prev: real, positions: seq<real>)
    requires positions != []
    requires RisingFrom(prev, positions)
    ensures AllUp(UpDownRun(prev, positions))
    ensures |UpDownRun(prev, positions)| == Floor(positions[|positions| - 1] - prev)
    decreases |positions|
  {
    RisingFirstStep(prev, positions);
    var steps := UpDownStep(prev, positions[0]);
    var next := prev + steps as real;
    var rest := positions[1..];
    var first := Pulses(steps);
    var tail := UpDownRun(next, rest);
    var last := positions[|positions| - 1];
    var total := Floor(last - prev);
    assert first == Repeat(Up, steps);
    assert |first| == steps && AllUp(first);
    UpDownRunFirst(prev, positions);
    if rest == [] {
      assert tail == [];
      assert last == positions[0];
      AllUpAppend(UpDownRun(prev, positions), first, tail, total);
    } else {
      assert rest[|rest| - 1] == last;
      UpDownRunRising(next, rest);
      FloorAfterStep(last, prev, steps);
      AllUpAppend(UpDownRun(prev, positions), first, tail, total);
    }
  }

  /** The closure returned by makeStepperUpDown(up, down, initial); `pulses` lists the `up`/`down` calls in order. */
  class UpDownStepper {
    const initial: real
    var prev: real
    var pulses: seq<Pulse>

    /** The cursor has advanced from `initial` by the net number of unit calls. */
    ghost predicate Valid()
      reads this
    {
      prev == initial + Net(pulses) as real
    }

    /** makeStepperUpDown(up, down, initial). */
    constructor (initial: real)
      ensures Valid()
      ensures this.initial == initial && prev == initial && pulses == []
    {
      this.initial := initial;
      prev := initial;
      pulses := [];
    }

    /** makeStepperUpDown(up, down) with the default initial position 0. */
    constructor FromZero()
      ensures Valid()
      ensures initial == 0.0 && prev == 0.0 && pulses == []
    {
      initial := 0.0;
      prev := 0.0;
      pulses := [];
    }

    /** One call of the closure with a new absolute `position`. */
    method Update(position: real)
      requires Valid()
      modifies this
      ensures Valid()
      ensures prev == old(prev) + UpDownStep(old(prev), position) as real
      ensures pulses == old(pulses) + Pulses(UpDownStep(old(prev), position))
      ensures -(TWO_31 as real) < position - old(prev) < TWO_31 as real ==> -1.0 < position - prev < 1.0
    {
      var delta := position - prev;
      var steps := Imul1(delta);
      prev := position - (delta - steps as real);
      NetPulses(pulses, steps);
      if steps != 0 {
        var fn := if steps > 0 then Up else Down;
        var count := if steps > 0 then steps else -steps;
        for i := 0 to count
          invariant prev == old(prev) + steps as real
          invariant pulses == old(pulses) + Repeat(fn, i)
        {
          pulses := pulses + [fn];
        }
        assert Pulses(steps) == Repeat(fn, count);
      } else {
        assert Pulses(steps) == [];
        assert pulses == old(pulses) + Pulses(steps);
      }
      assert steps == UpDownStep(old(prev), position);
    }
  }
}
