/** The program clock of the planetarium: the time shown runs from an initial instant at a
    chosen speed (a signed index into a table of increments, in seconds of program time per
    second of wall-clock time), can be stepped forwards and backwards by the selected
    increment, and is rebased whenever the speed changes so that it does not jump.

    The two builds of the program differ only in their increment tables, so the class is
    parameterised by the table. Wall-clock readings (`new Date()`) are parameters, in
    milliseconds. */
module ProgramClock {
  import opened Js

  const NTimeIncrements := 10

  /** The labels of the increments. */
  const TimeIncrementTexts: seq<string> :=
    ["stop", "1s", "1m", "10m", "1h", "1sidDay", "1Day", "1mth", "1sidYr", "1Yr"]

  /** The increments of the module build, in seconds. */
  const ModuleBuildIncrements: seq<real> :=
    [0.0, 1.0, 60.0, 600.0, 3600.0, 86164.1, 3600.0 * 24.0, 3600.0 * 24.0 * 30.0, 31558149.504,
     3600.0 * 24.0 * 365.0]

  /** The increments of the global-namespace build, in seconds: the sidereal entries are
      computed as solar ones scaled by 365.25/366.25. */
  const GlobalBuildIncrements: seq<real> :=
    [0.0, 1.0, 60.0, 600.0, 3600.0, 3600.0 * 24.0 * 365.25 / 366.25, 3600.0 * 24.0,
     3600.0 * 24.0 * 30.0, 3600.0 * 24.0 * 30.0 * 365.25 / 366.25, 3600.0 * 24.0 * 365.0]

  /** `speedFactor` for a speed index: the increment for a non-negative index and its
      negation for a negative one. */
  function SpeedFactor(increments: seq<real>, speed: int): real
    requires |increments| == NTimeIncrements && -NTimeIncrements < speed < NTimeIncrements
  {
    if speed >= 0 then increments[speed] else -increments[-speed]
  }

  /** Speed 0 stops the clock, and index `-s` runs it backwards exactly as fast as `s` runs
      it forwards. */
  lemma SpeedFactorSigned(increments: seq<real>, speed: int)
    requires |increments| == NTimeIncrements && increments[0] == 0.0
    requires -NTimeIncrements < speed < NTimeIncrements
    ensures SpeedFactor(increments, 0) == 0.0
    ensures SpeedFactor(increments, -speed) == -SpeedFactor(increments, speed)
  {
  }

  /** The elapsed wall-clock time counted in whole seconds: `elapsed - elapsed % 1000`, which
      drops the milliseconds toward zero. */
  function WholeSeconds(elapsed: int): (r: real)
    ensures IsWhole(r / 1000.0)
    ensures elapsed >= 0 ==> 0.0 <= elapsed as real - r < 1000.0
    ensures elapsed < 0 ==> -1000.0 < elapsed as real - r <= 0.0
  {
    RemDropped(elapsed as real);
    elapsed as real - Rem(elapsed as real, 1000.0)
  }

  /** What `e % 1000` removes from `e`: a remainder of the same sign, smaller than a second,
      leaving a whole number of seconds. */
  lemma RemDropped(e: real)
    ensures IsWhole((e - Rem(e, 1000.0)) / 1000.0)
    ensures e >= 0.0 ==> 0.0 <= Rem(e, 1000.0) < 1000.0
    ensures e < 0.0 ==> -1000.0 < Rem(e, 1000.0) <= 0.0
  {
    RemCongruent(e, 1000.0);
    var q := (Rem(e, 1000.0) - e) / 1000.0;
    assert (e - Rem(e, 1000.0)) / 1000.0 == -q;
    assert (-q).Floor == -(q.Floor);
    if e >= 0.0 {
      RemNonNegative(e, 1000.0);
    } else {
      RemNegative(e, 1000.0);
    }
  }

  /** The program time at wall-clock instant `now`: the initial time plus the speed factor
      times the whole seconds elapsed since `start`, as a `Date` (truncated to whole ms). */
  function ProgramTimeAt(increments: seq<real>, speed: int, initial: int, start: int, now: int): int
    requires |increments| == NTimeIncrements && -NTimeIncrements < speed < NTimeIncrements
  {
    Advance(initial, SpeedFactor(increments, speed), WholeSeconds(now - start))
  }

  /** `new Date(initial + factor * counted)`. */
  function Advance(initial: int, factor: real, counted: real): int
  {
    DateFromMs(initial as real + factor * counted)
  }

  /** Within the first second after a rebase the program time is the initial time. */
  lemma ProgramTimeAtStart(increments: seq<real>, speed: int, initial: int, start: int, now: int)
    requires |increments| == NTimeIncrements && -NTimeIncrements < speed < NTimeIncrements
    requires start <= now < start + 1000
    ensures ProgramTimeAt(increments, speed, initial, start, now) == initial
  {
    var w := WholeSeconds(now - start);
    assert w / 1000.0 == (w / 1000.0).Floor as real;
    assert w == 0.0;
    DateFromWholeMs(initial as real);
  }

  /** The increment index after `fasterIncrement`: one more, wrapping from the last entry
      back to 1 (the stop entry 0 is skipped). */
  function NextIncrement(i: int): int
  {
    if i + 1 == NTimeIncrements then 1 else i + 1
  }

  /** The index after `k` presses of `fasterIncrement`. */
  function Faster(i: int, k: nat): int
  {
    if k == 0 then i else NextIncrement(Faster(i, k - 1))
  }

  /** From any index in 1..9, presses cycle through 1..9: after `k` presses the index is
      `(i - 1 + k) % 9 + 1`, so it never leaves 1..9 and comes back after nine presses. */
  lemma {:induction false} FasterCycles(i: int, k: nat)
    requires 1 <= i < NTimeIncrements
    ensures Faster(i, k) == (i - 1 + k) % 9 + 1
    ensures 1 <= Faster(i, k) < NTimeIncrements
    ensures k == 9 ==> Faster(i, k) == i
  {
    if k > 0 {
      FasterCycles(i, k - 1);
    }
  }

  /** Stepping `t` forwards by `x` seconds: `new Date(t + x * 1000)`. */
  function StepForward(t: int, x: real): int
  {
    DateFromMs(t as real + x * 1000.0)
  }

  /** Stepping `t` backwards by `x` seconds: `new Date(t - x * 1000)`. */
  function StepBackward(t: int, x: real): int
  {
    DateFromMs(t as real - x * 1000.0)
  }

  /** An increment that is a whole number of milliseconds steps forwards and back exactly. */
  lemma WholeStepRestores(t: int, x: real)
    requires IsWhole(x * 1000.0)
    ensures StepForward(t, x) == t + (x * 1000.0).Floor
    ensures StepBackward(StepForward(t, x), x) == t
  {
    var n := (x * 1000.0).Floor;
    assert t as real + x * 1000.0 == (t + n) as real;
    DateFromWholeMs((t + n) as real);
    assert StepForward(t, x) == t + n;
    assert (t + n) as real - x * 1000.0 == t as real;
    DateFromWholeMs(t as real);
  }

  /** Every increment of the module build is a whole number of milliseconds, so stepping
      forwards and then backwards at any index restores the initial time. */
  lemma ModuleBuildStepsRestore(t: int, i: int)
    requires 0 <= i < NTimeIncrements
    ensures StepBackward(StepForward(t, ModuleBuildIncrements[i]), ModuleBuildIncrements[i]) == t
  {
    var x := ModuleBuildIncrements[i];
    var n: int;
    if i == 0 { n := 0; }
    else if i == 1 { n := 1000; }
    else if i == 2 { n := 60000; }
    else if i == 3 { n := 600000; }
    else if i == 4 { n := 3600000; }
    else if i == 5 { n := 86164100; }
    else if i == 6 { n := 86400000; }
    else if i == 7 { n := 2592000000; }
    else if i == 8 { n := 31558149504; }
    else { n := 31536000000; }
    assert x * 1000.0 == n as real;
    WholeStepRestores(t, x);
  }

  /** In the global-namespace build the sidereal-day increment is not a whole number of
      milliseconds, so a step forwards and back loses a millisecond. */
  lemma GlobalBuildStepLosesMs()
    ensures StepBackward(StepForward(1000, GlobalBuildIncrements[5]), GlobalBuildIncrements[5]) == 999
  {
    var x := GlobalBuildIncrements[5];
    assert x * 1000.0 == 25246080000.0 / 293.0;
    assert 86165095.0 <= 1000.0 + x * 1000.0 < 86165096.0;
    assert StepForward(1000, x) == 86165095;
    assert 999.0 <= 86165095.0 - x * 1000.0 < 1000.0;
  }

  /** The module build's "1sidYr" is a sidereal year: between 365 and 366 solar days and
      366.25 to 366.26 sidereal days, longer than a month. */
  lemma ModuleBuildSiderealYear()
    ensures 365.0 * 86400.0 < ModuleBuildIncrements[8] < 366.0 * 86400.0
    ensures 366.25 * ModuleBuildIncrements[5] < ModuleBuildIncrements[8] < 366.26 * ModuleBuildIncrements[5]
    ensures ModuleBuildIncrements[7] < ModuleBuildIncrements[8]
  {
  }

  /** The global-namespace build's "1sidYr" is thirty sidereal days, shorter than its "1mth". */
  lemma GlobalBuildSiderealYearIsAMonth()
    ensures GlobalBuildIncrements[8] == 30.0 * GlobalBuildIncrements[5]
    ensures GlobalBuildIncrements[8] < GlobalBuildIncrements[7]
  {
  }

  /** The clock of one build. */
  class ProgramTime {
    const timeIncrements: seq<real>
    var timeIncrementIndex: int
    var currentSpeedIndex: int
    var programStartTime: int
    var initialProgramTime: int
    var currentProgramTime: int

    /** The increment index stays in 1..9 and the speed index in -9..9. */
    ghost predicate Valid()
      reads this
    {
      |timeIncrements| == NTimeIncrements
      && 1 <= timeIncrementIndex < NTimeIncrements
      && -NTimeIncrements < currentSpeedIndex < NTimeIncrements
    }

    /** The clock starts at `startDate` (or at `now` without one) shifted by the offsets,
        with increment index 3 ("10m"). */
    constructor (increments: seq<real>, startDate: Option<int>, daysOffset: real, hoursOffset: real,
                 speedIndex: int, now: int)
      requires |increments| == NTimeIncrements && -NTimeIncrements < speedIndex < NTimeIncrements
      ensures Valid()
      ensures timeIncrements == increments && timeIncrementIndex == 3 && currentSpeedIndex == speedIndex
      ensures programStartTime == now
      ensures initialProgramTime == DateFromMs((if startDate.Some? then startDate.value else now) as real
                                               + 1000.0 * 3600.0 * (daysOffset * 24.0 + hoursOffset))
      ensures currentProgramTime == initialProgramTime
    {
      timeIncrements := increments;
      timeIncrementIndex := 3;
      currentSpeedIndex := speedIndex;
      programStartTime := now;
      var start := if startDate.Some? then startDate.value else now;
      initialProgramTime := DateFromMs(start as real + 1000.0 * 3600.0 * (daysOffset * 24.0 + hoursOffset));
      currentProgramTime := initialProgramTime;
    }

    /** `speedFactor`. */
    function CurrentSpeedFactor(): real
      reads this
      requires Valid()
    {
      SpeedFactor(timeIncrements, currentSpeedIndex)
    }

    /** `timeIncrement`. */
    function TimeIncrement(): real
      reads this
      requires Valid()
    {
      timeIncrements[timeIncrementIndex]
    }

    /** `timeIncrementText`. */
    function TimeIncrementText(): string
      reads this
      requires Valid()
    {
      TimeIncrementTexts[timeIncrementIndex]
    }

    /** `setProgramTime`: the program time at wall-clock instant `now`. */
    method SetProgramTime(now: int) returns (t: int)
      requires Valid()
      modifies this
      ensures Valid()
      ensures currentProgramTime == t
              == ProgramTimeAt(timeIncrements, currentSpeedIndex, initialProgramTime, programStartTime, now)
      ensures timeIncrementIndex == old(timeIncrementIndex) && currentSpeedIndex == old(currentSpeedIndex)
      ensures programStartTime == old(programStartTime) && initialProgramTime == old(initialProgramTime)
    {
      var elapsed := now - programStartTime;
      var counted := WholeSeconds(elapsed);
      currentProgramTime := Advance(initialProgramTime, CurrentSpeedFactor(), counted);
      t := currentProgramTime;
    }

    /** `setSpeed(s)`, reading the wall clock at `t1` (first `setProgramTime`), `t2` (the new
        start) and `t3` (second `setProgramTime`). The same speed changes nothing; another
        speed rebases the clock at the program time reached at `t1`. */
    method SetSpeed(s: int, t1: int, t2: int, t3: int)
      requires Valid() && -NTimeIncrements < s < NTimeIncrements
      modifies this
      ensures Valid()
      ensures s == old(currentSpeedIndex) ==>
                currentSpeedIndex == old(currentSpeedIndex) && programStartTime == old(programStartTime)
                && initialProgramTime == old(initialProgramTime) && currentProgramTime == old(currentProgramTime)
      ensures s != old(currentSpeedIndex) ==>
                currentSpeedIndex == s && programStartTime == t2
                && initialProgramTime == ProgramTimeAt(timeIncrements, old(currentSpeedIndex), old(initialProgramTime),
                                                       old(programStartTime), t1)
                && currentProgramTime == ProgramTimeAt(timeIncrements, s, initialProgramTime, t2, t3)
      ensures timeIncrementIndex == old(timeIncrementIndex)
    {
      if currentSpeedIndex == s {
        return;
      }
      var _ := SetProgramTime(t1);
      currentSpeedIndex := s;
      programStartTime := t2;
      initialProgramTime := currentProgramTime;
      var _ := SetProgramTime(t3);
    }

    /** `setSpeedFromIncrement`: run at the selected increment. */
    method SetSpeedFromIncrement(t1: int, t2: int, t3: int)
      requires Valid()
      modifies this
      ensures Valid()
      ensures currentSpeedIndex == timeIncrementIndex == old(timeIncrementIndex)
      ensures old(timeIncrementIndex) == old(currentSpeedIndex) ==>
                programStartTime == old(programStartTime)
                && initialProgramTime == old(initialProgramTime) && currentProgramTime == old(currentProgramTime)
      ensures old(timeIncrementIndex) != old(currentSpeedIndex) ==>
                programStartTime == t2
                && initialProgramTime == ProgramTimeAt(timeIncrements, old(currentSpeedIndex), old(initialProgramTime),
                                                       old(programStartTime), t1)
                && currentProgramTime == ProgramTimeAt(timeIncrements, timeIncrementIndex, initialProgramTime, t2, t3)
    {
      SetSpeed(timeIncrementIndex, t1, t2, t3);
    }

    /** `stopSpeed`. */
    method StopSpeed(t1: int, t2: int, t3: int)
      requires Valid()
      modifies this
      ensures Valid()
      ensures currentSpeedIndex == 0
      ensures old(currentSpeedIndex) == 0 ==>
                programStartTime == old(programStartTime)
                && initialProgramTime == old(initialProgramTime) && currentProgramTime == old(currentProgramTime)
      ensures old(currentSpeedIndex) != 0 ==>
                programStartTime == t2
                && initialProgramTime == ProgramTimeAt(timeIncrements, old(currentSpeedIndex), old(initialProgramTime),
                                                       old(programStartTime), t1)
                && currentProgramTime == ProgramTimeAt(timeIncrements, 0, initialProgramTime, t2, t3)
      ensures timeIncrementIndex == old(timeIncrementIndex)
    {
      SetSpeed(0, t1, t2, t3);
    }

    /** `setTimeIncrement(n)`: only 1..9 select an increment; anything else is ignored. */
    method SetTimeIncrement(n: int)
      requires Valid()
      modifies this
      ensures Valid()
      ensures 1 <= n < NTimeIncrements ==> timeIncrementIndex == n
      ensures !(1 <= n < NTimeIncrements) ==> timeIncrementIndex == old(timeIncrementIndex)
      ensures currentSpeedIndex == old(currentSpeedIndex) && programStartTime == old(programStartTime)
      ensures initialProgramTime == old(initialProgramTime) && currentProgramTime == old(currentProgramTime)
    {
      if n > NTimeIncrements - 1 {
      } else if n <= 0 {
      } else {
        timeIncrementIndex := n;
      }
    }

    /** `applyTimeIncrementForward`: the initial time moves one increment later. */
    method ApplyTimeIncrementForward()
      requires Valid()
      modifies this
      ensures Valid()
      ensures initialProgramTime == StepForward(old(initialProgramTime), old(TimeIncrement()))
      ensures timeIncrementIndex == old(timeIncrementIndex) && currentSpeedIndex == old(currentSpeedIndex)
      ensures programStartTime == old(programStartTime) && currentProgramTime == old(currentProgramTime)
    {
      initialProgramTime := DateFromMs(initialProgramTime as real + TimeIncrement() * 1000.0);
    }

    /** `applyTimeIncrementBackward`: the initial time moves one increment earlier. */
    method ApplyTimeIncrementBackward()
      requires Valid()
      modifies this
      ensures Valid()
      ensures initialProgramTime == StepBackward(old(initialProgramTime), old(TimeIncrement()))
      ensures timeIncrementIndex == old(timeIncrementIndex) && currentSpeedIndex == old(currentSpeedIndex)
      ensures programStartTime == old(programStartTime) && currentProgramTime == old(currentProgramTime)
    {
      initialProgramTime := DateFromMs(initialProgramTime as real - TimeIncrement() * 1000.0);
    }

    /** `fasterIncrement`. */
    method FasterIncrement()
      requires Valid()
      modifies this
      ensures Valid()
      ensures timeIncrementIndex == NextIncrement(old(timeIncrementIndex))
      ensures currentSpeedIndex == old(currentSpeedIndex) && programStartTime == old(programStartTime)
      ensures initialProgramTime == old(initialProgramTime) && currentProgramTime == old(currentProgramTime)
    {
      timeIncrementIndex := timeIncrementIndex + 1;
      if timeIncrementIndex == NTimeIncrements {
        timeIncrementIndex := 1;
      }
    }
  }
}
