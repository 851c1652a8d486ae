/** The ladder `useGrids` builds: small rungs stepping down from the reference price,
    with a middle rung every third step and a big rung every sixth, until the gear
    drops below the floor set by the maximum expected decline. The configuration the
    hook reads from the application store is an explicit parameter here. */
module Ladder {
  import opened Fixed
  import opened Grids

  /** The store fields the ladder reads. */
  datatype Config = Config(
    price: real,
    amount: real,
    maxPercentOfDecline: real,
    increasePercentPerGrid: real,
    numberOfRetainedProfits: real,
    hasMiddleGrid: bool,
    hasBigGrid: bool)

  /** What the ladder needs to stay away from a division by zero: a positive price,
      and a decline below 100% so that every gear it reaches is positive. */
  predicate Valid(cfg: Config)
  {
    cfg.price > 0.0 && cfg.maxPercentOfDecline < 1.0
  }

  /** `maxGear`: the first gear, the reference price itself. */
  const MAX_GEAR: real := 1.0

  /** `minGear`: the lowest gear the loop still emits. It is positive exactly when
      the decline stays below 100%. */
  function MinGear(cfg: Config): (r: real)
    ensures r > 0.0 <==> cfg.maxPercentOfDecline < 1.0
  {
    (1.0 - cfg.maxPercentOfDecline) * MAX_GEAR
  }

  /** The c-th gear of a spacing, `toFixedNumber(1 - c * GearPercent[t])`. The
      three-digit rounding never changes it: it is exactly 1 - c * GearPercent(t). */
  function Gear(t: GearType, c: nat): (r: real)
    ensures r == 1.0 - c as real * GearPercent(t)
  {
    GearExact(t, c);
    ToFixedNumber(1.0 - c as real * GearPercent(t), 3)
  }

  /** The percentages are whole thousandths, so rounding 1 - c * GearPercent(t) to
      three decimals leaves it unchanged. */
  lemma {:induction false} GearExact(t: GearType, c: nat)
    ensures ToFixedNumber(1.0 - c as real * GearPercent(t), 3) == 1.0 - c as real * GearPercent(t)
  {
    var thousandths: int := match t case Small => 50 case Middle => 150 case Big => 300;
    Pow10Three();
    assert (1.0 - c as real * GearPercent(t)) * 1000.0 == (1000 - c * thousandths) as real;
    ToFixedNumberExact(1.0 - c as real * GearPercent(t), 1000 - c * thousandths, 3);
  }

  /** The amount requested in iteration i,
      `toFixedNumber((increasePercentPerGrid * i + 1) * amount, 0)`: the escalated
      amount rounded to the nearest whole number. */
  function RungAmount(cfg: Config, i: nat): (r: real)
    ensures r == RoundHalfAway(Escalated(cfg, i)) as real
  {
    ToFixedNumberZero(Escalated(cfg, i));
    ToFixedNumber(Escalated(cfg, i), 0)
  }

  /** The requested amount is the escalated base amount rounded to a whole number,
      never negative for a non-negative configuration, and never shrinking from
      one iteration to a later one. */
  lemma {:induction false} RungAmountGrows(cfg: Config, i: nat, i': nat)
    requires cfg.amount >= 0.0 && cfg.increasePercentPerGrid >= 0.0 && i <= i'
    ensures RungAmount(cfg, i) == RoundHalfAway(Escalated(cfg, i)) as real
    ensures 0.0 <= RungAmount(cfg, i) <= RungAmount(cfg, i')
  {
    EscalatedGrows(cfg, i, i');
    RoundMonotone(0.0, Escalated(cfg, i));
    RoundMonotone(Escalated(cfg, i), Escalated(cfg, i'));
  }

  /** The unrounded amount of iteration i. */
  function Escalated(cfg: Config, i: nat): real
  {
    (cfg.increasePercentPerGrid * i as real + 1.0) * cfg.amount
  }

  /** With a non-negative base and increase the unrounded amount is non-negative
      and grows with the iteration. */
  lemma {:induction false} EscalatedGrows(cfg: Config, i: nat, i': nat)
    requires cfg.amount >= 0.0 && cfg.increasePercentPerGrid >= 0.0 && i <= i'
    ensures 0.0 <= Escalated(cfg, i) <= Escalated(cfg, i')
  {
    var inc := cfg.increasePercentPerGrid;
    MulLe(i as real, i' as real, inc);
    assert i as real * inc == inc * i as real && i' as real * inc == inc * i' as real;
    MulLe(inc * i as real + 1.0, inc * i' as real + 1.0, cfg.amount);
    MulLe(0.0, inc * i as real + 1.0, cfg.amount);
  }

  /** How many iterations the loop runs: the number of small gears 1 - 0.05 * i
      that are at least the floor. */
  function IterationCount(cfg: Config): nat
  {
    if cfg.maxPercentOfDecline < 0.0 then 0
    else (cfg.maxPercentOfDecline / GearPercent(Small)).Floor + 1
  }

  /** The loop's guard holds exactly for the first IterationCount gears: the loop
      runs for i = 0 .. IterationCount - 1 and stops at the first gear below the
      floor, and it runs at least once when the decline is not negative. */
  lemma {:induction false} IterationCountSpec(cfg: Config, i: nat)
    ensures i < IterationCount(cfg) <==> Gear(Small, i) >= MinGear(cfg)
    ensures cfg.maxPercentOfDecline >= 0.0 ==> IterationCount(cfg) >= 1
  {
    var d := cfg.maxPercentOfDecline;
    if d >= 0.0 {
      var f := (d / 0.05).Floor;
      assert d == (d / 0.05) * 0.05;
      if i <= f {
        assert i as real <= d / 0.05;
      } else {
        assert i as real > d / 0.05;
      }
    }
  }

  /** Every gear the loop reaches is positive. */
  lemma {:induction false} GearPositive(cfg: Config, t: GearType, i: nat)
    requires Valid(cfg) && i < IterationCount(cfg)
    ensures Gear(t, i / Cadence(t)) > 0.0
  {
    IterationCountSpec(cfg, i);
    CoarseDrop(t, i);
  }

  /** A coarser spacing has dropped no further than the small spacing by the same
      iteration: (i / Cadence(t)) steps of GearPercent(t) are at most i small steps,
      with equality when i is a multiple of the cadence. */
  lemma {:induction false} CoarseDrop(t: GearType, i: nat)
    ensures (i / Cadence(t)) as real * GearPercent(t) <= i as real * 0.05
    ensures i % Cadence(t) == 0 ==> (i / Cadence(t)) as real * GearPercent(t) == i as real * 0.05
  {
    match t
    case Small =>
    case Middle =>
      assert (i / 3) * 3 <= i;
      assert (i / 3) as real * 0.15 == ((i / 3) * 3) as real * 0.05;
    case Big =>
      assert (i / 6) * 6 <= i;
      assert (i / 6) as real * 0.3 == ((i / 6) * 6) as real * 0.05;
  }

  /** How many small steps lie between two rungs of a spacing. */
  function Cadence(t: GearType): (c: nat)
    ensures c >= 1
  {
    match t
    case Small => 1
    case Middle => T_MIDDLE
    case Big => T_BIG
  }

  /** Whether iteration i emits a rung of spacing t
      (`hasMiddleGrid && i && i % T_MIDDLE === 0` and its big-grid twin). */
  predicate Emits(cfg: Config, t: GearType, i: nat)
    ensures t == Small ==> Emits(cfg, t, i)
    ensures t != Small && Emits(cfg, t, i) ==> i > 0 && i % Cadence(t) == 0
  {
    match t
    case Small => true
    case Middle => cfg.hasMiddleGrid && i != 0 && i % T_MIDDLE == 0
    case Big => cfg.hasBigGrid && i != 0 && i % T_BIG == 0
  }

  /** The rung of spacing t in iteration i. A middle or big rung takes its gear
      from its own emission count, which is i / Cadence(t) when it is emitted. */
  function Rung(cfg: Config, t: GearType, i: nat): Grid
    requires Valid(cfg) && i < IterationCount(cfg)
  {
    GearPositive(cfg, t, i);
    CreateGrid(t, RungAmount(cfg, i), Gear(t, i / Cadence(t)), GearPercent(t),
               cfg.numberOfRetainedProfits, cfg.price)
  }

  /** The rung of spacing t in iteration i is the grid `createGrid` builds at the
      c-th gear of that spacing, for c = i / Cadence(t). */
  lemma {:induction false} RungIs(cfg: Config, t: GearType, i: nat, c: nat)
    requires Valid(cfg) && i < IterationCount(cfg) && c == i / Cadence(t)
    ensures Gear(t, c) > 0.0
    ensures Rung(cfg, t, i) == CreateGrid(t, RungAmount(cfg, i), Gear(t, c), GearPercent(t),
                                          cfg.numberOfRetainedProfits, cfg.price)
  {
    GearPositive(cfg, t, i);
  }

  /** Which rung: its spacing and the iteration that pushes it. */
  datatype Slot = Slot(gearType: GearType, iteration: nat)

  /** The slots iteration i fills, in push order. */
  function IterationSlots(cfg: Config, i: nat): seq<Slot>
  {
    [Slot(Small, i)]
    + (if Emits(cfg, Middle, i) then [Slot(Middle, i)] else [])
    + (if Emits(cfg, Big, i) then [Slot(Big, i)] else [])
  }

  /** The slots of the first n iterations, in push order. */
  function Schedule(cfg: Config, n: nat): (s: seq<Slot>)
    ensures forall x :: x in s ==> x.iteration < n
  {
    if n == 0 then [] else Schedule(cfg, n - 1) + IterationSlots(cfg, n - 1)
  }

  /** The rungs for a sequence of slots. */
  function Build(cfg: Config, slots: seq<Slot>): (r: seq<Grid>)
    requires Valid(cfg)
    requires forall x :: x in slots ==> x.iteration < IterationCount(cfg)
    ensures |r| == |slots|
    ensures forall p :: 0 <= p < |slots| ==>
      r[p] == Rung(cfg, slots[p].gearType, slots[p].iteration) && r[p].gearType == slots[p].gearType
  {
    if slots == [] then []
    else
      RungType(cfg, slots[0].gearType, slots[0].iteration);
      [Rung(cfg, slots[0].gearType, slots[0].iteration)] + Build(cfg, slots[1..])
  }

  /** The rungs iteration i pushes, in order. */
  function Iteration(cfg: Config, i: nat): seq<Grid>
    requires Valid(cfg) && i < IterationCount(cfg)
  {
    Build(cfg, IterationSlots(cfg, i))
  }

  /** Iteration i's rungs written out: the small rung, then the middle and the big
      rung when their cadence calls for them. */
  lemma {:induction false} IterationRungs(cfg: Config, i: nat)
    requires Valid(cfg) && i < IterationCount(cfg)
    ensures Iteration(cfg, i) ==
      [Rung(cfg, Small, i)]
      + (if Emits(cfg, Middle, i) then [Rung(cfg, Middle, i)] else [])
      + (if Emits(cfg, Big, i) then [Rung(cfg, Big, i)] else [])
  {
    var ms := if Emits(cfg, Middle, i) then [Slot(Middle, i)] else [];
    var bs := if Emits(cfg, Big, i) then [Slot(Big, i)] else [];
    BuildAppend(cfg, [Slot(Small, i)] + ms, bs);
    BuildAppend(cfg, [Slot(Small, i)], ms);
    BuildSingle(cfg, Slot(Small, i));
    BuildSingle(cfg, Slot(Middle, i));
    BuildSingle(cfg, Slot(Big, i));
    assert Build(cfg, []) == [];
  }

  /** One slot builds one rung. */
  lemma BuildSingle(cfg: Config, x: Slot)
    requires Valid(cfg) && x.iteration < IterationCount(cfg)
    ensures Build(cfg, [x]) == [Rung(cfg, x.gearType, x.iteration)]
  {
  }

  /** The ladder after the first n iterations. */
  function Rungs(cfg: Config, n: nat): seq<Grid>
    requires Valid(cfg) && n <= IterationCount(cfg)
  {
    Build(cfg, Schedule(cfg, n))
  }

  /** Building distributes over concatenation of slot sequences. */
  lemma {:induction false} BuildAppend(cfg: Config, a: seq<Slot>, b: seq<Slot>)
    requires Valid(cfg)
    requires forall x :: x in a ==> x.iteration < IterationCount(cfg)
    requires forall x :: x in b ==> x.iteration < IterationCount(cfg)
    ensures Build(cfg, a + b) == Build(cfg, a) + Build(cfg, b)
  {
    if a != [] {
      assert (a + b)[0] == a[0] && (a + b)[1..] == a[1..] + b;
      BuildAppend(cfg, a[1..], b);
    } else {
      assert a + b == b;
    }
  }

  /** The ladder grows by one iteration's rungs at a time. */
  lemma RungsStep(cfg: Config, n: nat)
    requires Valid(cfg) && n < IterationCount(cfg)
    ensures Rungs(cfg, n + 1) == Rungs(cfg, n) + Iteration(cfg, n)
  {
    BuildAppend(cfg, Schedule(cfg, n), IterationSlots(cfg, n));
  }

  /** `useGrids` with the store read replaced by `cfg`. */
  method UseGrids(cfg: Config) returns (grids: seq<Grid>)
    requires Valid(cfg)
    ensures grids == Rungs(cfg, IterationCount(cfg))
  {
    var minGear := MinGear(cfg);
    grids := [];
    var gear := MAX_GEAR;
    var i: nat, j: nat, k: nat := 0, 0, 0;
    assert gear == Gear(Small, 0);
    IterationCountSpec(cfg, 0);
    while gear >= minGear
      invariant i <= IterationCount(cfg)
      invariant gear == Gear(Small, i)
      invariant gear >= minGear <==> i < IterationCount(cfg)
      invariant j == Emitted(cfg, Middle, i) && k == Emitted(cfg, Big, i)
      invariant grids == Rungs(cfg, i)
      decreases IterationCount(cfg) - i
    {
      var block;
      block, j, k := IterationGrids(cfg, i, gear, j, k);
      IterationRungs(cfg, i);
      RungsStep(cfg, i);
      grids := grids + block;
      i := i + 1;
      gear := Gear(Small, i);
      IterationCountSpec(cfg, i);
    }
  }

  /** One pass of the loop body of `useGrids`: the small rung at `gear`, then a middle
      rung at the next middle gear every third iteration and a big rung at the next
      big gear every sixth, each for the amount of this iteration. */
  method IterationGrids(cfg: Config, i: nat, gear: real, j: nat, k: nat)
    returns (block: seq<Grid>, j': nat, k': nat)
    requires Valid(cfg) && i < IterationCount(cfg) && gear == Gear(Small, i)
    requires j == Emitted(cfg, Middle, i) && k == Emitted(cfg, Big, i)
    ensures block == [Rung(cfg, Small, i)]
      + (if Emits(cfg, Middle, i) then [Rung(cfg, Middle, i)] else [])
      + (if Emits(cfg, Big, i) then [Rung(cfg, Big, i)] else [])
    ensures j' == Emitted(cfg, Middle, i + 1) && k' == Emitted(cfg, Big, i + 1)
  {
    j', k' := j, k;
    var buyAmount := RungAmount(cfg, i);
    RungIs(cfg, Small, i, i);
    block := [CreateGrid(Small, buyAmount, gear, GearPercent(Small),
                         cfg.numberOfRetainedProfits, cfg.price)];
    if cfg.hasMiddleGrid && i != 0 && i % T_MIDDLE == 0 {
      CounterStep(cfg, Middle, i);
      j' := j' + 1;
      RungIs(cfg, Middle, i, j');
      block := block + [CreateGrid(Middle, buyAmount, Gear(Middle, j'), GearPercent(Middle),
                                   cfg.numberOfRetainedProfits, cfg.price)];
    }
    if cfg.hasBigGrid && i != 0 && i % T_BIG == 0 {
      CounterStep(cfg, Big, i);
      k' := k' + 1;
      RungIs(cfg, Big, i, k');
      block := block + [CreateGrid(Big, buyAmount, Gear(Big, k'), GearPercent(Big),
                                   cfg.numberOfRetainedProfits, cfg.price)];
    }
  }

  /** How many rungs of spacing t the first n iterations emit. */
  function Emitted(cfg: Config, t: GearType, n: nat): nat
  {
    if n == 0 then 0 else Emitted(cfg, t, n - 1) + (if Emits(cfg, t, n - 1) then 1 else 0)
  }

  /** The counters `j` and `k` in closed form: n small rungs, and one middle (big)
      rung for every multiple of 3 (6) among 1 .. n - 1 when that grid is on. */
  lemma {:induction false} EmittedClosedForm(cfg: Config, t: GearType, n: nat)
    ensures Emitted(cfg, t, n) ==
      if t == Small then n
      else if (if t == Middle then cfg.hasMiddleGrid else cfg.hasBigGrid) && n > 0
      then (n - 1) / Cadence(t) else 0
  {
    if n > 0 {
      EmittedClosedForm(cfg, t, n - 1);
    }
  }

  /** The iteration in which the q-th rung (counting from 0) of spacing t is emitted. */
  function EmitIndex(t: GearType, q: nat): nat
  {
    match t
    case Small => q
    case Middle => T_MIDDLE * (q + 1)
    case Big => T_BIG * (q + 1)
  }

  /** The rungs of one spacing, in ladder order. */
  function OfType(gs: seq<Grid>, t: GearType): (r: seq<Grid>)
    ensures |r| <= |gs|
  {
    if gs == [] then []
    else (if gs[0].gearType == t then [gs[0]] else []) + OfType(gs[1..], t)
  }

  /** The slots of one spacing, in schedule order. */
  function SlotsOfType(slots: seq<Slot>, t: GearType): seq<Slot>
  {
    if slots == [] then []
    else (if slots[0].gearType == t then [slots[0]] else []) + SlotsOfType(slots[1..], t)
  }

  /** Filtering keeps only slots of the given spacing, taken from the input. */
  lemma {:induction false} SlotsOfTypeSub(slots: seq<Slot>, t: GearType)
    ensures forall x :: x in SlotsOfType(slots, t) ==> x in slots && x.gearType == t
  {
    if slots != [] {
      SlotsOfTypeSub(slots[1..], t);
      forall x | x in SlotsOfType(slots[1..], t) ensures x in slots {
        assert x in slots[1..];
      }
    }
  }

  /** Filtering distributes over concatenation. */
  lemma {:induction false} SlotsOfTypeAppend(a: seq<Slot>, b: seq<Slot>, t: GearType)
    ensures SlotsOfType(a + b, t) == SlotsOfType(a, t) + SlotsOfType(b, t)
  {
    if a == [] {
      assert a + b == b;
    } else {
      assert (a + b)[0] == a[0] && (a + b)[1..] == a[1..] + b;
      SlotsOfTypeAppend(a[1..], b, t);
    }
  }

  /** Filtering the ladder by spacing is building the rungs of the filtered slots. */
  lemma {:induction false} OfTypeBuild(cfg: Config, slots: seq<Slot>, t: GearType)
    requires Valid(cfg)
    requires forall x :: x in slots ==> x.iteration < IterationCount(cfg)
    ensures forall x :: x in SlotsOfType(slots, t) ==> x in slots
    ensures OfType(Build(cfg, slots), t) == Build(cfg, SlotsOfType(slots, t))
  {
    SlotsOfTypeSub(slots, t);
    if slots != [] {
      SlotsOfTypeSub(slots[1..], t);
      var r := Build(cfg, slots);
      assert r[1..] == Build(cfg, slots[1..]);
      OfTypeBuild(cfg, slots[1..], t);
      var head := if slots[0].gearType == t then [slots[0]] else [];
      BuildAppend(cfg, head, SlotsOfType(slots[1..], t));
    }
  }

  /** Every rung of the ladder has the spacing it was built for. */
  lemma RungType(cfg: Config, t: GearType, i: nat)
    requires Valid(cfg) && i < IterationCount(cfg)
    ensures Rung(cfg, t, i).gearType == t
  {
  }

  /** The position of a spacing within an iteration. */
  function Rank(t: GearType): nat
  {
    match t
    case Small => 0
    case Middle => 1
    case Big => 2
  }

  /** One iteration's slots: small first, then middle, then big, each present
      exactly when its cadence says so. */
  lemma {:induction false} IterationSlotsShape(cfg: Config, i: nat)
    ensures IterationSlots(cfg, i)[0] == Slot(Small, i)
    ensures forall a, b :: 0 <= a < b < |IterationSlots(cfg, i)| ==>
      Rank(IterationSlots(cfg, i)[a].gearType) < Rank(IterationSlots(cfg, i)[b].gearType)
    ensures forall t :: SlotsOfType(IterationSlots(cfg, i), t) == if Emits(cfg, t, i) then [Slot(t, i)] else []
  {
    forall t ensures SlotsOfType(IterationSlots(cfg, i), t) == if Emits(cfg, t, i) then [Slot(t, i)] else [] {
      IterationSlotsOfType(cfg, i, t);
    }
  }

  /** Iteration i fills one slot of spacing t when its cadence calls for t, else none. */
  lemma {:induction false} IterationSlotsOfType(cfg: Config, i: nat, t: GearType)
    ensures SlotsOfType(IterationSlots(cfg, i), t) == if Emits(cfg, t, i) then [Slot(t, i)] else []
  {
    var ms := if Emits(cfg, Middle, i) then [Slot(Middle, i)] else [];
    var bs := if Emits(cfg, Big, i) then [Slot(Big, i)] else [];
    SlotsOfTypeAppend([Slot(Small, i)] + ms, bs, t);
    SlotsOfTypeAppend([Slot(Small, i)], ms, t);
    assert SlotsOfType([Slot(Small, i)], t) == (if t == Small then [Slot(Small, i)] else []) + SlotsOfType([], t);
    if ms != [] {
      assert SlotsOfType(ms, t) == (if t == Middle then ms else []) + SlotsOfType([], t);
    }
    if bs != [] {
      assert SlotsOfType(bs, t) == (if t == Big then bs else []) + SlotsOfType([], t);
    }
  }

  /** Within an iteration the small rung comes first, then the middle rung, then the
      big rung, each present exactly when its cadence says so. */
  lemma {:induction false} IterationShape(cfg: Config, i: nat)
    requires Valid(cfg) && i < IterationCount(cfg)
    ensures Iteration(cfg, i)[0] == Rung(cfg, Small, i)
    ensures forall a, b :: 0 <= a < b < |Iteration(cfg, i)| ==>
      Rank(Iteration(cfg, i)[a].gearType) < Rank(Iteration(cfg, i)[b].gearType)
    ensures forall t :: OfType(Iteration(cfg, i), t) == if Emits(cfg, t, i) then [Rung(cfg, t, i)] else []
  {
    IterationSlotsShape(cfg, i);
    forall t ensures OfType(Iteration(cfg, i), t) == if Emits(cfg, t, i) then [Rung(cfg, t, i)] else [] {
      IterationOfType(cfg, i, t);
    }
  }

  /** Iteration i holds one rung of spacing t when its cadence calls for t, else none. */
  lemma {:induction false} IterationOfType(cfg: Config, i: nat, t: GearType)
    requires Valid(cfg) && i < IterationCount(cfg)
    ensures OfType(Iteration(cfg, i), t) == if Emits(cfg, t, i) then [Rung(cfg, t, i)] else []
  {
    IterationSlotsOfType(cfg, i, t);
    OfTypeBuild(cfg, IterationSlots(cfg, i), t);
    BuildSingle(cfg, Slot(t, i));
    assert Build(cfg, []) == [];
  }

  /** The slots of spacing t among the first n iterations: the q-th is the one of
      iteration EmitIndex(t, q), and there are Emitted(cfg, t, n) of them. */
  lemma {:induction false} ScheduleOfType(cfg: Config, t: GearType, n: nat)
    ensures |SlotsOfType(Schedule(cfg, n), t)| == Emitted(cfg, t, n)
    ensures forall q :: 0 <= q < Emitted(cfg, t, n) ==>
      SlotsOfType(Schedule(cfg, n), t)[q] == Slot(t, EmitIndex(t, q))
  {
    if n > 0 {
      var prev := SlotsOfType(Schedule(cfg, n - 1), t);
      var now := SlotsOfType(Schedule(cfg, n), t);
      ScheduleOfType(cfg, t, n - 1);
      ScheduleStep(cfg, t, n - 1);
      var extra := if Emits(cfg, t, n - 1) then [Slot(t, n - 1)] else [];
      if Emits(cfg, t, n - 1) {
        NextEmitIndex(cfg, t, n - 1);
      }
      AppendNextSlot(prev, extra, t);
    }
  }

  /** Appending the next slot of spacing t, or nothing, to the first slots of t in
      emission order keeps them in emission order. */
  lemma AppendNextSlot(prev: seq<Slot>, extra: seq<Slot>, t: GearType)
    requires forall q :: 0 <= q < |prev| ==> prev[q] == Slot(t, EmitIndex(t, q))
    requires extra == [] || extra == [Slot(t, EmitIndex(t, |prev|))]
    ensures forall q :: 0 <= q < |prev + extra| ==> (prev + extra)[q] == Slot(t, EmitIndex(t, q))
  {
  }

  /** One more iteration adds its slot of spacing t, if it emits one, at the end. */
  lemma {:induction false} ScheduleStep(cfg: Config, t: GearType, i: nat)
    ensures SlotsOfType(Schedule(cfg, i + 1), t) ==
      SlotsOfType(Schedule(cfg, i), t) + (if Emits(cfg, t, i) then [Slot(t, i)] else [])
  {
    SlotsOfTypeAppend(Schedule(cfg, i), IterationSlots(cfg, i), t);
    IterationSlotsOfType(cfg, i, t);
  }

  /** When iteration i emits a middle (big) rung, the counter `j` (`k`) reaches
      i / 3 (i / 6) with it. */
  lemma {:induction false} CounterStep(cfg: Config, t: GearType, i: nat)
    requires t != Small && Emits(cfg, t, i)
    ensures Emitted(cfg, t, i) + 1 == i / Cadence(t)
  {
    EmittedClosedForm(cfg, t, i);
    var c := Cadence(t);
    assert i % c == 0 && i > 0;
    assert (i - 1) / c == i / c - 1;
  }

  /** When iteration i emits a rung of spacing t, that rung is the next one of its
      spacing: the number emitted before it maps back to i. */
  lemma {:induction false} NextEmitIndex(cfg: Config, t: GearType, i: nat)
    requires Emits(cfg, t, i)
    ensures EmitIndex(t, Emitted(cfg, t, i)) == i
  {
    EmittedClosedForm(cfg, t, i);
    if t != Small {
      var c := Cadence(t);
      assert i % c == 0 && i > 0;
      assert (i - 1) / c == i / c - 1;
    }
  }

  /** The rungs of spacing t in the first n iterations are exactly the ones emitted
      by the iterations whose cadence calls for t, in order: the q-th small rung is
      the one of iteration q, the q-th middle (big) rung the one of iteration
      3 (q + 1) (6 (q + 1)). */
  lemma {:induction false} RungsOfType(cfg: Config, t: GearType, n: nat)
    requires Valid(cfg) && n <= IterationCount(cfg)
    ensures |OfType(Rungs(cfg, n), t)| == Emitted(cfg, t, n)
    ensures forall q :: 0 <= q < Emitted(cfg, t, n) ==>
      EmitIndex(t, q) < n && OfType(Rungs(cfg, n), t)[q] == Rung(cfg, t, EmitIndex(t, q))
  {
    OfTypeBuild(cfg, Schedule(cfg, n), t);
    ScheduleOfType(cfg, t, n);
    var f := SlotsOfType(Schedule(cfg, n), t);
    forall q | 0 <= q < Emitted(cfg, t, n) ensures EmitIndex(t, q) < n {
      assert f[q] in f;
    }
  }

  /** The small gears of the ladder start at 1 and fall by exactly 0.05 from one
      small rung to the next. */
  lemma {:induction false} SmallGears(cfg: Config, n: nat)
    requires Valid(cfg) && n <= IterationCount(cfg)
    ensures |OfType(Rungs(cfg, n), Small)| == n
    ensures forall m :: 0 <= m < n ==> OfType(Rungs(cfg, n), Small)[m].gear == 1.0 - m as real * 0.05
    ensures forall m :: 0 < m < n ==>
      OfType(Rungs(cfg, n), Small)[m].gear == OfType(Rungs(cfg, n), Small)[m - 1].gear - 0.05
  {
    var smalls := OfType(Rungs(cfg, n), Small);
    RungsOfType(cfg, Small, n);
    EmittedClosedForm(cfg, Small, n);
    forall m | 0 <= m < n ensures smalls[m].gear == 1.0 - m as real * 0.05 {
      SmallRungGear(cfg, n, m);
    }
    forall m | 0 < m < n ensures smalls[m].gear == smalls[m - 1].gear - 0.05 {
      SmallRungGear(cfg, n, m);
      SmallRungGear(cfg, n, m - 1);
    }
  }

  /** The m-th small rung is iteration m's, at gear 1 - 0.05 m. */
  lemma {:induction false} SmallRungGear(cfg: Config, n: nat, m: nat)
    requires Valid(cfg) && m < n <= IterationCount(cfg)
    ensures |OfType(Rungs(cfg, n), Small)| == n
    ensures OfType(Rungs(cfg, n), Small)[m].gear == 1.0 - m as real * 0.05
  {
    SmallRung(cfg, n, m);
    SmallGearAt(cfg, m);
  }

  /** The small rung of iteration i sits at gear 1 - 0.05 i. */
  lemma {:induction false} SmallGearAt(cfg: Config, i: nat)
    requires Valid(cfg) && i < IterationCount(cfg)
    ensures Rung(cfg, Small, i).gear == 1.0 - i as real * 0.05
  {
    RungGear(cfg, Small, i);
  }

  /** The m-th small rung of the ladder is the small rung of iteration m. */
  lemma {:induction false} SmallRung(cfg: Config, n: nat, m: nat)
    requires Valid(cfg) && m < n <= IterationCount(cfg)
    ensures |OfType(Rungs(cfg, n), Small)| == n
    ensures OfType(Rungs(cfg, n), Small)[m] == Rung(cfg, Small, m)
  {
    RungsOfType(cfg, Small, n);
    EmittedClosedForm(cfg, Small, n);
    assert EmitIndex(Small, m) == m;
  }

  /** A rung sits at the gear of its spacing and emission count. */
  lemma RungGear(cfg: Config, t: GearType, i: nat)
    requires Valid(cfg) && i < IterationCount(cfg)
    ensures Rung(cfg, t, i).gear == 1.0 - (i / Cadence(t)) as real * GearPercent(t)
  {
  }

  /** The q-th middle (big) rung of the ladder, counting from 0, sits at gear
      1 - 0.15 (q + 1) (1 - 0.3 (q + 1)): the gear `toFixedNumber(1 - j * GearPercent)`
      with the counter `j` (`k`) just incremented to q + 1. */
  lemma {:induction false} CoarseGears(cfg: Config, t: GearType, n: nat, q: nat)
    requires Valid(cfg) && n <= IterationCount(cfg) && t != Small && q < Emitted(cfg, t, n)
    ensures q < |OfType(Rungs(cfg, n), t)|
    ensures OfType(Rungs(cfg, n), t)[q].gear == 1.0 - (q + 1) as real * GearPercent(t)
  {
    RungsOfType(cfg, t, n);
    CoarseRungGear(cfg, t, q);
  }

  /** The rung of the iteration that emits the q-th coarse rung sits at gear
      1 - (q + 1) GearPercent(t). */
  lemma {:induction false} CoarseRungGear(cfg: Config, t: GearType, q: nat)
    requires Valid(cfg) && t != Small && EmitIndex(t, q) < IterationCount(cfg)
    ensures Rung(cfg, t, EmitIndex(t, q)).gear == 1.0 - (q + 1) as real * GearPercent(t)
  {
    EmitCount(t, q);
    RungGear(cfg, t, EmitIndex(t, q));
  }

  /** The iteration that emits the q-th coarse rung has passed q + 1 cadences. */
  lemma EmitCount(t: GearType, q: nat)
    requires t != Small
    ensures EmitIndex(t, q) / Cadence(t) == q + 1
  {
  }

  /** A middle or big rung sits at the same gear as the small rung of its
      iteration: its emission count times its spacing equals i times the small
      spacing. */
  lemma {:induction false} CoarseGearMatchesSmall(cfg: Config, t: GearType, i: nat)
    requires Valid(cfg) && i < IterationCount(cfg) && Emits(cfg, t, i)
    ensures Rung(cfg, t, i).gear == Rung(cfg, Small, i).gear == 1.0 - i as real * 0.05
  {
    RungGear(cfg, t, i);
    SmallGearAt(cfg, i);
    CoarseDrop(t, i);
  }

  /** Every rung of iteration i is built for the same requested amount: its lot is
      the whole number of units RungAmount(cfg, i) pays for at its own buy price. */
  lemma {:induction false} IterationAmount(cfg: Config, i: nat)
    requires Valid(cfg) && i < IterationCount(cfg)
    ensures forall g :: g in Iteration(cfg, i) ==>
      IsGrid(g, g.gearType, RungAmount(cfg, i), g.gear, GearPercent(g.gearType),
             cfg.numberOfRetainedProfits, cfg.price)
  {
    RungType(cfg, Small, i);
    RungType(cfg, Middle, i);
    RungType(cfg, Big, i);
  }

  /** With both coarser grids off the ladder is one small rung per iteration. */
  lemma {:induction false} OnlySmallWhenFlagsOff(cfg: Config, n: nat)
    requires Valid(cfg) && n <= IterationCount(cfg)
    requires !cfg.hasMiddleGrid && !cfg.hasBigGrid
    ensures |Rungs(cfg, n)| == n
    ensures forall g :: g in Rungs(cfg, n) ==> g.gearType == Small
  {
    var slots := Schedule(cfg, n);
    var r := Rungs(cfg, n);
    ScheduleSmallOnly(cfg, n);
    forall g | g in r ensures g.gearType == Small {
      var p :| 0 <= p < |r| && r[p] == g;
      assert slots[p] in slots;
    }
  }

  /** With both coarser grids off every iteration fills exactly one small slot. */
  lemma {:induction false} ScheduleSmallOnly(cfg: Config, n: nat)
    requires !cfg.hasMiddleGrid && !cfg.hasBigGrid
    ensures |Schedule(cfg, n)| == n
    ensures forall x :: x in Schedule(cfg, n) ==> x.gearType == Small
  {
    if n > 0 {
      ScheduleSmallOnly(cfg, n - 1);
      assert IterationSlots(cfg, n - 1) == [Slot(Small, n - 1)];
    }
  }

  /** For a configuration inside its intended ranges every rung of the ladder
      sells above its buy price, buys a lot that is not negative, sells no more
      than it bought, keeps a non-negative remainder, and accounts for every unit:
      what is sold plus what is retained is the full proceeds. */
  lemma {:induction false} LadderRungsSound(cfg: Config, n: nat)
    requires Valid(cfg) && n <= IterationCount(cfg)
    requires cfg.amount >= 0.0 && cfg.increasePercentPerGrid >= 0.0
    requires 0.0 <= cfg.numberOfRetainedProfits <= 1.0
    ensures forall g :: g in Rungs(cfg, n) ==>
      && 0.0 < g.buyPrice < g.sellPrice
      && 0 <= g.sellCount <= g.buyCount
      && 0.0 <= g.profits
      && 0.0 <= g.retainedProfits
      && g.sellAmount + g.retainedProfits == g.buyCount as real * g.sellPrice
  {
    var slots := Schedule(cfg, n);
    var r := Rungs(cfg, n);
    forall g | g in r
      ensures && 0.0 < g.buyPrice < g.sellPrice
              && 0 <= g.sellCount <= g.buyCount
              && 0.0 <= g.profits
              && 0.0 <= g.retainedProfits
              && g.sellAmount + g.retainedProfits == g.buyCount as real * g.sellPrice
    {
      var p :| 0 <= p < |r| && r[p] == g;
      RungSound(cfg, slots[p].gearType, slots[p].iteration);
    }
  }

  /** One rung of a configuration inside its intended ranges is sound. */
  lemma {:induction false} RungSound(cfg: Config, t: GearType, i: nat)
    requires Valid(cfg) && i < IterationCount(cfg)
    requires cfg.amount >= 0.0 && cfg.increasePercentPerGrid >= 0.0
    requires 0.0 <= cfg.numberOfRetainedProfits <= 1.0
    ensures var g := Rung(cfg, t, i);
      && 0.0 < g.buyPrice < g.sellPrice
      && 0 <= g.sellCount <= g.buyCount
      && 0.0 <= g.profits
      && 0.0 <= g.retainedProfits
      && g.sellAmount + g.retainedProfits == g.buyCount as real * g.sellPrice
  {
    RungAmountGrows(cfg, i, i);
    GridSound(Rung(cfg, t, i), t, RungAmount(cfg, i), Gear(t, i / Cadence(t)), GearPercent(t),
              cfg.numberOfRetainedProfits, cfg.price);
  }

  /** A sample configuration: reference price 10, 1000 per rung, a 10% decline, no
      increase, no retained profit and both coarser grids off. */
  const SAMPLE: Config := Config(10.0, 1000.0, 0.1, 0.0, 0.0, false, false)

  /** The sample ladder: three iterations, each pushing one small rung. */
  lemma {:induction false} SampleLadder()
    ensures IterationCount(SAMPLE) == 3
    ensures |Rungs(SAMPLE, 3)| == 3 && forall g :: g in Rungs(SAMPLE, 3) ==> g.gearType == Small
  {
    SampleCount();
    OnlySmallWhenFlagsOff(SAMPLE, 3);
  }

  /** The sample's small rungs sit at gears 1, 0.95 and 0.9 and buy 100, 105 and 111
      units. */
  lemma {:induction false} SampleLots(i: nat)
    requires i < 3
    ensures IterationCount(SAMPLE) == 3
    ensures Rung(SAMPLE, Small, i).gear == [1.0, 0.95, 0.9][i]
    ensures Rung(SAMPLE, Small, i).buyCount == [100, 105, 111][i]
  {
    SampleRung(i, [100, 105, 111][i]);
  }

  /** The small rung of sample iteration i buys the lot that 1000 pays for at the
      price 10 (1 - 0.05 i). */
  lemma {:induction false} SampleRung(i: nat, count: int)
    requires i < 3 && IsFloorOf(count, 1000.0, (1.0 - i as real * 0.05) * 10.0)
    ensures IterationCount(SAMPLE) == 3
    ensures Rung(SAMPLE, Small, i).gear == 1.0 - i as real * 0.05
    ensures Rung(SAMPLE, Small, i).buyCount == count
  {
    SampleCount();
    SmallGearAt(SAMPLE, i);
    SampleAmount(i);
    var g := Rung(SAMPLE, Small, i);
    RungIs(SAMPLE, Small, i, i);
    assert IsGrid(g, Small, 1000.0, 1.0 - i as real * 0.05, 0.05, 0.0, 10.0);
    SampleBuy(g, 1.0 - i as real * 0.05, count);
  }

  /** Without an increase every sample iteration requests exactly 1000. */
  lemma SampleAmount(i: nat)
    ensures RungAmount(SAMPLE, i) == 1000.0
  {
    assert Escalated(SAMPLE, i) == 1000.0;
    ToFixedNumberZero(1000.0);
    RoundInteger(1000);
  }

  /** A 10% decline is two small steps, so the sample loop runs three times. */
  lemma SampleCount()
    ensures IterationCount(SAMPLE) == 3
  {
    assert SAMPLE.maxPercentOfDecline / GearPercent(Small) == 2.0;
  }

  /** A rung that buys for 1000 at the price 10 gear buys the floor of 1000 / (10 gear). */
  lemma SampleBuy(g: Grid, gear: real, count: int)
    requires BuyLaws(g, 1000.0, gear, 0.05, 10.0) && IsFloorOf(count, 1000.0, gear * 10.0)
    ensures g.buyCount == count
  {
    FloorUnique(g.buyCount, count, 1000.0, g.buyPrice);
  }

  /** A decline of exactly one small step keeps the gear 0.95, which equals the
      floor, so the ladder has two small rungs. */
  lemma {:induction false} OneStepDecline(cfg: Config)
    requires cfg.maxPercentOfDecline == 0.05
    ensures IterationCount(cfg) == 2
    ensures Gear(Small, 1) == MinGear(cfg) && Gear(Small, 2) < MinGear(cfg)
  {
    assert 0.05 / 0.05 == 1.0;
  }

  /** With the middle grid on and a 15% decline the ladder has four small rungs and
      one middle rung, pushed by iteration 3 right after its small rung, at that
      small rung's gear 0.85. */
  lemma {:induction false} SampleMiddle(cfg: Config)
    requires Valid(cfg) && cfg.maxPercentOfDecline == 0.15 && cfg.hasMiddleGrid && !cfg.hasBigGrid
    ensures IterationCount(cfg) == 4
    ensures |Rungs(cfg, 4)| == 5
    ensures |OfType(Rungs(cfg, 4), Middle)| == 1
    ensures OfType(Rungs(cfg, 4), Middle)[0] == Rung(cfg, Middle, 3)
    ensures Rung(cfg, Middle, 3).gear == Rung(cfg, Small, 3).gear == 0.85
  {
    assert IterationCount(cfg) == 4 by {
      assert 0.15 / 0.05 == 3.0;
    }
    SampleMiddleSchedule(cfg);
    RungsOfType(cfg, Middle, 4);
    EmittedClosedForm(cfg, Middle, 4);
    CoarseGearMatchesSmall(cfg, Middle, 3);
  }

  /** The first four iterations with only the middle grid on fill five slots. */
  lemma {:induction false} SampleMiddleSchedule(cfg: Config)
    requires cfg.hasMiddleGrid && !cfg.hasBigGrid
    ensures |Schedule(cfg, 4)| == 5
  {
    assert |Schedule(cfg, 1)| == 1;
    assert |Schedule(cfg, 2)| == 2;
    assert |Schedule(cfg, 3)| == 3;
    assert |IterationSlots(cfg, 3)| == 2;
  }
}
