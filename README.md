# Grid-trading ladder

A Dafny model of the ladder calculator in `src/hooks/useGrids.ts`. The calculator
builds a "grid trading" table from a reference price and a handful of settings.
It emits one small rung per 5% step down from the reference price, until the step
would pass the maximum expected decline. When those grids are switched on, it also
emits a middle rung (15% spacing) every third step and a big rung (30% spacing)
every sixth step. Each rung (`createGrid`) holds:

- its buy price and sell price;
- the whole number of units bought for the requested amount, and their cost;
- the profit of selling them one spacing higher;
- the return rate;
- the number of units sold, and the profit kept back according to the retention ratio.

The model has three modules:

- `Fixed` (`fixed.dfy`): `toFixedNumber` / `toFixed` decimal rounding over exact reals.
  Halves round away from zero.
- `Grids` (`grid.dfy`):
  - the `GearType` and `GearPercent` enums and the cadence constants `T_MIDDLE` and `T_BIG`;
  - the rung record `Grid`;
  - `createGrid` as the function `CreateGrid`. Its contract `IsGrid` states every field as a relation (floor, product, share), and `GridDetermined` shows those relations fix the record completely.
- `Ladder` (`ladder.dfy`):
  - the store settings, as a `Config` value;
  - the loop of `useGrids`, as the method `UseGrids`. Its loop body is the method `IterationGrids`. `UseGrids` is proved equal to the specification function `Rungs`, which builds the rungs of a slot schedule (`Schedule`) one `Slot` (spacing and iteration) at a time;
  - lemmas about `Rungs`: how many iterations run, the small gears, the cadence and order of middle and big rungs, the amounts, and the soundness of every rung.

Behaviour of the code that the model makes explicit:

- A maximum decline of exactly 5% gives two small rungs, at gears 1 and 0.95. The
  loop guard `gear >= minGear` admits the gear equal to the floor. Over exact reals
  the loop runs `floor(decline / 0.05) + 1` times (`IterationCountSpec`,
  `OneStepDecline`); in doubles the count can be one lower (see the float-drift
  line under "Left out").
- Middle and big rungs sit at exactly the gear of the small rung of the same
  iteration. The counters `j` and `k` reach i / 3 and i / 6 when they are
  incremented (`CoarseGearMatchesSmall`).
- The code raises no errors. A rung that buys nothing gets the return rate that
  0 / 0 produces, modelled as `Rate.NaN`. No configuration is rejected. The model
  requires a positive price and a decline below 100% (`Ladder.Valid`); the
  "Left out" line for `Ladder.UseGrids` says why and what the code does outside
  that range.

## Model

| member | source | states |
|---|---|---|
| Fixed.Pow10Three | src/hooks/useGrids.ts:47-49 | 10^3 = 1000, the scale of the default three-digit rounding |
| Fixed.ToFixedNumber | src/hooks/useGrids.ts:47-49 | the result scaled by 10^digits is the integer nearest to x scaled by 10^digits, so it has at most `digits` decimals (with ToFixedNumberExact and ToFixedNumberZero below) |
| Fixed.RoundHalfAway | src/hooks/useGrids.ts:44-46 | `toFixed` picks an integer within one half of the value, never changing the sign; ties go away from zero |
| Fixed.RoundInteger | src/hooks/useGrids.ts:44-46 | a whole number rounds to itself |
| Fixed.RoundMonotone | src/hooks/useGrids.ts:44-46 | rounding preserves order |
| Fixed.ToFixedNumberExact | src/hooks/useGrids.ts:47-49 | `toFixedNumber` leaves a value that already has at most `digits` decimals unchanged |
| Fixed.ToFixedNumberZero | src/hooks/useGrids.ts:47-49 | with 0 digits `toFixedNumber` rounds to the nearest integer |
| Grids.GearPercent | src/hooks/useGrids.ts:11-15 | each spacing is a fraction strictly between 0 and 1 (0.05, 0.15, 0.3) |
| Grids.CadenceRatios | src/hooks/useGrids.ts:56-61 | `T_MIDDLE` = 3 and `T_BIG` = 6 are the exact quotients 0.15 / 0.05 and 0.3 / 0.05 |
| Grids.FloorDiv | src/hooks/useGrids.ts:74 | `Math.floor(a / b)` is the largest whole q with q * b <= a |
| Grids.CreateGrid | src/hooks/useGrids.ts:63-102 | the record satisfies IsGrid: buy price gear * price; sell price one spacing higher; lot = floor(requested / buy price); cost = lot * buy price; profit = lot * sell price - cost; return rate NaN iff the lot is 0, else rate * cost = profit * 100; sell lot = floor((proceeds - profit * ratio) / sell price); sold + retained = proceeds; retained count * sell price = retained profit |
| Grids.Spacing | src/hooks/useGrids.ts:72-76 | the buy price is positive and the sell price is the buy price plus the spacing times the price |
| Grids.LawsOfParts | src/hooks/useGrids.ts:72-86 | the values computed step by step in `createGrid` form a record satisfying IsGrid |
| Grids.RateOfParts | src/hooks/useGrids.ts:79 | profit / cost * 100 is the return rate and is NaN exactly when nothing is bought |
| Grids.SellOfParts | src/hooks/useGrids.ts:82-86 | the retained count times the sell price is the retained profit |
| Grids.GridDetermined | src/hooks/useGrids.ts:63-102 | two records satisfying IsGrid for the same options are equal, so the relations fully specify `createGrid` |
| Grids.BuyDetermined | src/hooks/useGrids.ts:72-78 | the buy side (prices, lot, cost, profit) is determined by the options |
| Grids.RateDetermined | src/hooks/useGrids.ts:79 | the return rate is determined by lot, cost and profit |
| Grids.SellDetermined | src/hooks/useGrids.ts:80-86 | the sell lot, sold amount, retained profit and retained count are determined by the buy side and the ratio |
| Grids.FloorMaximal | src/hooks/useGrids.ts:74 | every whole number of units an amount pays for is at most the floored lot |
| Grids.FloorUnique | src/hooks/useGrids.ts:74 | the floored lot is unique |
| Grids.BuyFlooring | src/hooks/useGrids.ts:72-75 | for a non-negative request the lot is >= 0, costs no more than requested, and leaves less than one buy price unspent |
| Grids.ProfitIsSpacing | src/hooks/useGrids.ts:72-78 | sell price - buy price = spacing * price > 0; profit = lot * spacing * price, between 0 and the full proceeds |
| Grids.RetentionBounds | src/hooks/useGrids.ts:80-86 | for a ratio in [0, 1]: 0 <= sell lot <= buy lot; profit * ratio <= retained profit < profit * ratio + sell price; ratio 0 sells everything and keeps nothing |
| Grids.RetentionOutOfRange | src/hooks/useGrids.ts:80-84 | with price 10, amount 1000 and the gear-1 small rung (100 units), a ratio of -1 sells 104 units and a ratio of 22 sells -5, so the ratio bounds of RetentionBounds are needed |
| Grids.SellSideBounds | src/hooks/useGrids.ts:80-86 | the same bounds from the sell-side relations, given a profit between 0 and the proceeds |
| Grids.SellFloorBounds | src/hooks/useGrids.ts:82-85 | floor((n * p - profit * r) / p) lies in [0, n], is n when r = 0, and what is left unsold is in [profit * r, profit * r + p) |
| Grids.FloorBetween | src/hooks/useGrids.ts:82-83 | an amount between the prices of lo and hi units floors to a lot between lo and hi |
| Grids.ReturnRateOfLot | src/hooks/useGrids.ts:79 | the return rate is NaN iff the lot is 0, and otherwise spacing / gear * 100, whatever the lot size |
| Ladder.MinGear | src/hooks/useGrids.ts:127-128 | the floor `(1 - maxPercentOfDecline) * maxGear` is positive exactly when the decline is below 100% |
| Ladder.Gear | src/hooks/useGrids.ts:159 | the c-th gear `toFixedNumber(1 - c * GearPercent)` of a spacing is exactly 1 - c * GearPercent (also lines 174 and 183) |
| Ladder.RungAmount | src/hooks/useGrids.ts:136-139 | the requested amount is `(increasePercentPerGrid * i + 1) * amount` rounded to the nearest whole number, halves away from zero |
| Ladder.Emits | src/hooks/useGrids.ts:153 | every iteration emits a small rung; a middle (big) rung only in an iteration i > 0 that is a multiple of `T_MIDDLE` (`T_BIG`, line 168) |
| Ladder.GearExact | src/hooks/useGrids.ts:183 | `toFixedNumber(1 - c * GearPercent)` with 3 digits leaves 1 - c * GearPercent unchanged, since the spacings are whole thousandths |
| Ladder.RungAmountGrows | src/hooks/useGrids.ts:136-139 | the requested amount is the escalated amount rounded to an integer, non-negative, and non-decreasing in the iteration |
| Ladder.EscalatedGrows | src/hooks/useGrids.ts:136-139 | (increase * i + 1) * amount is non-negative and non-decreasing in i |
| Ladder.IterationCountSpec | src/hooks/useGrids.ts:127-135 | the guard `gear >= minGear` holds exactly for i < IterationCount; at least one iteration runs for a non-negative decline |
| Ladder.GearPositive | src/hooks/useGrids.ts:135 | every gear reached inside the loop, of any spacing, is positive |
| Ladder.CoarseDrop | src/hooks/useGrids.ts:153-174 | (i / cadence) coarse steps drop no further than i small steps, and exactly as far when i is a multiple of the cadence |
| Ladder.Cadence | src/hooks/useGrids.ts:153-168 | the cadence of every spacing is at least one iteration |
| Ladder.Schedule | src/hooks/useGrids.ts:135-184 | every slot of the first n iterations belongs to an iteration below n |
| Ladder.Build | src/hooks/useGrids.ts:141-180 | the p-th rung built is the rung of the p-th slot, of that slot's spacing |
| Ladder.RungIs | src/hooks/useGrids.ts:141-180 | the rung of spacing t in iteration i is `createGrid` at gear number i / cadence of t, for that iteration's amount |
| Ladder.IterationRungs | src/hooks/useGrids.ts:141-180 | one iteration pushes the small rung, then the middle rung if due, then the big rung if due |
| Ladder.BuildSingle | src/hooks/useGrids.ts:141-150 | one slot builds its one rung |
| Ladder.BuildAppend | src/hooks/useGrids.ts:141-180 | building distributes over concatenation |
| Ladder.RungsStep | src/hooks/useGrids.ts:135-184 | the ladder after n + 1 iterations is the ladder after n followed by iteration n's rungs |
| Ladder.UseGrids | src/hooks/useGrids.ts:104-187 | the returned list is `Rungs(cfg, IterationCount(cfg))` |
| Ladder.IterationGrids | src/hooks/useGrids.ts:136-180 | one loop pass pushes the rungs of iteration i and advances `j` and `k` to their counts after i |
| Ladder.EmittedClosedForm | src/hooks/useGrids.ts:152-180 | after n iterations: n small rungs; (n - 1) / 3 middle and (n - 1) / 6 big rungs when the grid is on, none otherwise |
| Ladder.CounterStep | src/hooks/useGrids.ts:153-159 | when iteration i emits a middle (big) rung, `j++` (`k++`) makes the counter i / 3 (i / 6) |
| Ladder.NextEmitIndex | src/hooks/useGrids.ts:152-180 | the rung that iteration i emits is the next of its spacing: emission number Emitted maps back to i |
| Ladder.OfType | src/hooks/useGrids.ts:141-180 | filtering the ladder by spacing never lengthens it |
| Ladder.SlotsOfTypeSub | src/hooks/useGrids.ts:141-180 | the filtered slots are slots of the schedule, of the requested spacing |
| Ladder.SlotsOfTypeAppend | src/hooks/useGrids.ts:141-180 | filtering distributes over concatenation |
| Ladder.OfTypeBuild | src/hooks/useGrids.ts:141-180 | the rungs of one spacing are the rungs built from that spacing's slots |
| Ladder.RungType | src/hooks/useGrids.ts:143 | every rung carries the spacing it was built for |
| Ladder.IterationSlotsShape | src/hooks/useGrids.ts:141-180 | an iteration's slots: the small one first, ranks strictly increasing, each coarse slot present iff its cadence is due |
| Ladder.IterationSlotsOfType | src/hooks/useGrids.ts:141-180 | an iteration fills one slot of a spacing when that spacing is due, and none otherwise |
| Ladder.IterationShape | src/hooks/useGrids.ts:141-180 | an iteration's rungs: small first, then middle, then big, each coarse rung present iff its cadence is due |
| Ladder.IterationOfType | src/hooks/useGrids.ts:141-180 | an iteration holds exactly one rung of a spacing when that spacing is due, and none otherwise |
| Ladder.ScheduleOfType | src/hooks/useGrids.ts:135-184 | the q-th slot of spacing t is the one of iteration EmitIndex(t, q), and there are Emitted(t, n) of them |
| Ladder.AppendNextSlot | src/hooks/useGrids.ts:152-180 | appending the next slot of a spacing, or nothing, keeps that spacing's slots in emission order |
| Ladder.ScheduleStep | src/hooks/useGrids.ts:135-184 | one more iteration appends its slot of spacing t, if due, to the slots of that spacing |
| Ladder.RungsOfType | src/hooks/useGrids.ts:135-184 | the q-th small rung is iteration q's; the q-th middle (big) rung is iteration 3 (q + 1)'s (6 (q + 1)'s); the counts are Emitted |
| Ladder.SmallGears | src/hooks/useGrids.ts:130-183 | the ladder has one small rung per iteration; the m-th is at gear 1 - 0.05 m, so consecutive small gears differ by exactly 0.05 |
| Ladder.SmallRungGear | src/hooks/useGrids.ts:182-183 | the m-th small rung is at gear 1 - 0.05 m |
| Ladder.SmallGearAt | src/hooks/useGrids.ts:182-183 | the small rung of iteration i is at gear 1 - 0.05 i |
| Ladder.SmallRung | src/hooks/useGrids.ts:141-150 | the m-th small rung of the ladder is the small rung of iteration m |
| Ladder.RungGear | src/hooks/useGrids.ts:159-183 | a rung sits at gear 1 - (i / cadence) * spacing |
| Ladder.CoarseGears | src/hooks/useGrids.ts:154-159 | the q-th middle (big) rung of the ladder, counting from 0, sits at gear 1 - 0.15 (q + 1) (1 - 0.3 (q + 1), lines 169-174), the gear of the counter just incremented to q + 1 |
| Ladder.CoarseRungGear | src/hooks/useGrids.ts:154-159 | the rung of the iteration that emits the q-th coarse rung sits at 1 - (q + 1) * spacing |
| Ladder.EmitCount | src/hooks/useGrids.ts:153-154 | the iteration that emits the q-th coarse rung has passed q + 1 cadences |
| Ladder.CoarseGearMatchesSmall | src/hooks/useGrids.ts:159-174 | an emitted middle or big rung has the same gear as the small rung of its iteration, 1 - 0.05 i |
| Ladder.IterationAmount | src/hooks/useGrids.ts:136-178 | every rung of iteration i is `createGrid` for that iteration's one amount, at its own gear and spacing |
| Ladder.OnlySmallWhenFlagsOff | src/hooks/useGrids.ts:152-180 | with both flags off the ladder has exactly one rung per iteration, all small |
| Ladder.ScheduleSmallOnly | src/hooks/useGrids.ts:152-180 | with both flags off every iteration fills exactly one small slot |
| Ladder.LadderRungsSound | src/hooks/useGrids.ts:63-102 | for settings in range, every rung of the ladder has 0 < buy price < sell price, 0 <= sell lot <= buy lot, profit >= 0, retained profit >= 0, and sold + retained = proceeds |
| Grids.GridSound | src/hooks/useGrids.ts:72-86 | a rung for a non-negative amount and a ratio in [0, 1] has 0 < buy price < sell price, 0 <= sell lot <= buy lot, profit >= 0, retained profit >= 0, and sold + retained = proceeds |
| Ladder.RungSound | src/hooks/useGrids.ts:63-102 | the same facts for one rung |
| Ladder.SampleLadder | src/hooks/useGrids.ts:104-187 | price 10, amount 1000, decline 10%, flags off: the loop runs three times and pushes three rungs, all small |
| Ladder.SampleLots | src/hooks/useGrids.ts:136-150 | in that configuration the small rungs are at gears 1, 0.95, 0.9 and buy 100, 105, 111 units |
| Ladder.SampleRung | src/hooks/useGrids.ts:136-150 | in that configuration, the small rung of iteration i buys floor(1000 / (10 (1 - 0.05 i))) units |
| Ladder.SampleAmount | src/hooks/useGrids.ts:136-139 | in that configuration every iteration requests exactly 1000 |
| Ladder.SampleCount | src/hooks/useGrids.ts:127-135 | in that configuration the loop runs three times |
| Ladder.SampleBuy | src/hooks/useGrids.ts:72-74 | a rung buying for 1000 at price 10 * gear buys floor(1000 / (10 gear)) units |
| Ladder.OneStepDecline | src/hooks/useGrids.ts:127-135 | a decline of exactly 0.05 runs the loop twice: gear 0.95 equals the floor, gear 0.9 is below it |
| Ladder.SampleMiddle | src/hooks/useGrids.ts:152-165 | decline 15% with the middle grid on: five rungs, the only middle one from iteration 3, at gear 0.85 like that iteration's small rung |
| Ladder.SampleMiddleSchedule | src/hooks/useGrids.ts:152-165 | four iterations with only the middle grid on fill five slots |

## Left out

- The application store read by `useAppState` (src/hooks/useGrids.ts:105) is not modelled. The settings are the `Config` parameter instead. `src/common/store` is not part of this model.
- IEEE double arithmetic is not modelled; all prices and amounts are exact reals. This covers `divide` with `toPrecision(14)` (the cadence constants are the exact 3 and 6), and float drift in `1 - i * 0.05` and in `minGear`. In doubles a decline of 0.7 gives `minGear` = 0.30000000000000004, above the gear `toFixedNumber(1 - 14 * 0.05)` = 0.3, so the code runs 14 iterations where `IterationCount` gives 15. It also covers `toFixed` switching to exponential notation for values of 1e21 and above.
- Grids.CreateGrid: the return rate is the exact percentage (or NaN), not the string `toFixedString(..., 2) + '%'`. The two-decimal rendering and the `%` suffix are display formatting.
- Display labels of `GearType` (the strings of src/hooks/useGrids.ts:4-8) are not modelled; the enum is a plain datatype.
- Ladder.UseGrids: requires a positive price and a decline below 100% (`Valid`), and so do `Rung` and `Grids.CreateGrid` (a positive price, gear and spacing). The flooring relation `IsFloorOf` and every bound on the lots are stated for a positive unit price. The code itself accepts any settings. With a negative price it computes negative buy and sell prices and floors the amount over them without any division by zero. With a price of 0, or a gear that reaches 0, it divides by zero and produces Infinity or NaN fields, which exact reals do not have. Neither case is modelled.
- Ladder.LadderRungsSound: assumes a non-negative amount and increase and a retention ratio in [0, 1]. Outside these ranges the code still runs, but the bounds need not hold. For example, with price 10, amount 1000 and the gear-1 small rung, a ratio of -1 sells 104 units of a lot of 100, and a ratio above (gear + spacing) / spacing = 21 makes the sell lot negative (`Grids.RetentionOutOfRange` shows both, for ratios -1 and 22).
