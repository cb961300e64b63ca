# MATSim core pieces in Dafny

This project models four pieces of the MATSim transport simulation and proves properties of them.

- **Replanner selection** (`ReplannerSelection`), from the search-acceleration module. Once per iteration, `ReplannerIdentifier.drawReplanners` walks the population in shuffled order. For each driver:
  - a score updater supplies the change of the objective if the driver replans ("if one") and if it does not ("if zero");
  - a recipe chosen by the configured mode answers yes or no;
  - the chosen branch is added to the running score and to the greedy diagnostics;
  - the updater hands back the residuals the next driver sees.

  The pure function `Run` states what one pass computes. `SelectionWalk` (the loop) and the class `ReplannerIdentifier` are proved against it. The score updater, the count-indicator utilities and the four recipes are passed in as functions.
- **Time-sliced link travel times** (`LinkTravelTimes`), from `TravelTimeCalculatorImpl2`. Link-enter events leave a pending record per agent. A matching link-leave event becomes one traversal, which the link's `TravelTimeRole` records under the slot of the enter time. Each role has a current-slot accumulator (`currIdx`, `currCnt`, `currTimeSum`) and a slot → (sum, count) map. The accumulator is flushed into the map whenever a traversal falls into another slot.
  - The classes are proved against the pure functions `SwitchSlot` and `Record`.
  - `Reading` is the slot reading as Java computes it, which divides 0 by 0 for a slot with a zero count. `GuardedReading` is the reading with that case guarded (see Findings). The role and the calculator offer both readings: `GetTravelTimeAsWritten`/`GetLinkTravelTimeAsWritten` as written, `GetTravelTime`/`GetLinkTravelTime` guarded.
  - A ghost history of traversals and the predicate `Accounts` state what the numbers mean while slots never go back.
- **Random plan selection** (`RandomPlanSelector`). `selectPlan` returns no plan for a person without plans, and otherwise the plan at `(int) (r * n)`.
- **The age term of the social-network ERGM** (`ErgmAge`). `changeStatistic` is theta * min(age1, age2) / max(age1, age2).

Java's numeric behaviour is written out in `JavaNumerics`:
- `(int)` truncates toward zero and saturates at the int range.
- Integer division truncates toward zero.
- A double division by zero yields a non-finite value (`Quotient.NonFinite`) and does not throw.

`Sorting` gives `Collections.sort` as a sorted permutation. `Wrappers` holds `Option`/`Result` and the map lookup that stands for Java's `null`-returning `Map.get`.

## Model

Paths are relative to the repository root. RI is `contribs/pseudosimulation/src/main/java/org/matsim/contrib/pseudosimulation/searchacceleration/ReplannerIdentifier.java`, TT is `matsim/src/playground/gregor/travaletimecalc/TravelTimeCalculatorImpl2.java`.

| member | source | states |
|---|---|---|
| ReplannerSelection.UniformReplanningObjective | contribs/pseudosimulation/src/main/java/org/matsim/contrib/pseudosimulation/searchacceleration/ReplannerIdentifier.java:82-84 | The objective of uniform replanning is 0 when nobody replans (rate 0) and S + delta when everybody replans (rate 1). |
| ReplannerSelection.UniformReplanningObjectiveAsSquare | contribs/pseudosimulation/src/main/java/org/matsim/contrib/pseudosimulation/searchacceleration/ReplannerIdentifier.java:82-84 | The uniform-replanning objective (2 - lambda) * lambda * (S + delta) equals (1 - (1 - lambda)^2) * (S + delta). It is 0 when nobody replans (lambda = 0) and S + delta when everybody replans (lambda = 1). |
| ReplannerSelection.UniformReplanningObjectiveBounds | contribs/pseudosimulation/src/main/java/org/matsim/contrib/pseudosimulation/searchacceleration/ReplannerIdentifier.java:82-84 | For a rate in [0, 1] and non-negative S and delta, the objective lies between 0 and S + delta. |
| ReplannerSelection.RecipeFor | contribs/pseudosimulation/src/main/java/org/matsim/contrib/pseudosimulation/searchacceleration/ReplannerIdentifier.java:164-175 | There is a recipe for each of the four modes off, accelerate, mah2007 and mah2009. There is none exactly when the mode is unrecognised. |
| ReplannerSelection.Run | contribs/pseudosimulation/src/main/java/org/matsim/contrib/pseudosimulation/searchacceleration/ReplannerIdentifier.java:179-229 | A pass takes exactly one turn per entry of the shuffled list, in list order. Each turn sees the residuals the previous turn left. |
| ReplannerSelection.SelectionWalk | contribs/pseudosimulation/src/main/java/org/matsim/contrib/pseudosimulation/searchacceleration/ReplannerIdentifier.java:183-229 | The loop ends with the totals of `Run`: the replanners in visiting order; the score equal to the objective plus each driver's chosen score change; the realized greedy change as the sum of the chosen greedy changes; the uniform greedy change as the sum of lambda * g1 + (1 - lambda) * g0; the number of drivers with min(s1, s0) < 0; one delta per driver. |
| ReplannerSelection.ReplannerIdentifier.constructor | contribs/pseudosimulation/src/main/java/org/matsim/contrib/pseudosimulation/searchacceleration/ReplannerIdentifier.java:123-147 | The weighted counts come from the physical and pseudo-simulated link usage. S is their sum of squared differences. The rate lambda, the field `rate`, is the configured mean replanning rate for the iteration. beta * totalUtilityChange = 2 * lambda * S. The pass diagnostics start out null. |
| ReplannerSelection.ReplannerIdentifier.InitialResiduals | contribs/pseudosimulation/src/main/java/org/matsim/contrib/pseudosimulation/searchacceleration/ReplannerIdentifier.java:155-160 | A pass starts from the rate-weighted count difference as interaction residual, with its sum of squares kept beside it, and no regularization. The inertia residual is the whole utility change when nobody replans, 0 when everybody does, and in between for a rate in [0, 1]. |
| ReplannerSelection.ReplannerIdentifier.DrawReplanners | contribs/pseudosimulation/src/main/java/org/matsim/contrib/pseudosimulation/searchacceleration/ReplannerIdentifier.java:151-234 | An unrecognised mode fails and leaves every field unchanged. Otherwise the result, score, both greedy changes and the share count/size all equal those of `Run`. The pass's deltas are appended to the earlier ones. The replanners are distinct members of the population. |
| ReplannerSelection.ReplannerIdentifier.GetDeltaForUniformReplanning | contribs/pseudosimulation/src/main/java/org/matsim/contrib/pseudosimulation/searchacceleration/ReplannerIdentifier.java:106-111 | The delta list becomes a sorted permutation of itself. The result is the element at min(n - 1, p * n / 100), with no element before it larger and none after it smaller. A negative position fails. |
| ReplannerSelection.ReplannersAreTheChosen | contribs/pseudosimulation/src/main/java/org/matsim/contrib/pseudosimulation/searchacceleration/ReplannerIdentifier.java:198-201 | A driver is among the replanners if and only if one of its turns was answered yes. |
| ReplannerSelection.ReplannersDistinct | contribs/pseudosimulation/src/main/java/org/matsim/contrib/pseudosimulation/searchacceleration/ReplannerIdentifier.java:179-201 | When the visited drivers are distinct, so are the replanners. |
| ReplannerSelection.ReplannersOfShuffle | contribs/pseudosimulation/src/main/java/org/matsim/contrib/pseudosimulation/searchacceleration/ReplannerIdentifier.java:179-201 | Over a shuffle of the population, the replanners are listed once each and all belong to the population. Each driver is a replanner exactly when the recipe said yes to it. |
| ReplannerSelection.ShuffleLength | contribs/pseudosimulation/src/main/java/org/matsim/contrib/pseudosimulation/searchacceleration/ReplannerIdentifier.java:180-181 | A shuffled copy of the population's key set is as long as the population. |
| ReplannerSelection.Improving | contribs/pseudosimulation/src/main/java/org/matsim/contrib/pseudosimulation/searchacceleration/ReplannerIdentifier.java:212 | A driver is score-improving exactly when one of its two score changes is negative. |
| ReplannerSelection.CountImprovingBounds | contribs/pseudosimulation/src/main/java/org/matsim/contrib/pseudosimulation/searchacceleration/ReplannerIdentifier.java:212-214 | The number of score-improving drivers lies between 0 and the number of drivers. |
| ReplannerSelection.ShareOfImprovingBounds | contribs/pseudosimulation/src/main/java/org/matsim/contrib/pseudosimulation/searchacceleration/ReplannerIdentifier.java:231 | The share of score-improving drivers is 0/0 exactly when no driver was visited. Otherwise it lies in [0, 1]. |
| ReplannerSelection.ShareOfShuffleBounds | contribs/pseudosimulation/src/main/java/org/matsim/contrib/pseudosimulation/searchacceleration/ReplannerIdentifier.java:231 | Over a shuffle of the population, the share is 0/0 exactly for an empty population. Otherwise it lies in [0, 1]. |
| ReplannerSelection.UniformGreedyIsMixture | contribs/pseudosimulation/src/main/java/org/matsim/contrib/pseudosimulation/searchacceleration/ReplannerIdentifier.java:209-210 | The uniform greedy change equals lambda * (sum of g1) + (1 - lambda) * (sum of g0). |
| ReplannerSelection.NoImprovingNoDecrease | contribs/pseudosimulation/src/main/java/org/matsim/contrib/pseudosimulation/searchacceleration/ReplannerIdentifier.java:200-214 | With no score-improving driver, the final score is at least the uniform objective. |
| ReplannerSelection.PercentileIndex | contribs/pseudosimulation/src/main/java/org/matsim/contrib/pseudosimulation/searchacceleration/ReplannerIdentifier.java:108-109 | The percentile position never exceeds n - 1. |
| ReplannerSelection.PercentileIndexInRange | contribs/pseudosimulation/src/main/java/org/matsim/contrib/pseudosimulation/searchacceleration/ReplannerIdentifier.java:108-110 | For a non-negative percentile and a non-empty list, the position is valid. |
| ReplannerSelection.PercentileIndexMonotone | contribs/pseudosimulation/src/main/java/org/matsim/contrib/pseudosimulation/searchacceleration/ReplannerIdentifier.java:108-109 | A higher percentile never gives an earlier position. |
| ReplannerSelection.FullPercentileIsLast | contribs/pseudosimulation/src/main/java/org/matsim/contrib/pseudosimulation/searchacceleration/ReplannerIdentifier.java:108-109 | A percentile of 100 or more picks the last, that is the largest, delta. |
| Sorting.Sort | contribs/pseudosimulation/src/main/java/org/matsim/contrib/pseudosimulation/searchacceleration/ReplannerIdentifier.java:107 | The sorted list is in ascending order and is a permutation of the input. |
| JavaNumerics.DoubleToInt | matsim/src/playground/gregor/travaletimecalc/TravelTimeCalculatorImpl2.java:116-119 | The `(int)` cast stays in the int range and drops the fraction toward zero. It saturates beyond the range. |
| JavaNumerics.Div | matsim/src/playground/gregor/travaletimecalc/TravelTimeCalculatorImpl2.java:116-119 | Integer division by a positive divisor rounds toward zero, for both signs of the dividend. |
| JavaNumerics.Divide | matsim/src/playground/gregor/travaletimecalc/TravelTimeCalculatorImpl2.java:210-224 | A double division is finite exactly when the divisor is non-zero, and then it is the exact quotient. |
| LinkTravelTimes.SlotIndex | matsim/src/playground/gregor/travaletimecalc/TravelTimeCalculatorImpl2.java:116-119 | A non-negative time gets a non-negative slot and a negative time a slot of at most 0. A non-negative time within the int range lies inside its slot [k * ts, (k + 1) * ts). |
| LinkTravelTimes.SlotOfTime | matsim/src/playground/gregor/travaletimecalc/TravelTimeCalculatorImpl2.java:116-119 | For non-negative times within the int range, every time in [k * ts, (k + 1) * ts) falls into slot k. |
| LinkTravelTimes.NegativeTimesShareSlotZero | matsim/src/playground/gregor/travaletimecalc/TravelTimeCalculatorImpl2.java:116-119 | Because the cast truncates, times in (-ts, 0) also fall into slot 0. |
| LinkTravelTimes.SwitchSlot | matsim/src/playground/gregor/travaletimecalc/TravelTimeCalculatorImpl2.java:187-208 | Switching slots works in two steps. First the accumulator is flushed under the old slot: inserted when absent, added to the stored entry when present. Then the new slot's entry, or zeros, is loaded, and that entry stays in the map. Other entries are kept. |
| LinkTravelTimes.Record | matsim/src/playground/gregor/travaletimecalc/TravelTimeCalculatorImpl2.java:177-185 | The slot of `now` becomes current. If it already was, the map is kept and the count and sum grow by one and by the duration. Otherwise the old slot is flushed into the map, and the count and sum become those stored for the new slot, or zeros, plus this traversal. |
| LinkTravelTimes.Reading | matsim/src/playground/gregor/travaletimecalc/TravelTimeCalculatorImpl2.java:210-224 | As written: the current slot, or a stored slot, reads as its sum divided by its count, and is finite exactly when that count is non-zero. A slot that is neither reads as the free-flow time. |
| LinkTravelTimes.ClearedAccountsForNothing | matsim/src/playground/gregor/travaletimecalc/TravelTimeCalculatorImpl2.java:170-175 | The reset state accounts exactly for no traversals. |
| LinkTravelTimes.RecordKeepsAccounts | matsim/src/playground/gregor/travaletimecalc/TravelTimeCalculatorImpl2.java:177-208 | Recording a traversal in the current slot or a later one keeps the sum and count of every slot equal to those of the recorded traversals. |
| LinkTravelTimes.ReadingIsMean | matsim/src/playground/gregor/travaletimecalc/TravelTimeCalculatorImpl2.java:210-224 | While the accounts are exact, a slot with traversals reads as the mean of their durations. |
| LinkTravelTimes.UntravelledSlotReading | matsim/src/playground/gregor/travaletimecalc/TravelTimeCalculatorImpl2.java:210-224 | A slot without traversals reads as the free-flow time or, as written, as 0/0. |
| LinkTravelTimes.SlotZeroReadsNonFinite | matsim/src/playground/gregor/travaletimecalc/TravelTimeCalculatorImpl2.java:210-214 | Slot 0 reads as 0/0 right after a reset. It still does after a first traversal in slot 5 flushes the empty accumulator into slot 0. |
| LinkTravelTimes.GuardedReadingIsMeanOrFreeFlow | matsim/src/playground/gregor/travaletimecalc/TravelTimeCalculatorImpl2.java:210-224 | With exact accounts, the guarded reading is the mean of the slot's traversals, or the free-flow time when there are none. It is never 0/0. |
| LinkTravelTimes.GuardedReading | matsim/src/playground/gregor/travaletimecalc/TravelTimeCalculatorImpl2.java:210-224 | The corrected reading agrees with `Reading` wherever that is finite, and is the free-flow time where `Reading` is 0/0. |
| LinkTravelTimes.RevisitedSlotCountedTwice | matsim/src/playground/gregor/travaletimecalc/TravelTimeCalculatorImpl2.java:187-208 | A slot visited again is counted again on the next flush. Traversals of 10 s and 30 s in slot 1, interleaved with slot 2, leave (50, 3) for slot 1 and a reading of 50/3. |
| LinkTravelTimes.TravelTimeRole.constructor | matsim/src/playground/gregor/travaletimecalc/TravelTimeCalculatorImpl2.java:163-168 | A new role has the link's free-flow time and is in the reset state. |
| LinkTravelTimes.TravelTimeRole.ResetTravelTimes | matsim/src/playground/gregor/travaletimecalc/TravelTimeCalculatorImpl2.java:170-175 | After a reset the current slot is 0 with count 0 and sum 0, the slot map is empty and nothing is recorded. |
| LinkTravelTimes.TravelTimeRole.AddTravelTime | matsim/src/playground/gregor/travaletimecalc/TravelTimeCalculatorImpl2.java:177-185 | The new state is `Record` of the old: switch slots only when the slot differs, then count the traversal and add its duration. The exact-accounts invariant is kept whenever slots do not go back. |
| LinkTravelTimes.TravelTimeRole.ChangeCurrent | matsim/src/playground/gregor/travaletimecalc/TravelTimeCalculatorImpl2.java:187-208 | The new state is `SwitchSlot` of the old. |
| LinkTravelTimes.TravelTimeRole.GetTravelTime | matsim/src/playground/gregor/travaletimecalc/TravelTimeCalculatorImpl2.java:210-224 | While slots were recorded in order, a slot reads as the mean of its traversals, or as the free-flow time when it has none. This is the corrected reading (see Findings): it equals the as-written reading where that is finite, and the free-flow time where it is 0/0. |
| LinkTravelTimes.TravelTimeRole.GetTravelTimeAsWritten | matsim/src/playground/gregor/travaletimecalc/TravelTimeCalculatorImpl2.java:210-224 | As written: while slots were recorded in order, a slot with traversals reads as their mean, and one without reads as the free-flow time or as 0/0. |
| LinkTravelTimes.MakeRoles | matsim/src/playground/gregor/travaletimecalc/TravelTimeCalculatorImpl2.java:107-114 | Each link gets its own fresh, reset role with its free-flow time. No two links share a role. |
| LinkTravelTimes.TravelTimeCalculator.constructor | matsim/src/playground/gregor/travaletimecalc/TravelTimeCalculatorImpl2.java:48-64 | The calculator keeps the timeslice, has one reset role per network link and has no pending enter events. |
| LinkTravelTimes.TravelTimeCalculator.ResetTravelTimes | matsim/src/playground/gregor/travaletimecalc/TravelTimeCalculatorImpl2.java:66-72 | Every link's role is reset and the pending enter events are cleared. |
| LinkTravelTimes.TravelTimeCalculator.Reset | matsim/src/playground/gregor/travaletimecalc/TravelTimeCalculatorImpl2.java:75-77 | A new iteration starts from reset roles and no pending events. |
| LinkTravelTimes.TravelTimeCalculator.HandleLinkEnter | matsim/src/playground/gregor/travaletimecalc/TravelTimeCalculatorImpl2.java:83-86 | The agent's pending record becomes (link, time), replacing any earlier one. No role changes. |
| LinkTravelTimes.TravelTimeCalculator.HandleLinkLeave | matsim/src/playground/gregor/travaletimecalc/TravelTimeCalculatorImpl2.java:88-97 | The agent's pending record is always removed. Only when it was for the same network link does that link's role record leave time minus enter time, under the slot of the enter time. Its history gains that traversal, and it stays in order only if the enter time's slot is not before its current slot. Every other role is unchanged. |
| LinkTravelTimes.TravelTimeCalculator.HandleAgentArrival | matsim/src/playground/gregor/travaletimecalc/TravelTimeCalculatorImpl2.java:99-105 | The agent's pending record is removed and nothing else changes. |
| LinkTravelTimes.TravelTimeCalculator.GetLinkTravelTime | matsim/src/playground/gregor/travaletimecalc/TravelTimeCalculatorImpl2.java:129-131 | A link's travel time at a given time is its role's guarded reading. While the role's slots were recorded in order, it is the slot mean, or the free-flow time for a slot without traversals. It equals the as-written reading where that is finite. |
| LinkTravelTimes.TravelTimeCalculator.GetLinkTravelTimeAsWritten | matsim/src/playground/gregor/travaletimecalc/TravelTimeCalculatorImpl2.java:129-131 | As written: the role's unguarded reading. While the slots were recorded in order, it is the slot mean for a slot with traversals, and the free-flow time or 0/0 for one without. |
| RandomPlanSelector.DrawIndex | matsim/src/main/java/org/matsim/core/replanning/selectors/RandomPlanSelector.java:46 | For a draw in [0, 1) and n > 0 plans, the index `(int) (r * n)` is below n. |
| RandomPlanSelector.DrawIndexIsFloor | matsim/src/main/java/org/matsim/core/replanning/selectors/RandomPlanSelector.java:46 | The index is the floor of r * n. |
| RandomPlanSelector.SelectPlan | matsim/src/main/java/org/matsim/core/replanning/selectors/RandomPlanSelector.java:40-48 | No plan is returned exactly when the person has none. Otherwise the result is one of the person's plans, the one at the drawn index. |
| RandomPlanSelector.ZeroDrawSelectsFirst | matsim/src/main/java/org/matsim/core/replanning/selectors/RandomPlanSelector.java:46-47 | The draw 0 selects the first plan. |
| RandomPlanSelector.DrawIndexMonotone | matsim/src/main/java/org/matsim/core/replanning/selectors/RandomPlanSelector.java:46 | A larger draw never selects an earlier plan. |
| RandomPlanSelector.DrawIndexInterval | matsim/src/main/java/org/matsim/core/replanning/selectors/RandomPlanSelector.java:46 | Plan i is chosen exactly for the draws in [i/n, (i+1)/n), so each plan has an interval of width 1/n. |
| ErgmAge.ChangeStatistic | matsim/src/playground/johannes/socialnet/mcmc/ErgmAge.java:38-47 | The statistic is finite exactly when the larger age is non-zero, and then it times max(age1, age2) equals theta * min(age1, age2). |
| ErgmAge.ChangeStatisticSymmetric | matsim/src/playground/johannes/socialnet/mcmc/ErgmAge.java:38-47 | Swapping the two egos, or changing whether the tie exists, does not change the statistic. |
| ErgmAge.EqualAgesGiveTheta | matsim/src/playground/johannes/socialnet/mcmc/ErgmAge.java:47 | Two egos of the same non-zero age score exactly theta. |
| ErgmAge.ChangeStatisticBounds | matsim/src/playground/johannes/socialnet/mcmc/ErgmAge.java:47 | For positive ages the statistic is finite and lies between 0 (excluded) and theta (included), on theta's side of 0. |

## Left out

- Collaborator code is abstract:
  - `ScoreUpdater`, `CountIndicatorUtils`, `DynamicData`, `SpaceTimeIndicators` and the four recipe classes are not part of this model. They are parameters: functions of the inputs ReplannerIdentifier.java passes them.
  - The configuration argument of the score updater is folded into the updater function.
  - `newWeightedCounts` receives the usage map rather than its `values()` collection.
  - The in-place update of the interaction residuals is a returned new field.
  - Whatever randomness a recipe uses is folded into its decision function.
- `Collections.shuffle` is left out; the shuffled order is a parameter, required to list each member of the population once.
- `MatsimRandom.getRandom().nextDouble()` is left out; the draw is a parameter r with 0 <= r < 1.
- Link-role plumbing is replaced:
  - `requestLinkRole`, `getRole`/`setRole` and `Network.getLocation` are not modelled. The calculator instead creates one role per network link up front, which is indistinguishable from the lazy creation because a fresh role is a reset role.
  - A leave event on a link outside the network changes no role, as when `getLocation` returns null.
- The free-flow time `length / freespeed` is a given per-link number. A zero free speed, which would make it infinite, is not modelled.
- The slot-count capacity hint (`expectNumSlots`, `maxTime`) and `toString` are left out; they only size a hash map and name the class.
- The ErgmAge adjacency-matrix lookup of the two egos' ages is not modelled; the ages and theta are parameters.
- Floating-point rounding is not modelled: doubles are exact reals. NaN and infinity appear only as `Quotient.NonFinite`, where a double division by zero can happen.
- Java int overflow is not modelled for the role counters (`currCnt`, `cnt`), the improving-driver counter, or the product `percentile * size` in the percentile accessor.
- Java's `LinkedHashSet` of replanners is a sequence without repeats. Because the order lists every driver once, an add never meets a driver already present.
- The diagnostic getters are not separate members; they return the fields as they are, and the model reads those fields directly.
- The commented-out residual check and the commented-out equal-age rule in ErgmAge are left out.
- ReplannerSelection.ReplannerIdentifier.constructor: requires totalUtilityChange != 0. Java computes beta without a guard and would get an infinity or NaN.
- ReplannerSelection.ReplannerIdentifier.DrawReplanners: the fields are assigned once after the loop instead of during it. The end state is the same, since nothing observes the object mid-pass. An unrecognised mode is a `Failure` result instead of a `RuntimeException`.
- ReplannerSelection.ReplannerIdentifier.GetDeltaForUniformReplanning: Java's `IndexOutOfBoundsException` for a negative position, such as an empty list, is a `Failure` result.
- LinkTravelTimes.SlotIndex: requires a positive timeslice. A zero timeslice already makes the Java constructor throw `ArithmeticException`; a negative one, which Java accepts, is not modelled.
- LinkTravelTimes.TravelTimeCalculator.constructor: requires a positive timeslice, for the same reason as `SlotIndex`. So do `MakeRoles`, `TravelTimeRole.constructor` and `TravelTimeRole.ResetTravelTimes`, which keep the calculator's timeslice.
- LinkTravelTimes.TravelTimeRole.GetTravelTime: models the corrected reading of the finding below. The reading as written is `GetTravelTimeAsWritten`, which is `Reading` of the role's state, and `SlotZeroReadsNonFinite` shows where the two differ.
- LinkTravelTimes.TravelTimeCalculator.GetLinkTravelTime: returns the corrected reading. For a slot with a zero count, Java's `getLinkTravelTime` returns 0/0, which is NaN; that reading is `GetLinkTravelTimeAsWritten`.
- LinkTravelTimes.RecordKeepsAccounts: exact accounting is proved only while a link's traversals arrive in non-decreasing slot order. For out-of-order slots, `RevisitedSlotCountedTwice` shows the double counting as written.
- `CapeTownControler`, `ThetaExplorer` and `PlansReplanning` are not part of this model.

## Findings

| source | as written | input that shows it | evidently intended | confidence | as-written member | corrected member |
|---|---|---|---|---|---|---|
| matsim/src/playground/gregor/travaletimecalc/TravelTimeCalculatorImpl2.java:210-224 | `getTravelTime` divides by the slot count even when that count is 0. That happens for slot 0, which is current with count 0 after a reset and is flushed as the entry (0, 0) by the first traversal in another slot. | With 15-minute slots: a reset, then one traversal entering at 4500 s; then a query for time 0. The result is 0/0, which is NaN. | A slot without traversals reads as the link's free-flow time, like a slot that was never stored. | medium, not executed | LinkTravelTimes.SlotZeroReadsNonFinite | LinkTravelTimes.GuardedReadingIsMeanOrFreeFlow |
