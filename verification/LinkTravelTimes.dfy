/**
 * A per-link, time-sliced travel-time calculator driven by simulation events.
 *
 * Link-enter events leave a pending record per agent; the matching link-leave event turns it
 * into one traversal time, which the link's role adds to an accumulator for the time slot of
 * the ENTER time. The accumulator (`currIdx`, `currCnt`, `currTimeSum`) is flushed into the
 * slot -> (sum, count) map whenever a traversal falls into another slot, and the stored entry of
 * the new slot is loaded back into the accumulator while staying in the map.
 *
 * The pure part of this module (`Accumulator`, `SwitchSlot`, `Record`) states what the role's methods
 * do; `Reading` is the reading as Java computes it, which divides 0 by 0 for a slot with a zero count,
 * and `GuardedReading` the reading with that case guarded. The role and the calculator offer both. The
 * ghost history of traversals and the predicate `Accounts` state what the numbers mean while
 * traversals never go back to an earlier slot.
 */
module LinkTravelTimes {
  import JavaNumerics
  import opened Wrappers

  type AgentId = string
  type LinkId = string

  /** The default slot length, fifteen minutes in seconds. */
  const DefaultTimeslice: int := 15 * 60

  // ---------------------------------------------------------------- time slots

  /** `getTimeSlotIndex`: `((int) time) / timeslice`; the cast and the division both round toward zero. */
  function SlotIndex(time: real, timeslice: int): (k: int)
    requires timeslice > 0
    ensures 0.0 <= time ==> k >= 0
    ensures time < 0.0 ==> k <= 0
    ensures 0.0 <= time < JavaNumerics.IntMax as real ==>
      (k * timeslice) as real <= time < (k * timeslice + timeslice) as real
  {
    JavaNumerics.Div(JavaNumerics.DoubleToInt(time), timeslice)
  }

  /** For non-negative times within the `int` range, slot k holds exactly the times of [k*ts, (k+1)*ts). */
  lemma SlotOfTime(time: real, timeslice: int, k: int)
    requires timeslice > 0 && 0 <= k
    requires 0.0 <= time < JavaNumerics.IntMax as real
    requires (k * timeslice) as real <= time < (k * timeslice + timeslice) as real
    ensures SlotIndex(time, timeslice) == k
  {
    var c := JavaNumerics.DoubleToInt(time);
    assert k * timeslice <= c < k * timeslice + timeslice;
    QuotientUnique(c, timeslice, k, JavaNumerics.Div(c, timeslice));
  }

  /** Because the cast rounds toward zero, the times of (-ts, 0) fall into slot 0 as well. */
  lemma NegativeTimesShareSlotZero(time: real, timeslice: int)
    requires timeslice > 0
    requires -(timeslice as real) < time < 0.0
    ensures SlotIndex(time, timeslice) == 0
  {
    var c := JavaNumerics.DoubleToInt(time);
    assert -timeslice < c <= 0;
    QuotientUnique(-c, timeslice, 0, (-c) / timeslice);
  }

  /** The quotient of a non-negative number by a positive one is unique. */
  lemma QuotientUnique(c: int, d: int, k: int, q: int)
    requires d > 0 && 0 <= c
    requires k * d <= c < k * d + d
    requires q * d <= c < q * d + d
    ensures k == q
  {
    JavaNumerics.MulMonotone(k + 1, q, d);
    JavaNumerics.MulMonotone(q + 1, k, d);
    assert (k + 1) * d == k * d + d && (q + 1) * d == q * d + d;
  }

  // ---------------------------------------------------------------- the accumulator, as values

  /** `TimeStruct`: the stored sum and count of one slot. */
  datatype TimeStruct = TimeStruct(timeSum: real, cnt: int)

  /** The state of a `TravelTimeRole`: the slot map and the accumulator of the current slot. */
  datatype Accumulator = Accumulator(travelTimes: map<int, TimeStruct>, currIdx: int, currCnt: int, currTimeSum: real)

  /** The state right after `resetTravelTimes`. */
  const Cleared := Accumulator(map[], 0, 0, 0.0)

  /**
   * `changeCurrent(index)`: flush the accumulator into the entry of the old slot (insert it, or add
   * it to the entry already there), then load the new slot's entry, or zeros, leaving that entry in the map.
   */
  function SwitchSlot(a: Accumulator, index: int): (b: Accumulator)
    ensures b.currIdx == index
    ensures b.travelTimes.Keys == a.travelTimes.Keys + {a.currIdx}
    ensures forall k :: k in a.travelTimes && k != a.currIdx ==> b.travelTimes[k] == a.travelTimes[k]
    ensures a.currIdx !in a.travelTimes ==> b.travelTimes[a.currIdx] == TimeStruct(a.currTimeSum, a.currCnt)
    ensures a.currIdx in a.travelTimes ==>
      b.travelTimes[a.currIdx].cnt == a.travelTimes[a.currIdx].cnt + a.currCnt &&
      b.travelTimes[a.currIdx].timeSum == a.travelTimes[a.currIdx].timeSum + a.currTimeSum
    ensures index in b.travelTimes ==> b.currCnt == b.travelTimes[index].cnt && b.currTimeSum == b.travelTimes[index].timeSum
    ensures index !in b.travelTimes ==> b.currCnt == 0 && b.currTimeSum == 0.0
  {
    var saved :=
      if a.currIdx in a.travelTimes then
        var entry := a.travelTimes[a.currIdx];
        a.travelTimes[a.currIdx := TimeStruct(entry.timeSum + a.currTimeSum, entry.cnt + a.currCnt)]
      else
        a.travelTimes[a.currIdx := TimeStruct(a.currTimeSum, a.currCnt)];
    if index in saved then Accumulator(saved, index, saved[index].cnt, saved[index].timeSum)
    else Accumulator(saved, index, 0, 0.0)
  }

  /** `addTravelTime(now, travelTime)`: switch slots only when `now` falls into another slot, then count the traversal. */
  function Record(a: Accumulator, timeslice: int, now: real, travelTime: real): (r: Accumulator)
    requires timeslice > 0
    ensures r.currIdx == SlotIndex(now, timeslice)
    ensures r.currIdx == a.currIdx ==>
      r.travelTimes == a.travelTimes && r.currCnt == a.currCnt + 1 && r.currTimeSum == a.currTimeSum + travelTime
    ensures r.currIdx != a.currIdx ==>
      r.travelTimes.Keys == a.travelTimes.Keys + {a.currIdx} &&
      r.currCnt == (if r.currIdx in a.travelTimes then a.travelTimes[r.currIdx].cnt else 0) + 1 &&
      r.currTimeSum == (if r.currIdx in a.travelTimes then a.travelTimes[r.currIdx].timeSum else 0.0) + travelTime
  {
    var index := SlotIndex(now, timeslice);
    var c := if index != a.currIdx then SwitchSlot(a, index) else a;
    c.(currCnt := c.currCnt + 1, currTimeSum := c.currTimeSum + travelTime)
  }

  /**
   * `getTravelTime(now)`: the current slot's average, the stored slot's average, or the free-flow
   * time for a slot that is neither. A zero count makes Java divide 0 by 0.
   */
  function Reading(a: Accumulator, timeslice: int, freeTravelTime: real, now: real): (q: JavaNumerics.Quotient)
    requires timeslice > 0
    ensures var k := SlotIndex(now, timeslice);
      (k == a.currIdx ==> (q.Finite? <==> a.currCnt != 0) && (q.Finite? ==> q.value * a.currCnt as real == a.currTimeSum)) &&
      (k != a.currIdx && k !in a.travelTimes ==> q == JavaNumerics.Finite(freeTravelTime)) &&
      (k != a.currIdx && k in a.travelTimes ==>
        (q.Finite? <==> a.travelTimes[k].cnt != 0) && (q.Finite? ==> q.value * a.travelTimes[k].cnt as real == a.travelTimes[k].timeSum))
  {
    var index := SlotIndex(now, timeslice);
    if index == a.currIdx then JavaNumerics.Divide(a.currTimeSum, a.currCnt as real)
    else if index !in a.travelTimes then JavaNumerics.Finite(freeTravelTime)
    else JavaNumerics.Divide(a.travelTimes[index].timeSum, a.travelTimes[index].cnt as real)
  }

  /** One completed link traversal: the slot of its enter time and its duration. */
  datatype Traversal = Traversal(slot: int, travelTime: real)

  /** The number of traversals of `h` in slot `k`. */
  function CountIn(h: seq<Traversal>, k: int): nat
  {
    if h == [] then 0
    else CountIn(h[..|h| - 1], k) + (if h[|h| - 1].slot == k then 1 else 0)
  }

  /** The total duration of the traversals of `h` in slot `k`. */
  function SumIn(h: seq<Traversal>, k: int): real
  {
    if h == [] then 0.0
    else SumIn(h[..|h| - 1], k) + (if h[|h| - 1].slot == k then h[|h| - 1].travelTime else 0.0)
  }

  /** A slot with no traversal has a zero sum. */
  lemma {:induction false} EmptySlotSumsToZero(h: seq<Traversal>, k: int)
    requires CountIn(h, k) == 0
    ensures SumIn(h, k) == 0.0
  {
    if h != [] {
      EmptySlotSumsToZero(h[..|h| - 1], k);
    }
  }

  /**
   * The accumulator holds exactly the traversals of `h`: the current slot's count and sum, every
   * stored slot's count and sum, and no traversal in a slot that is neither. Stored slots lie below
   * the current one.
   */
  ghost predicate Accounts(a: Accumulator, h: seq<Traversal>)
  {
    a.currCnt == CountIn(h, a.currIdx) && a.currTimeSum == SumIn(h, a.currIdx) &&
    (forall k :: k in a.travelTimes ==> k < a.currIdx && a.travelTimes[k] == TimeStruct(SumIn(h, k), CountIn(h, k))) &&
    (forall k :: k != a.currIdx && k !in a.travelTimes ==> CountIn(h, k) == 0)
  }

  lemma ClearedAccountsForNothing()
    ensures Accounts(Cleared, [])
  {
  }

  /**
   * Recording a traversal whose slot is not below the current one keeps the accounts exact:
   * flushing moves the current slot's totals into the map unchanged, and the new slot starts empty.
   */
  lemma RecordKeepsAccounts(a: Accumulator, h: seq<Traversal>, timeslice: int, now: real, travelTime: real)
    requires timeslice > 0
    requires Accounts(a, h)
    requires SlotIndex(now, timeslice) >= a.currIdx
    ensures Accounts(Record(a, timeslice, now, travelTime), h + [Traversal(SlotIndex(now, timeslice), travelTime)])
  {
    var index := SlotIndex(now, timeslice);
    var h' := h + [Traversal(index, travelTime)];
    assert h'[..|h'| - 1] == h;
    var b := Record(a, timeslice, now, travelTime);
    forall k | k != index
      ensures CountIn(h', k) == CountIn(h, k) && SumIn(h', k) == SumIn(h, k)
    {
    }
    assert CountIn(h', index) == CountIn(h, index) + 1;
    if index != a.currIdx {
      var c := SwitchSlot(a, index);
      assert index !in c.travelTimes;
      assert CountIn(h, index) == 0;
      EmptySlotSumsToZero(h, index);
      assert c.travelTimes[a.currIdx] == TimeStruct(SumIn(h, a.currIdx), CountIn(h, a.currIdx));
    }
  }

  /** While the accounts are exact, a slot with traversals reads as the mean of their durations. */
  lemma ReadingIsMean(a: Accumulator, h: seq<Traversal>, timeslice: int, freeTravelTime: real, now: real)
    requires timeslice > 0
    requires Accounts(a, h)
    requires CountIn(h, SlotIndex(now, timeslice)) > 0
    ensures Reading(a, timeslice, freeTravelTime, now) ==
      JavaNumerics.Finite(SumIn(h, SlotIndex(now, timeslice)) / CountIn(h, SlotIndex(now, timeslice)) as real)
  {
  }

  /**
   * While the accounts are exact, a slot without traversals reads as the free-flow time, or as
   * Java's 0/0 when it is the current slot or was flushed with nothing in it.
   */
  lemma UntravelledSlotReading(a: Accumulator, h: seq<Traversal>, timeslice: int, freeTravelTime: real, now: real)
    requires timeslice > 0
    requires Accounts(a, h)
    requires CountIn(h, SlotIndex(now, timeslice)) == 0
    ensures Reading(a, timeslice, freeTravelTime, now) in {JavaNumerics.Finite(freeTravelTime), JavaNumerics.NonFinite}
  {
  }

  /**
   * Slot 0 reads as 0/0 although nothing was recorded there: right after a reset it is the current
   * slot with a zero count, and the first traversal in another slot flushes the empty accumulator
   * into it as the entry (0, 0).
   */
  lemma SlotZeroReadsNonFinite(freeTravelTime: real)
    ensures Reading(Cleared, DefaultTimeslice, freeTravelTime, 0.0) == JavaNumerics.NonFinite
    ensures var a := Record(Cleared, DefaultTimeslice, 4500.0, 60.0);
      CountIn([Traversal(5, 60.0)], 0) == 0 &&
      Reading(a, DefaultTimeslice, freeTravelTime, 0.0) == JavaNumerics.NonFinite
  {
    SlotOfTime(0.0, DefaultTimeslice, 0);
    SlotOfTime(4500.0, DefaultTimeslice, 5);
  }

  /**
   * The travel time of a slot when a zero count is read as "no traversal": the mean of the recorded
   * traversals, or the free-flow time. It never divides by zero.
   */
  function GuardedReading(a: Accumulator, timeslice: int, freeTravelTime: real, now: real): (t: real)
    requires timeslice > 0
    ensures var q := Reading(a, timeslice, freeTravelTime, now);
      (q.Finite? ==> t == q.value) && (q.NonFinite? ==> t == freeTravelTime)
  {
    var index := SlotIndex(now, timeslice);
    if index == a.currIdx && a.currCnt != 0 then a.currTimeSum / a.currCnt as real
    else if index != a.currIdx && index in a.travelTimes && a.travelTimes[index].cnt != 0 then
      a.travelTimes[index].timeSum / a.travelTimes[index].cnt as real
    else freeTravelTime
  }

  /** With exact accounts, the guarded reading is the mean of a slot's traversals, or the free-flow time when it has none. */
  lemma GuardedReadingIsMeanOrFreeFlow(a: Accumulator, h: seq<Traversal>, timeslice: int, freeTravelTime: real, now: real)
    requires timeslice > 0
    requires Accounts(a, h)
    ensures var k := SlotIndex(now, timeslice);
      GuardedReading(a, timeslice, freeTravelTime, now) ==
        if CountIn(h, k) > 0 then SumIn(h, k) / CountIn(h, k) as real else freeTravelTime
  {
  }

  /**
   * A slot that is visited again is counted twice: with 15-minute slots, traversals of 10 and 30
   * seconds in slot 1 interleaved with traversals in slot 2 leave the entry (50, 3) for slot 1,
   * because the stored (10, 1) is loaded back into the accumulator and added to the map again.
   */
  lemma RevisitedSlotCountedTwice(freeTravelTime: real)
    ensures var a1 := Record(Cleared, DefaultTimeslice, 900.0, 10.0);
      var a2 := Record(a1, DefaultTimeslice, 1800.0, 20.0);
      var a3 := Record(a2, DefaultTimeslice, 900.0, 30.0);
      var a4 := Record(a3, DefaultTimeslice, 1800.0, 40.0);
      a4.travelTimes[1] == TimeStruct(50.0, 3) &&
      Reading(a4, DefaultTimeslice, freeTravelTime, 900.0) == JavaNumerics.Finite(50.0 / 3.0)
  {
    SlotOfTime(900.0, DefaultTimeslice, 1);
    SlotOfTime(1800.0, DefaultTimeslice, 2);
  }

  // ---------------------------------------------------------------- the link role

  /** `TravelTimeRole`: the travel-time bookkeeping attached to one link. */
  class TravelTimeRole {
    var travelTimes: map<int, TimeStruct>
    const freeTravelTime: real
    const timeslice: int
    var currIdx: int
    var currCnt: int
    var currTimeSum: real

    /** The traversals recorded since the last reset, and whether their slots never went backwards. */
    ghost var history: seq<Traversal>
    ghost var inOrder: bool

    function State(): Accumulator
      reads this
    {
      Accumulator(travelTimes, currIdx, currCnt, currTimeSum)
    }

    ghost predicate Valid()
      reads this
    {
      timeslice > 0 && (inOrder ==> Accounts(State(), history))
    }

    /** The state `resetTravelTimes` leaves: nothing recorded, slot 0 current. */
    ghost predicate IsCleared()
      reads this
    {
      Valid() && State() == Cleared && history == [] && inOrder
    }

    constructor (freeTravelTime: real, timeslice: int)
      requires timeslice > 0
      ensures IsCleared()
      ensures this.freeTravelTime == freeTravelTime && this.timeslice == timeslice
    {
      this.freeTravelTime := freeTravelTime;
      this.timeslice := timeslice;
      travelTimes := map[];
      new;
      ResetTravelTimes();
    }

    method ResetTravelTimes()
      requires timeslice > 0
      modifies this
      ensures IsCleared()
    {
      currCnt := 0;
      currIdx := 0;
      currTimeSum := 0.0;
      travelTimes := map[];
      history, inOrder := [], true;
      ClearedAccountsForNothing();
    }

    method AddTravelTime(now: real, travelTime: real)
      requires Valid()
      modifies this
      ensures Valid()
      ensures State() == Record(old(State()), timeslice, now, travelTime)
      ensures history == old(history) + [Traversal(SlotIndex(now, timeslice), travelTime)]
      ensures inOrder == (old(inOrder) && SlotIndex(now, timeslice) >= old(currIdx))
    {
      var index := SlotIndex(now, timeslice);
      ghost var before := State();
      if index != currIdx {
        ChangeCurrent(index);
      }
      currCnt := currCnt + 1;
      currTimeSum := currTimeSum + travelTime;
      history := history + [Traversal(index, travelTime)];
      inOrder := inOrder && index >= before.currIdx;
      if inOrder {
        RecordKeepsAccounts(before, old(history), timeslice, now, travelTime);
      }
    }

    method ChangeCurrent(index: int)
      modifies this`travelTimes, this`currIdx, this`currCnt, this`currTimeSum
      ensures State() == SwitchSlot(old(State()), index)
    {
      var curr := Get(travelTimes, currIdx);
      if curr.None? {
        travelTimes := travelTimes[currIdx := TimeStruct(currTimeSum, currCnt)];
      } else {
        travelTimes := travelTimes[currIdx := TimeStruct(curr.value.timeSum + currTimeSum, curr.value.cnt + currCnt)];
      }
      currIdx := index;
      curr := Get(travelTimes, currIdx);
      if curr.None? {
        currCnt := 0;
        currTimeSum := 0.0;
      } else {
        currCnt := curr.value.cnt;
        currTimeSum := curr.value.timeSum;
      }
    }

    /**
     * `getTravelTime(now)` with the zero-count guard of `GuardedReading`: while slots were recorded in
     * order, a slot reads as the mean of its traversals, or as the free-flow time when it has none.
     */
    function GetTravelTime(now: real): (t: real)
      reads this
      requires Valid()
      ensures inOrder ==> var k := SlotIndex(now, timeslice);
        t == if CountIn(history, k) > 0 then SumIn(history, k) / CountIn(history, k) as real else freeTravelTime
      ensures var q := GetTravelTimeAsWritten(now); (q.Finite? ==> t == q.value) && (q.NonFinite? ==> t == freeTravelTime)
    {
      GuardedWhileInOrder(State(), history, inOrder, timeslice, freeTravelTime, now);
      GuardedReading(State(), timeslice, freeTravelTime, now)
    }

    /**
     * `getTravelTime(now)` as written: while slots were recorded in order, a slot with traversals reads
     * as the mean of their durations, and a slot without reads as the free-flow time or as Java's 0/0.
     */
    function GetTravelTimeAsWritten(now: real): (q: JavaNumerics.Quotient)
      reads this
      requires Valid()
      ensures inOrder ==> var k := SlotIndex(now, timeslice);
        (CountIn(history, k) > 0 ==> q == JavaNumerics.Finite(SumIn(history, k) / CountIn(history, k) as real)) &&
        (CountIn(history, k) == 0 ==> q in {JavaNumerics.Finite(freeTravelTime), JavaNumerics.NonFinite})
    {
      ReadingWhileInOrder(State(), history, inOrder, timeslice, freeTravelTime, now);
      Reading(State(), timeslice, freeTravelTime, now)
    }
  }

  /** While the role's slots were recorded in order, its accounts are exact, so `Reading` is the mean or a zero-count reading. */
  lemma ReadingWhileInOrder(a: Accumulator, h: seq<Traversal>, inOrder: bool, timeslice: int, freeTravelTime: real, now: real)
    requires timeslice > 0
    requires inOrder ==> Accounts(a, h)
    ensures inOrder ==> var k := SlotIndex(now, timeslice); var q := Reading(a, timeslice, freeTravelTime, now);
      (CountIn(h, k) > 0 ==> q == JavaNumerics.Finite(SumIn(h, k) / CountIn(h, k) as real)) &&
      (CountIn(h, k) == 0 ==> q in {JavaNumerics.Finite(freeTravelTime), JavaNumerics.NonFinite})
  {
    if inOrder {
      var k := SlotIndex(now, timeslice);
      if CountIn(h, k) > 0 {
        ReadingIsMean(a, h, timeslice, freeTravelTime, now);
      } else {
        UntravelledSlotReading(a, h, timeslice, freeTravelTime, now);
      }
    }
  }

  /** While the role's slots were recorded in order, its accounts are exact, so `GuardedReading` is the mean or the free-flow time. */
  lemma GuardedWhileInOrder(a: Accumulator, h: seq<Traversal>, inOrder: bool, timeslice: int, freeTravelTime: real, now: real)
    requires timeslice > 0
    requires inOrder ==> Accounts(a, h)
    ensures inOrder ==> var k := SlotIndex(now, timeslice);
      GuardedReading(a, timeslice, freeTravelTime, now) ==
        if CountIn(h, k) > 0 then SumIn(h, k) / CountIn(h, k) as real else freeTravelTime
  {
    if inOrder {
      GuardedReadingIsMeanOrFreeFlow(a, h, timeslice, freeTravelTime, now);
    }
  }

  // ---------------------------------------------------------------- the calculator

  /** The pending record a link-enter event leaves for its agent. */
  datatype EnterEvent = EnterEvent(linkId: LinkId, time: real)

  /** A link-leave event completes a traversal when the agent's pending enter was on the same link. */
  predicate Completes(pending: map<AgentId, EnterEvent>, agentId: AgentId, linkId: LinkId)
  {
    agentId in pending && pending[agentId].linkId == linkId
  }

  /** One fresh, cleared role per link, no two links sharing a role. */
  method MakeRoles(freeTravelTimes: map<LinkId, real>, timeslice: int) returns (made: map<LinkId, TravelTimeRole>)
    requires timeslice > 0
    ensures made.Keys == freeTravelTimes.Keys
    ensures forall l :: l in made ==>
      fresh(made[l]) && made[l].IsCleared() && made[l].timeslice == timeslice && made[l].freeTravelTime == freeTravelTimes[l]
    ensures forall l, m :: l in made && m in made && l != m ==> made[l] != made[m]
  {
    made := map[];
    var todo := freeTravelTimes.Keys;
    while todo != {}
      invariant todo <= freeTravelTimes.Keys && made.Keys == freeTravelTimes.Keys - todo
      invariant forall l :: l in made ==> fresh(made[l]) && made[l].IsCleared() && made[l].timeslice == timeslice && made[l].freeTravelTime == freeTravelTimes[l]
      invariant forall l, m :: l in made && m in made && l != m ==> made[l] != made[m]
      decreases |todo|
    {
      var l :| l in todo;
      var role := new TravelTimeRole(freeTravelTimes[l], timeslice);
      made := made[l := role];
      todo := todo - {l};
    }
  }

  /** `TravelTimeCalculatorImpl2`: the pending enter events and one role per network link. */
  class TravelTimeCalculator {
    var enterEvents: map<AgentId, EnterEvent>
    const timeslice: int
    const roles: map<LinkId, TravelTimeRole>

    ghost function Repr(): set<TravelTimeRole>
    {
      set l | l in roles :: roles[l]
    }

    /** Every link has its own valid role, sliced like the calculator. */
    ghost predicate Valid()
      reads Repr()
    {
      timeslice > 0 &&
      (forall l :: l in roles ==> roles[l].Valid() && roles[l].timeslice == timeslice) &&
      (forall l, m :: l in roles && m in roles && l != m ==> roles[l] != roles[m])
    }

    /** A calculator for the network whose links have the free-flow times `freeTravelTimes`, each role freshly reset. */
    constructor (freeTravelTimes: map<LinkId, real>, timeslice: int)
      requires timeslice > 0
      ensures Valid() && fresh(Repr())
      ensures this.timeslice == timeslice && enterEvents == map[] && roles.Keys == freeTravelTimes.Keys
      ensures forall l :: l in roles ==> roles[l].freeTravelTime == freeTravelTimes[l] && roles[l].IsCleared()
    {
      var made := MakeRoles(freeTravelTimes, timeslice);
      this.timeslice := timeslice;
      roles := made;
      enterEvents := map[];
    }

    /** `resetTravelTimes`: clear every link's role and forget the pending enter events. */
    method ResetTravelTimes()
      requires Valid()
      modifies this`enterEvents, Repr()
      ensures Valid() && enterEvents == map[]
      ensures forall l :: l in roles ==> roles[l].IsCleared()
    {
      var todo := roles.Keys;
      while todo != {}
        invariant todo <= roles.Keys && Valid()
        invariant forall l :: l in roles && l !in todo ==> roles[l].IsCleared()
        decreases |todo|
      {
        var l :| l in todo;
        roles[l].ResetTravelTimes();
        todo := todo - {l};
      }
      enterEvents := map[];
    }

    /** `reset(iteration)`: a new iteration starts from cleared roles; the iteration number is not used. */
    method Reset(iteration: int)
      requires Valid()
      modifies this`enterEvents, Repr()
      ensures Valid() && enterEvents == map[]
      ensures forall l :: l in roles ==> roles[l].IsCleared()
    {
      ResetTravelTimes();
    }

    /** A link-enter event replaces the agent's pending record. */
    method HandleLinkEnter(agentId: AgentId, linkId: LinkId, time: real)
      modifies this`enterEvents
      ensures enterEvents == old(enterEvents)[agentId := EnterEvent(linkId, time)]
    {
      enterEvents := enterEvents[agentId := EnterEvent(linkId, time)];
    }

    /**
     * A link-leave event consumes the agent's pending record; when that record is for the same link
     * and the link is in the network, its role records the traversal under the ENTER time. No other role changes.
     */
    method HandleLinkLeave(agentId: AgentId, linkId: LinkId, time: real)
      requires Valid()
      modifies this`enterEvents, Repr()
      ensures Valid()
      ensures enterEvents == old(enterEvents) - {agentId}
      ensures Completes(old(enterEvents), agentId, linkId) && linkId in roles ==>
        var e := old(enterEvents)[agentId];
        roles[linkId].State() == Record(old(roles[linkId].State()), timeslice, e.time, time - e.time) &&
        roles[linkId].history == old(roles[linkId].history) + [Traversal(SlotIndex(e.time, timeslice), time - e.time)] &&
        roles[linkId].inOrder == (old(roles[linkId].inOrder) && SlotIndex(e.time, timeslice) >= old(roles[linkId].currIdx))
      ensures forall l :: l in roles && !(l == linkId && Completes(old(enterEvents), agentId, linkId)) ==> unchanged(roles[l])
    {
      var e := Get(enterEvents, agentId);
      enterEvents := enterEvents - {agentId};
      if e.Some? && e.value.linkId == linkId {
        var timediff := time - e.value.time;
        var role := Get(roles, linkId);
        if role.Some? {
          role.value.AddTravelTime(e.value.time, timediff);
        }
      }
    }

    /** An arrival drops the agent's pending record, so an activity is never counted as travel time. */
    method HandleAgentArrival(agentId: AgentId)
      modifies this`enterEvents
      ensures enterEvents == old(enterEvents) - {agentId}
    {
      enterEvents := enterEvents - {agentId};
    }

    /**
     * `getLinkTravelTime` with the zero-count guard: the link's role's guarded reading, the mean of the
     * slot's traversals or the free-flow time; it agrees with the as-written reading wherever that is finite.
     */
    function GetLinkTravelTime(linkId: LinkId, time: real): (t: real)
      reads Repr()
      requires Valid() && linkId in roles
      ensures var role := roles[linkId]; var k := SlotIndex(time, timeslice);
        role.inOrder ==> t == if CountIn(role.history, k) > 0 then SumIn(role.history, k) / CountIn(role.history, k) as real else role.freeTravelTime
      ensures var q := GetLinkTravelTimeAsWritten(linkId, time);
        (q.Finite? ==> t == q.value) && (q.NonFinite? ==> t == roles[linkId].freeTravelTime)
    {
      roles[linkId].GetTravelTime(time)
    }

    /** `getLinkTravelTime` as written: the link's role's unguarded reading, which is 0/0 for a slot with a zero count. */
    function GetLinkTravelTimeAsWritten(linkId: LinkId, time: real): (q: JavaNumerics.Quotient)
      reads Repr()
      requires Valid() && linkId in roles
      ensures var role := roles[linkId]; var k := SlotIndex(time, timeslice);
        role.inOrder ==>
          (CountIn(role.history, k) > 0 ==> q == JavaNumerics.Finite(SumIn(role.history, k) / CountIn(role.history, k) as real)) &&
          (CountIn(role.history, k) == 0 ==> q in {JavaNumerics.Finite(role.freeTravelTime), JavaNumerics.NonFinite})
    {
      roles[linkId].GetTravelTimeAsWritten(time)
    }
  }
}
