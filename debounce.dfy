/** The debounce timer of the alerts store. The store keeps a single module-level slot,
    `debounceTimeout`, holding the handle of the timer it last armed; the JavaScript
    runtime separately holds every timer that is still scheduled. A timer the slot no
    longer names can no longer be cleared by the store. */
module Debounce {
  import opened Js

  /** `slot` is what `debounceTimeout` holds; `armed` is the set of timers the runtime
      still has scheduled. */
  datatype Timers = Timers(slot: Option<nat>, armed: set<nat>)

  /** Nothing armed, an empty slot: the state when the page loads. */
  const Idle: Timers := Timers(None, {})

  function SlotSet(slot: Option<nat>): set<nat> {
    if slot.Some? then {slot.value} else {}
  }

  /** Every scheduled timer is the one in the slot, and the slot names a scheduled timer:
      the store can reach, and so cancel, everything that is pending. */
  predicate Consistent(t: Timers) {
    t.armed == SlotSet(t.slot)
  }

  /** `debouncedFetchAnalysisImages`: `clearTimeout(debounceTimeout)` on the previous
      timer, then arm timer `id` and keep its handle in the slot. */
  function Arm(t: Timers, id: nat): (r: Timers)
    ensures r.slot == Some(id) && id in r.armed
    ensures r.armed - {id} <= t.armed
    ensures t.slot.Some? && t.slot.value != id ==> t.slot.value !in r.armed
  {
    Timers(Some(id), (t.armed - SlotSet(t.slot)) + {id})
  }

  /** The timer half of `cancelPendingRequests`: clear the timer in the slot, empty it. */
  function Clear(t: Timers): (r: Timers)
    ensures r.slot == None && r.armed <= t.armed
    ensures t.slot.Some? ==> t.slot.value !in r.armed
    ensures forall x :: x in t.armed && t.slot != Some(x) ==> x in r.armed
  {
    Timers(None, t.armed - SlotSet(t.slot))
  }

  /** The runtime fires timer `id`; its callback calls `fetchAnalysisImages`, whose first
      step is `cancelPendingRequests`. */
  function Fire(t: Timers, id: nat): (r: Timers)
    requires id in t.armed
    ensures r.slot == None && id !in r.armed && r.armed <= t.armed
  {
    Clear(t.(armed := t.armed - {id}))
  }

  /** What the timer callback does after the awaited fetch settles, AS WRITTEN
      (alertsStore.ts line 299): `debounceTimeout = null`, whatever the slot holds by then. */
  function SettleAsWritten(t: Timers): (r: Timers)
    ensures r.slot == None && r.armed == t.armed
  {
    t.(slot := None)
  }

  /** The callback's final step as intended: empty the slot only while it still names
      this callback's own timer `ticket` (`if (debounceTimeout === ticket)`), so a timer
      armed by a later call stays in reach. */
  function SettleOwn(t: Timers, ticket: nat): (r: Timers)
    ensures r.armed == t.armed && r.slot != Some(ticket)
    ensures r.slot == None || r.slot == t.slot
    ensures t.slot != Some(ticket) ==> r == t
  {
    if t.slot == Some(ticket) then t.(slot := None) else t
  }

  /** Arming keeps the store in reach of everything pending, with exactly the new timer armed. */
  lemma ArmConsistent(t: Timers, id: nat)
    requires Consistent(t)
    ensures Consistent(Arm(t, id)) && Arm(t, id).armed == {id}
  {
  }

  /** Firing the armed timer leaves nothing scheduled and the slot empty. */
  lemma FireConsistent(t: Timers, id: nat)
    requires Consistent(t) && id in t.armed
    ensures Fire(t, id) == Idle
  {
  }

  /** Cancelling leaves no timer behind. */
  lemma ClearConsistent(t: Timers)
    requires Consistent(t)
    ensures Clear(t) == Idle
  {
  }

  /** With the intended settle step, after the callback's timer has fired, the slot keeps
      whatever a later call put there, the store stays in reach of everything scheduled,
      and a later cancellation leaves no timer. */
  lemma SettleThenClear(t: Timers, ticket: nat)
    requires Consistent(t) && ticket !in t.armed
    ensures SettleOwn(t, ticket) == t
    ensures Consistent(SettleOwn(t, ticket)) && Clear(SettleOwn(t, ticket)) == Idle
  {
  }

  /** The sequence that loses timer 2 as written, with the intended settle step: the
      slot still names timer 2, and the cancellation clears it. */
  lemma SettleOwnKeepsTimerInReach()
    ensures var beforeSettle := Arm(Fire(Arm(Idle, 1), 1), 2);
            SettleOwn(beforeSettle, 1) == Timers(Some(2), {2})
            && Clear(SettleOwn(beforeSettle, 1)) == Idle
  {
    var t1 := Arm(Idle, 1);
    assert t1 == Timers(Some(1), {1});
    var t2 := Fire(t1, 1);
    assert t2 == Idle;
    var t3 := Arm(t2, 2);
    assert t3 == Timers(Some(2), {2});
  }

  /** The code as written loses a timer: arm timer 1, let it fire (its fetch is now in
      flight), arm timer 2 with new filters, let the first fetch settle (which empties the
      slot), then cancel. Timer 2 is still armed, and nothing can clear it. */
  lemma SettleAsWrittenLeaksTimer()
    ensures var beforeSettle := Arm(Fire(Arm(Idle, 1), 1), 2);
            Consistent(beforeSettle)
            && !Consistent(SettleAsWritten(beforeSettle))
            && Clear(SettleAsWritten(beforeSettle)).armed == {2}
  {
    var t1 := Arm(Idle, 1);
    assert t1 == Timers(Some(1), {1});
    var t2 := Fire(t1, 1);
    assert t2 == Idle;
    var t3 := Arm(t2, 2);
    assert t3 == Timers(Some(2), {2});
    assert SettleAsWritten(t3) == Timers(None, {2});
  }
}
