/** The stack serves exactly as many threads as it has hazard slots. */
module StackLimits {
  import opened StackMachine
  import opened StackLinearizability

  /** Threads 0 to k-1 are inside `stack_pop` and own slots 0 to k-1, the others have not started. */
  function SlotsTaken(threads: nat, k: nat): State
    requires k <= threads
  {
    Init(threads).(
      ids := seq(MAX_HAZARD_POINTERS, i => if i < k then i + 1 else 0),
      threads := seq(threads, i requires 0 <= i < threads =>
                   if i < k then Thread(PopLoad, i, true, 0) else InitialThread()))
  }

  lemma Extend(states: seq<State>, events: seq<Event>, threads: nat, e: Event)
    requires IsRun(states, events, threads) && Enabled(states[|states| - 1], e)
    ensures IsRun(states + [Step(states[|states| - 1], e)], events + [e], threads)
  {
  }

  /** Thread k calls `stack_pop` and finds the slots before the i-th one taken. */
  lemma {:induction false} Walk(threads: nat, k: nat, i: nat) returns (states: seq<State>, events: seq<Event>)
    requires k < threads && i <= k <= MAX_HAZARD_POINTERS
    ensures IsRun(states, events, threads)
    ensures states[|states| - 1] == Goto(SlotsTaken(threads, k), k, Claim(i))
    decreases k, 1, i
  {
    if i == 0 {
      states, events := TakeSlots(threads, k);
      Extend(states, events, threads, Event(k, Call(Pop)));
      states, events := states + [Step(states[|states| - 1], Event(k, Call(Pop)))], events + [Event(k, Call(Pop))];
    } else {
      states, events := Walk(threads, k, i - 1);
      Extend(states, events, threads, Event(k, Tau));
      states, events := states + [Step(states[|states| - 1], Event(k, Tau))], events + [Event(k, Tau)];
    }
  }

  lemma {:induction false} TakeSlots(threads: nat, k: nat) returns (states: seq<State>, events: seq<Event>)
    requires k <= threads && k <= MAX_HAZARD_POINTERS
    ensures IsRun(states, events, threads) && states[|states| - 1] == SlotsTaken(threads, k)
    decreases k, 0
  {
    if k == 0 {
      states, events := [Init(threads)], [];
    } else {
      states, events := Walk(threads, k - 1, k - 1);
      Extend(states, events, threads, Event(k - 1, Tau));
      assert Step(states[|states| - 1], Event(k - 1, Tau)) == SlotsTaken(threads, k);
      states, events := states + [SlotsTaken(threads, k)], events + [Event(k - 1, Tau)];
    }
  }

  ghost predicate NeverFaults(threads: nat) {
    forall states: seq<State>, events: seq<Event> ::
      IsRun(states, events, threads) ==> forall i :: 0 <= i < |states| ==> !states[i].fault
  }

  /** No run is undefined if and only if there are at most as many threads as slots: one thread more
      falls off the end of `hazard_pointer_init` and uses the NULL it got. */
  lemma ThreadLimitExact(threads: nat)
    ensures NeverFaults(threads) <==> threads <= 64
  {
    if threads <= MAX_HAZARD_POINTERS {
      forall states: seq<State>, events: seq<Event>, i | IsRun(states, events, threads) && 0 <= i < |states|
        ensures !states[i].fault
      { NoUndefinedBehaviour(states, events, threads, i); }
    } else {
      var states, events := Walk(threads, MAX_HAZARD_POINTERS, MAX_HAZARD_POINTERS);
      Extend(states, events, threads, Event(MAX_HAZARD_POINTERS, Tau));
      states, events := states + [Step(states[|states| - 1], Event(MAX_HAZARD_POINTERS, Tau))],
        events + [Event(MAX_HAZARD_POINTERS, Tau)];
      assert states[|states| - 1].fault;
    }
  }
}
