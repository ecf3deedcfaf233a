/** A node that has been popped is on its way to be freed: it is never on the stack
    again before, so it is popped and retired once between its `malloc` and its `free`.
  */
module StackRetirement {
  import opened StackMachine
  import opened NodeOwnership
  import opened StackInvariant
  import opened StackSafety
  import opened StackGuard
  import opened StackLinearizability

  /** This step is the CAS that pops node a. */
  predicate Pops(s: State, e: Event, a: Ptr) {
    e.thread < |s.threads| && s.threads[e.thread].pc.PopCas? && s.threads[e.thread].pc.oldHead == a && s.head == a
  }

  predicate Frees(s: State, e: Event, a: Ptr) {
    e.thread < |s.threads| && s.threads[e.thread].pc.PassFree? && s.threads[e.thread].pc.current == a
  }

  predicate Pushing(pc: Pc) {
    pc.PushData? || pc.PushLoad? || pc.PushLink? || pc.PushCas?
  }

  /** Not on the stack, nor about to be pushed. */
  ghost predicate OffStack(s: State, g: History, a: Ptr) {
    && a in s.heap && a in g.place
    && match g.place[a]
       case InList(l, _) => l != STACK
       case Held(w) => w < |s.threads| && !Pushing(s.threads[w].pc)
  }

  lemma PopTakesOff(s: State, g: History, e: Event, a: Ptr)
    requires Inv(s, g) && Enabled(s, e) && Pops(s, e, a)
    ensures OffStack(Step(s, e), Track(s, g, e), a)
  {
    assert Guarded(s, g, e.thread) && LocalOk(s.threads[e.thread]);
    TopPlaced(s, g, STACK);
  }

  lemma NotPopped(s: State, g: History, e: Event, a: Ptr)
    requires Inv(s, g) && Enabled(s, e) && OffStack(s, g, a)
    ensures !Pops(s, e, a)
  {
    if Pops(s, e, a) {
      assert Guarded(s, g, e.thread) && LocalOk(s.threads[e.thread]);
      TopPlaced(s, g, STACK);
    }
  }

  /** The hand that holds a popped node keeps it or lists it for reclamation. */
  lemma HandKeeps(s: State, g: History, e: Event, a: Ptr)
    requires Enabled(s, e) && !Step(s, e).fault && |g.lists| == |s.threads| + 2 && a != NULL
    requires a in s.heap && a in g.place && g.place[a] == Held(e.thread) && HeldNode(s.threads[e.thread].pc) == a
    requires !Pushing(s.threads[e.thread].pc) && !Frees(s, e, a)
    ensures OffStack(Step(s, e), Track(s, g, e), a)
  {
  }

  /** Others cannot get hold of it but by way of a reclaim list. */
  lemma StaysOff(s: State, g: History, e: Event, a: Ptr)
    requires Inv(s, g) && Enabled(s, e) && OffStack(s, g, a) && !Frees(s, e, a)
    ensures OffStack(Step(s, e), Track(s, g, e), a)
  {
    hide HeldNode, Pushing;
    NoFault(s, g, e);
    StepLocal(s, e);
    HeldByPlace(s, g, a);
    if a == HeldNode(s.threads[e.thread].pc) {
      HandKeeps(s, g, e, a);
    } else {
      hide Step, Track, Enabled, Inv;
      NodeKept(s, g, e, a);
      PlaceKept(s, g, e, a);
      SafeHolder(Step(s, e).threads[e.thread].pc);
    }
  }

  lemma SafeHolder(pc: Pc)
    ensures HolderSafe(pc, 0) ==> !Pushing(pc)
  {
  }

  lemma HeldByPlace(s: State, g: History, a: Ptr)
    requires Inv(s, g) && a in g.place
    ensures a != NULL
    ensures forall w :: 0 <= w < |s.threads| && HeldNode(s.threads[w].pc) == a ==> g.place[a] == Held(w)
    ensures g.place[a].Held? && g.place[a].owner < |s.threads| ==> HeldNode(s.threads[g.place[a].owner].pc) == a
  {
    assert NodeOk(g.lists, HeldNodes(s), a, g.place[a]);
    forall w | 0 <= w < |s.threads| && HeldNode(s.threads[w].pc) == a
      ensures g.place[a] == Held(w)
    { assert HeldNodes(s)[w] == a; }
  }

  lemma {:induction false} OffTillFreed(states: seq<State>, events: seq<Event>, threads: nat, i: nat, j: nat, a: Ptr)
    requires IsRun(states, events, threads) && threads <= MAX_HAZARD_POINTERS && i < j < |states|
      && Pops(states[i], events[i], a)
    requires forall k :: i < k < j ==> !Frees(states[k], events[k], a)
    ensures OffStack(states[j], HistoryAt(states, events, j), a)
    decreases j
  {
    hide Inv, OffStack, Step, Enabled, Track, Pops, Frees;
    RunKeepsInv(states, events, threads, j - 1);
    assert Enabled(states[j - 1], events[j - 1]);
    if i == j - 1 {
      PopTakesOff(states[i], HistoryAt(states, events, i), events[i], a);
    } else {
      OffTillFreed(states, events, threads, i, j - 1, a);
      StaysOff(states[j - 1], HistoryAt(states, events, j - 1), events[j - 1], a);
    }
  }

  /** A node is popped at most once between its `malloc` and its `free`: between two pops of one address
      that memory has been freed. */
  lemma PoppedOnce(states: seq<State>, events: seq<Event>, threads: nat, i: nat, j: nat, a: Ptr)
    requires IsRun(states, events, threads) && threads <= MAX_HAZARD_POINTERS && i < j < |events|
    requires Pops(states[i], events[i], a) && Pops(states[j], events[j], a)
    ensures exists k :: i < k < j && Frees(states[k], events[k], a)
  {
    if forall k :: i < k < j ==> !Frees(states[k], events[k], a) {
      OffTillFreed(states, events, threads, i, j, a);
      RunKeepsInv(states, events, threads, j);
      assert Enabled(states[j], events[j]);
      NotPopped(states[j], HistoryAt(states, events, j), events[j], a);
    }
  }
}
