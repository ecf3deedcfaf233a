/** What a reclaim pass does with each node it has taken, while all other threads go on: the
    node is freed exactly if none of the 64 looks at the hazard slots has found it.
  */
module StackReclaim {
  import opened StackMachine
  import opened NodeOwnership
  import opened StackInvariant
  import opened StackSafety
  import opened StackGuard
  import opened StackLinearizability

  /** The pass is busy with node c. */
  predicate Handles(pc: Pc, c: Ptr) {
    match pc
    case PassScan(x, _, _) => x == c
    case PassFree(x, _) => x == c
    case RetireLoad(x, FromPass(_)) => x == c
    case RetireLink(x, _, FromPass(_)) => x == c
    case RetireCas(x, FromPass(_)) => x == c
    case _ => false
  }

  /** In this step thread t looks whether the slot names node c. */
  predicate LooksAt(s: State, e: Event, t: nat, c: Ptr, slot: nat) {
    && e.thread == t < |s.threads| && slot < |s.hazards|
    && s.threads[t].pc.PassScan? && s.threads[t].pc.current == c && s.threads[t].pc.index == slot
  }

  /** And it does. */
  predicate Finds(s: State, e: Event, t: nat, c: Ptr) {
    exists slot :: 0 <= slot < |s.hazards| && LooksAt(s, e, t, c, slot) && s.hazards[slot] == c
  }

  predicate Misses(s: State, e: Event, t: nat, c: Ptr, slot: nat) {
    LooksAt(s, e, t, c, slot) && s.hazards[slot] != c
  }

  /** From step i, at which thread t takes node c to look for it, it is busy with c until step j. */
  ghost predicate Busy(states: seq<State>, events: seq<Event>, t: nat, c: Ptr, i: nat, j: nat) {
    && i < j < |states| == |events| + 1
    && events[i].thread == t < |states[i].threads| && states[i].threads[t].pc == PassNext(c)
    && forall k :: i < k < j ==> t < |states[k].threads| && Handles(states[k].threads[t].pc, c)
  }

  ghost predicate Found(states: seq<State>, events: seq<Event>, t: nat, c: Ptr, i: nat, j: nat)
    requires |states| == |events| + 1 && j <= |events|
  {
    exists k :: i < k < j && Finds(states[k], events[k], t, c)
  }

  ghost predicate Missed(states: seq<State>, events: seq<Event>, t: nat, c: Ptr, i: nat, j: nat, slot: nat)
    requires |states| == |events| + 1 && j <= |events|
  {
    exists k :: i < k < j && Misses(states[k], events[k], t, c, slot)
  }

  /** How far the thread has got with node c. */
  ghost predicate SoFar(states: seq<State>, events: seq<Event>, t: nat, c: Ptr, i: nat, j: nat)
    requires |states| == |events| + 1 && j <= |events| && t < |states[j].threads|
  {
    match states[j].threads[t].pc
    case PassScan(_, _, index) =>
      && !Found(states, events, t, c, i, j) && index <= MAX_HAZARD_POINTERS
      && forall slot :: 0 <= slot < index ==> Missed(states, events, t, c, i, j, slot)
    case PassFree(_, _) =>
      && !Found(states, events, t, c, i, j)
      && forall slot :: 0 <= slot < MAX_HAZARD_POINTERS ==> Missed(states, events, t, c, i, j, slot)
    case _ => Found(states, events, t, c, i, j)
  }

  lemma MissedMore(states: seq<State>, events: seq<Event>, t: nat, c: Ptr, i: nat, j: nat, slot: nat)
    requires |states| == |events| + 1 && j + 1 <= |events| && Missed(states, events, t, c, i, j, slot)
    ensures Missed(states, events, t, c, i, j + 1, slot)
  {
  }

  lemma FoundMore(states: seq<State>, events: seq<Event>, t: nat, c: Ptr, i: nat, j: nat)
    requires |states| == |events| + 1 && i < j && j + 1 <= |events|
    ensures Found(states, events, t, c, i, j + 1) <==>
      Found(states, events, t, c, i, j) || Finds(states[j], events[j], t, c)
  {
  }

  /** One more step of whatever thread. */
  lemma SoFarStep(states: seq<State>, events: seq<Event>, t: nat, c: Ptr, i: nat, j: nat)
    requires |states| == |events| + 1 && i < j < |events| && t < |states[j].threads|
    requires Enabled(states[j], events[j]) && states[j + 1] == Step(states[j], events[j])
    requires SoFar(states, events, t, c, i, j) && Handles(states[j].threads[t].pc, c)
    requires t < |states[j + 1].threads| && Handles(states[j + 1].threads[t].pc, c)
    ensures SoFar(states, events, t, c, i, j + 1)
  {
    hide Missed, Found, Finds;
    var s, e, n := states[j], events[j], j + 1;
    FoundMore(states, events, t, c, i, j);
    forall slot: nat
      ensures Missed(states, events, t, c, i, j, slot) ==> Missed(states, events, t, c, i, n, slot)
    { if Missed(states, events, t, c, i, j, slot) { MissedMore(states, events, t, c, i, j, slot); } }
    HandlingStep(s, e, t, c);
    if s.threads[t].pc.PassScan? && LooksAt(s, e, t, c, s.threads[t].pc.index) && !Finds(s, e, t, c) {
      MissedNow(states, events, t, c, i, j, s.threads[t].pc.index);
    }
  }

  lemma MissedNow(states: seq<State>, events: seq<Event>, t: nat, c: Ptr, i: nat, j: nat, slot: nat)
    requires |states| == |events| + 1 && i < j < |events| && LooksAt(states[j], events[j], t, c, slot)
    requires !Finds(states[j], events[j], t, c)
    ensures Missed(states, events, t, c, i, j + 1, slot)
  {
    assert Misses(states[j], events[j], t, c, slot);
  }

  lemma OthersStep(s: State, e: Event, t: nat, c: Ptr)
    requires Enabled(s, e) && t < |s.threads| && e.thread != t
    ensures |Step(s, e).threads| == |s.threads| && Step(s, e).threads[t] == s.threads[t] && !Finds(s, e, t, c)
  {
  }

  lemma LookStep(s: State, e: Event, t: nat, c: Ptr)
    requires Enabled(s, e) && t < |s.threads| && e.thread == t
    requires s.threads[t].pc.PassScan? && s.threads[t].pc.current == c
    ensures |Step(s, e).threads| == |s.threads|
    ensures var index, rest, pc' := s.threads[t].pc.index, s.threads[t].pc.rest, Step(s, e).threads[t].pc;
      if index >= MAX_HAZARD_POINTERS then pc' == PassFree(c, rest) && !Finds(s, e, t, c)
      else if s.hazards[index] == c then pc' == RetireLoad(c, FromPass(rest)) && Finds(s, e, t, c)
      else pc' == PassScan(c, rest, index + 1) && LooksAt(s, e, t, c, index) && !Finds(s, e, t, c)
  {
    if s.threads[t].pc.index < MAX_HAZARD_POINTERS { assert LooksAt(s, e, t, c, s.threads[t].pc.index); }
  }

  lemma DoneStep(s: State, e: Event, t: nat, c: Ptr)
    requires Enabled(s, e) && t < |s.threads| && e.thread == t
    requires Handles(s.threads[t].pc, c) && !s.threads[t].pc.PassScan?
    ensures |Step(s, e).threads| == |s.threads| && !Finds(s, e, t, c)
    ensures var pc, pc' := s.threads[t].pc, Step(s, e).threads[t].pc;
      && (pc.PassFree? ==> pc' == pc || !Handles(pc', c))
      && (!pc.PassFree? ==> !pc'.PassScan? && !pc'.PassFree?)
  {
  }

  /** The steps of the pass while it is busy with node c. */
  lemma HandlingStep(s: State, e: Event, t: nat, c: Ptr)
    requires Enabled(s, e) && t < |s.threads| && Handles(s.threads[t].pc, c)
    ensures |Step(s, e).threads| == |s.threads|
    ensures var pc, pc' := s.threads[t].pc, Step(s, e).threads[t].pc;
      if e.thread != t then
        pc' == pc && !Finds(s, e, t, c)
      else
        match pc
        case PassScan(_, rest, index) =>
          if index >= MAX_HAZARD_POINTERS then pc' == PassFree(c, rest) && !Finds(s, e, t, c)
          else if s.hazards[index] == c then pc' == RetireLoad(c, FromPass(rest)) && Finds(s, e, t, c)
          else pc' == PassScan(c, rest, index + 1) && LooksAt(s, e, t, c, index) && !Finds(s, e, t, c)
        case PassFree(_, _) => (pc' == pc || !Handles(pc', c)) && !Finds(s, e, t, c)
        case _ => !pc'.PassScan? && !pc'.PassFree? && !Finds(s, e, t, c)
  {
    hide Step, Finds, LooksAt;
    if e.thread != t {
      OthersStep(s, e, t, c);
    } else if s.threads[t].pc.PassScan? {
      LookStep(s, e, t, c);
    } else {
      DoneStep(s, e, t, c);
    }
  }

  lemma {:induction false} BusySoFar(states: seq<State>, events: seq<Event>, threads: nat, t: nat, c: Ptr, i: nat,
                                     j: nat)
    requires IsRun(states, events, threads) && j < |events| && Busy(states, events, t, c, i, j)
    requires t < |states[j].threads| && Handles(states[j].threads[t].pc, c)
    ensures SoFar(states, events, t, c, i, j)
    decreases j
  {
    hide Step, Enabled, Handles, SoFar;
    assert Enabled(states[j - 1], events[j - 1]);
    if j == i + 1 {
      Taken0(states, events, t, c, i);
    } else {
      BusySoFar(states, events, threads, t, c, i, j - 1);
      SoFarStep(states, events, t, c, i, j - 1);
    }
  }

  lemma Taken0(states: seq<State>, events: seq<Event>, t: nat, c: Ptr, i: nat)
    requires |states| == |events| + 1 && i + 1 < |events| && events[i].thread == t < |states[i].threads|
    requires Enabled(states[i], events[i]) && states[i + 1] == Step(states[i], events[i])
    requires states[i].threads[t].pc == PassNext(c)
    requires t < |states[i + 1].threads| && Handles(states[i + 1].threads[t].pc, c)
    ensures SoFar(states, events, t, c, i, i + 1)
  {
  }

  /** The step with which the pass is done with node c: it has freed it or put it back. */
  lemma LastStep(s: State, e: Event, t: nat, c: Ptr)
    requires Enabled(s, e) && !Step(s, e).fault && t < |s.threads| && Handles(s.threads[t].pc, c)
    requires t < |Step(s, e).threads| && !Handles(Step(s, e).threads[t].pc, c)
    ensures c in s.heap && !s.threads[t].pc.PassScan?
    ensures s.threads[t].pc.PassFree? ==> Step(s, e).heap == s.heap - {c}
    ensures !s.threads[t].pc.PassFree? ==>
      Step(s, e).toReclaim == c && Step(s, e).heap == s.heap && s.heap[c].next == s.toReclaim
  {
  }

  /** The verdict of the pass on node c, whatever the other threads do meanwhile: if one of its looks at the
      slots has found c, c goes back on top of the reclaim list; otherwise it has looked at each of the 64
      slots, and c is freed. */
  lemma ScanDecides(states: seq<State>, events: seq<Event>, threads: nat, t: nat, c: Ptr, i: nat, j: nat)
    requires IsRun(states, events, threads) && threads <= 64 && i + 1 < j && Busy(states, events, t, c, i, j)
    requires t < |states[j].threads| && !Handles(states[j].threads[t].pc, c)
    ensures c in states[j - 1].heap
    ensures Found(states, events, t, c, i, j) ==>
      && states[j].toReclaim == c && c in states[j].heap
      && states[j].heap[c].next == states[j - 1].toReclaim
    ensures !Found(states, events, t, c, i, j) ==>
      && states[j].heap == states[j - 1].heap - {c}
      && forall slot :: 0 <= slot < 64 ==> Missed(states, events, t, c, i, j, slot)
  {
    hide Step, Enabled, Handles, Finds, Missed, Found, Inv;
    var n := j - 1;
    RunKeepsInv(states, events, threads, j - 1);
    assert Enabled(states[j - 1], events[j - 1]);
    NoFault(states[j - 1], HistoryAt(states, events, j - 1), events[j - 1]);
    BusySoFar(states, events, threads, t, c, i, j - 1);
    LastStep(states[j - 1], events[j - 1], t, c);
    HandlingStep(states[j - 1], events[j - 1], t, c);
    FoundMore(states, events, t, c, i, j - 1);
    forall slot: nat
      ensures Missed(states, events, t, c, i, n, slot) ==> Missed(states, events, t, c, i, j, slot)
    { if Missed(states, events, t, c, i, n, slot) { MissedMore(states, events, t, c, i, n, slot); } }
  }
}
