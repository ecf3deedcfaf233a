/** Every run of the stack machine is a run of the atomic stack, whatever
    addresses `malloc` reuses; and no run touches memory that is not its own.
  */
module StackLinearizability {
  import opened StackMachine
  import opened NodeOwnership
  import opened HazardSlots
  import opened StackInvariant
  import opened StackSafety
  import opened StackGuard
  import opened AtomicStack
  import opened StackObject

  function Visibly(s: State, e: Event): Visible
    requires Enabled(s, e)
  {
    var me := s.threads[e.thread];
    if me.pc.Idle? && e.action.Call? then Invoke(e.action.op)
    else if me.pc.PushReturn? then Respond(Pushed)
    else if me.pc.PopReturn? then Respond(if me.pc.found then Popped(me.out) else Empty)
    else Hidden
  }

  function DataAt(heap: Heap, p: Ptr): nat {
    if p in heap then heap[p].data else 0
  }

  function StatusOf(pc: Pc, out: nat, data: nat): Status {
    if pc.Idle? || pc.Exited? || pc.ExitClear? || pc.ExitRelease? then Ready
    else if pc.PushAlloc? || pc.PushData? then Called(Push(pc.value))
    else if pc.PushLoad? || pc.PushLink? || pc.PushCas? then Called(Push(data))
    else if pc.PushReturn? then Done(Pushed)
    else if pc.Claim? || pc.PopLoad? || pc.PopPublish? || pc.PopValidate? || pc.PopNext? || pc.PopCas? then Called(Pop)
    else if pc.PopClear? then Done(if pc.node == NULL then Empty else Popped(data))
    else if pc.PopData? then Done(Popped(data))
    else if pc.PopReturn? && !pc.found then Done(Empty)
    else Done(Popped(out))
  }

  function ThreadStatus(heap: Heap, th: Thread): Status {
    StatusOf(th.pc, th.out, DataAt(heap, HeldNode(th.pc)))
  }

  function Contents(heap: Heap, list: seq<Ptr>): seq<nat> {
    seq(|list|, d requires 0 <= d < |list| => DataAt(heap, list[d]))
  }

  function Abstraction(s: State, g: History): Atomic
    requires |g.lists| > STACK
  {
    Atomic(Contents(s.heap, g.lists[STACK]),
           seq(|s.threads|, u requires 0 <= u < |s.threads| => ThreadStatus(s.heap, s.threads[u])))
  }

  lemma OthersWait(s: State, g: History, e: Event, u: nat)
    requires Inv(s, g) && Enabled(s, e) && u < |s.threads| && u != e.thread
    ensures |Step(s, e).threads| == |s.threads|
    ensures ThreadStatus(Step(s, e).heap, Step(s, e).threads[u]) == ThreadStatus(s.heap, s.threads[u])
  {
    StepLocal(s, e);
    Allocated(s, g, u);
    Allocated(s, g, e.thread);
    if HeldNode(s.threads[u].pc) != NULL { NodeKept(s, g, e, HeldNode(s.threads[u].pc)); }
  }

  /** What the step of a thread does to its own status. */
  ghost predicate StatusMoves(s: State, e: Event)
    requires Enabled(s, e)
  {
    && |Step(s, e).threads| == |s.threads|
    && var was := ThreadStatus(s.heap, s.threads[e.thread]);
       var now := ThreadStatus(Step(s, e).heap, Step(s, e).threads[e.thread]);
       match Visibly(s, e)
       case Invoke(op) => was == Ready && now == Called(op)
       case Respond(r) => was == Done(r) && now == Ready
       case Hidden => now == was
  }

  lemma OwnStatusInHand(s: State, e: Event)
    requires Enabled(s, e) && !Step(s, e).fault && !LinearizationPoint(s, e)
    requires HeldNode(s.threads[e.thread].pc) != NULL && HeldNode(s.threads[e.thread].pc) in s.heap
    ensures StatusMoves(s, e)
  {
  }

  /** Before a pop has taken effect. */
  predicate Popping(pc: Pc) {
    pc.Claim? || pc.PopLoad? || pc.PopPublish? || pc.PopValidate? || pc.PopNext? || pc.PopCas?
  }

  lemma OwnStatusPopping(s: State, e: Event)
    requires Enabled(s, e) && !Step(s, e).fault && !LinearizationPoint(s, e) && Popping(s.threads[e.thread].pc)
    ensures StatusMoves(s, e)
  {
  }

  lemma OwnStatusEmptyHand(s: State, e: Event)
    requires Enabled(s, e) && !Step(s, e).fault && !Popping(s.threads[e.thread].pc)
    requires HeldNode(s.threads[e.thread].pc) == NULL && NonNull(s.threads[e.thread].pc)
    ensures StatusMoves(s, e)
  {
  }

  lemma OwnStatus(s: State, g: History, e: Event)
    requires Inv(s, g) && Enabled(s, e) && !LinearizationPoint(s, e)
    ensures StatusMoves(s, e)
  {
    hide Inv, Step, StatusMoves;
    NoFault(s, g, e);
    Allocated(s, g, e.thread);
    if Popping(s.threads[e.thread].pc) {
      OwnStatusPopping(s, e);
    } else if HeldNode(s.threads[e.thread].pc) != NULL {
      OwnStatusInHand(s, e);
    } else {
      OwnStatusEmptyHand(s, e);
    }
  }

  /** Push and pop take effect at their successful CAS, a pop that finds nothing when it has
      validated NULL. */
  predicate LinearizationPoint(s: State, e: Event)
    requires Enabled(s, e)
  {
    match s.threads[e.thread].pc
    case PushCas(_, top) => s.head == top
    case PopCas(h, _) => s.head == h
    case PopValidate(h) => s.head == h && h == NULL
    case _ => false
  }

  lemma ContentsKept(s: State, g: History, e: Event)
    requires Inv(s, g) && Enabled(s, e)
    ensures Contents(Step(s, e).heap, g.lists[STACK]) == Contents(s.heap, g.lists[STACK])
    ensures !LinearizationPoint(s, e) ==> Track(s, g, e).lists[STACK] == g.lists[STACK]
  {
    assert ListOk(s.heap, g.place, STACK, g.lists[STACK]);
    Allocated(s, g, e.thread);
    forall d | 0 <= d < |g.lists[STACK]|
      ensures DataAt(Step(s, e).heap, g.lists[STACK][d]) == DataAt(s.heap, g.lists[STACK][d])
    {
      NodeKept(s, g, e, g.lists[STACK][d]);
    }
  }

  lemma Refines(s: State, g: History, e: Event)
    requires Inv(s, g) && Enabled(s, e)
    ensures |Track(s, g, e).lists| > STACK
    ensures AtomicStep(Abstraction(s, g), Abstraction(Step(s, e), Track(s, g, e)), e.thread, Visibly(s, e))
  {
    var s', g', t := Step(s, e), Track(s, g, e), e.thread;
    StepInv(s, g, e);
    var a, a' := Abstraction(s, g), Abstraction(s', g');
    StepLocal(s, e);
    ContentsKept(s, g, e);
    forall u | 0 <= u < |s.threads| && u != t
      ensures a'.status[u] == a.status[u]
    { OthersWait(s, g, e, u); }
    assert a'.status == a.status[t := a'.status[t]];
    if LinearizationPoint(s, e) {
      if s.threads[t].pc.PushCas? { PushTakesEffect(s, g, e); }
      else if s.threads[t].pc.PopCas? { PopTakesEffect(s, g, e); }
      else { EmptyTakesEffect(s, g, e); }
    } else {
      OwnStatus(s, g, e);
    }
  }

  ghost predicate TakesEffect(s: State, g: History, e: Event)
    requires Enabled(s, e) && |g.lists| == |s.threads| + 2 && |Step(s, e).threads| == |s.threads|
  {
    var was := ThreadStatus(s.heap, s.threads[e.thread]);
    var now := ThreadStatus(Step(s, e).heap, Step(s, e).threads[e.thread]);
    && was.Called? && now.Done?
    && |Track(s, g, e).lists| > STACK
    && Effect(Contents(s.heap, g.lists[STACK]), was.op)
       == (Contents(Step(s, e).heap, Track(s, g, e).lists[STACK]), now.result)
  }

  lemma PushTakesEffect(s: State, g: History, e: Event)
    requires Inv(s, g) && Enabled(s, e) && s.threads[e.thread].pc.PushCas? && LinearizationPoint(s, e)
    ensures |Step(s, e).threads| == |s.threads| && TakesEffect(s, g, e)
  {
    Allocated(s, g, e.thread);
    assert Contents(s.heap, g.lists[STACK] + [s.threads[e.thread].pc.node])
        == Contents(s.heap, g.lists[STACK]) + [DataAt(s.heap, s.threads[e.thread].pc.node)];
  }

  lemma PopTakesEffect(s: State, g: History, e: Event)
    requires Inv(s, g) && Enabled(s, e) && s.threads[e.thread].pc.PopCas? && LinearizationPoint(s, e)
    ensures |Step(s, e).threads| == |s.threads| && TakesEffect(s, g, e)
  {
    hide Owned, Guarded, SlotsOk;
    Allocated(s, g, e.thread);
    TopPlaced(s, g, STACK);
    var list := g.lists[STACK];
    assert Contents(s.heap, list[..|list| - 1]) == Contents(s.heap, list)[..|list| - 1];
  }

  lemma EmptyTakesEffect(s: State, g: History, e: Event)
    requires Inv(s, g) && Enabled(s, e) && s.threads[e.thread].pc.PopValidate? && LinearizationPoint(s, e)
    ensures |Step(s, e).threads| == |s.threads| && TakesEffect(s, g, e)
  {
    TopPlaced(s, g, STACK);
    assert ListOk(s.heap, g.place, STACK, g.lists[STACK]);
  }

  lemma {:induction false} RunKeepsInv(states: seq<State>, events: seq<Event>, threads: nat, i: nat)
    requires IsRun(states, events, threads) && threads <= MAX_HAZARD_POINTERS && i < |states|
    ensures Inv(states[i], HistoryAt(states, events, i)) && |states[i].threads| == threads
  {
    if i == 0 {
      InitInv(threads);
    } else {
      RunKeepsInv(states, events, threads, i - 1);
      assert Enabled(states[i - 1], events[i - 1]);
      StepInv(states[i - 1], HistoryAt(states, events, i - 1), events[i - 1]);
      StepLocal(states[i - 1], events[i - 1]);
    }
  }

  function InitHistory(threads: nat): History {
    History(seq(threads + 2, _ => []), map[])
  }

  lemma InitInv(threads: nat)
    requires threads <= MAX_HAZARD_POINTERS
    ensures Inv(Init(threads), InitHistory(threads))
  {
    var s := Init(threads);
    forall i: nat | i < MAX_HAZARD_POINTERS
      ensures SlotOk(s.ids, Registrations(s), i)
    {
    }
  }

  ghost function HistoryAt(states: seq<State>, events: seq<Event>, i: nat): History
    requires |states| == |events| + 1 && i < |states|
  {
    if i == 0 then InitHistory(|states[0].threads|)
    else
      var g := HistoryAt(states, events, i - 1);
      if Enabled(states[i - 1], events[i - 1]) && |g.lists| == |states[i - 1].threads| + 2
      then Track(states[i - 1], g, events[i - 1]) else g
  }

  /** Nothing in a run is ever undefined: no thread reads or writes memory after it is freed, frees
      twice, or lacks a hazard slot. */
  lemma NoUndefinedBehaviour(states: seq<State>, events: seq<Event>, threads: nat, i: nat)
    requires IsRun(states, events, threads) && threads <= MAX_HAZARD_POINTERS && i < |states|
    ensures !states[i].fault
  {
    RunKeepsInv(states, events, threads, i);
  }

  /** A node is never freed while a thread is between validating it and its CAS. */
  lemma HazardSafety(states: seq<State>, events: seq<Event>, threads: nat, i: nat, u: nat)
    requires IsRun(states, events, threads) && threads <= MAX_HAZARD_POINTERS && i < |events| && u < threads
    ensures u < |states[i].threads|
    ensures Protected(states[i].threads[u].pc) != NULL ==> Protected(states[i].threads[u].pc) in states[i].heap
    ensures states[i].threads[events[i].thread].pc.PassFree? ==>
      states[i].threads[events[i].thread].pc.current != Protected(states[i].threads[u].pc)
  {
    RunKeepsInv(states, events, threads, i);
    var g := HistoryAt(states, events, i);
    assert Enabled(states[i], events[i]);
    assert Guarded(states[i], g, u);
    Allocated(states[i], g, events[i].thread);
  }

  /** When the CAS of a pop succeeds, what it installs is the present successor of the popped node. */
  lemma NoAba(states: seq<State>, events: seq<Event>, threads: nat, i: nat)
    requires IsRun(states, events, threads) && threads <= MAX_HAZARD_POINTERS && i < |events|
    ensures events[i].thread < |states[i].threads|
    ensures var s, pc := states[i], states[i].threads[events[i].thread].pc;
      pc.PopCas? && s.head == pc.oldHead ==> s.head in s.heap && pc.next == s.heap[s.head].next
  {
    RunKeepsInv(states, events, threads, i);
    var g := HistoryAt(states, events, i);
    assert Enabled(states[i], events[i]);
    assert Guarded(states[i], g, events[i].thread) && LocalOk(states[i].threads[events[i].thread]);
    TopPlaced(states[i], g, STACK);
  }

  /** In every state the allocated nodes are split exactly between the stack, the reclaim list, the
      lists under reclamation and the hands of the threads. */
  lemma ExactOwnership(states: seq<State>, events: seq<Event>, threads: nat, i: nat)
    requires IsRun(states, events, threads) && threads <= MAX_HAZARD_POINTERS && i < |states|
    ensures exists lists: seq<seq<Ptr>>, place: Places ::
      Owned(states[i].heap, Roots(states[i]), HeldNodes(states[i]), lists, place)
  {
    RunKeepsInv(states, events, threads, i);
    var g := HistoryAt(states, events, i);
    assert Owned(states[i].heap, Roots(states[i]), HeldNodes(states[i]), g.lists, g.place);
  }

  /** What the clients of a run see. */
  function Trace(states: seq<State>, events: seq<Event>): seq<(nat, Visible)>
    requires |states| == |events| + 1
    requires forall i :: 0 <= i < |events| ==> Enabled(states[i], events[i])
  {
    seq(|events|, i requires 0 <= i < |events| => (events[i].thread, Visibly(states[i], events[i])))
  }

  ghost function Atoms(states: seq<State>, events: seq<Event>): seq<Atomic>
    requires |states| == |events| + 1
  {
    seq(|states|, i requires 0 <= i < |states| =>
      var g := HistoryAt(states, events, i);
      if |g.lists| > STACK then Abstraction(states[i], g) else AtomicInit(0))
  }

  lemma AtomsBegin(states: seq<State>, events: seq<Event>, threads: nat)
    requires IsRun(states, events, threads)
    ensures Atoms(states, events)[0] == AtomicInit(threads)
  {
    hide Step, Track;
  }

  /** Linearizability: with the same calls and the same results, every run is one of the atomic stack. */
  lemma Linearizable(states: seq<State>, events: seq<Event>, threads: nat)
    requires IsRun(states, events, threads) && threads <= MAX_HAZARD_POINTERS
    ensures IsAtomicRun(Atoms(states, events), Trace(states, events), threads)
  {
    hide Inv, Step, Track, AtomicStep, Contents, AtomicInit;
    var atoms := Atoms(states, events);
    forall i | 0 <= i < |events|
      ensures AtomicStep(atoms[i], atoms[i + 1], events[i].thread, Visibly(states[i], events[i]))
    {
      RunKeepsInv(states, events, threads, i);
      RunKeepsInv(states, events, threads, i + 1);
      assert Enabled(states[i], events[i]);
      Refines(states[i], HistoryAt(states, events, i), events[i]);
    }
    AtomsBegin(states, events, threads);
  }

  /** The abstract contents are those of the memory: the stack is empty just when `head` is NULL. */
  lemma EmptyMeansNull(states: seq<State>, events: seq<Event>, threads: nat, i: nat)
    requires IsRun(states, events, threads) && threads <= MAX_HAZARD_POINTERS && i < |states|
    ensures Atoms(states, events)[i].contents == [] <==> states[i].head == NULL
  {
    RunKeepsInv(states, events, threads, i);
    var g := HistoryAt(states, events, i);
    TopPlaced(states[i], g, STACK);
    assert ListOk(states[i].heap, g.place, STACK, g.lists[STACK]);
  }

  /** No thread is inside an operation. */
  predicate Quiescent(s: State) {
    forall u :: 0 <= u < |s.threads| ==> s.threads[u].pc.Idle? || s.threads[u].pc.Exited?
  }

  lemma OneMoreCounted(list: seq<Ptr>, k: nat, a: Ptr)
    requires 0 < k <= |list|
    ensures multiset(list[..k])[a] == multiset(list[..k - 1])[a] + if list[k - 1] == a then 1 else 0
  {
    assert list[..k] == list[..k - 1] + [list[k - 1]];
  }

  lemma {:induction false} CountInList(place: Places, l: nat, list: seq<Ptr>, k: nat, a: Ptr)
    requires k <= |list| && forall d :: 0 <= d < |list| ==> list[d] in place && place[list[d]] == InList(l, d)
    ensures multiset(list[..k])[a] == if a in place && place[a].InList? && place[a].list == l
                                         && place[a].depth < k && list[place[a].depth] == a then 1 else 0
  {
    if k > 0 {
      CountInList(place, l, list, k - 1, a);
      OneMoreCounted(list, k, a);
    }
  }

  /** Between operations the memory is just the stack and the reclaim list, each node once: what
      `stack_free` and the final check of the benchmark start from. */
  lemma QuiescentLayout(states: seq<State>, events: seq<Event>, threads: nat, i: nat)
    requires IsRun(states, events, threads) && threads <= MAX_HAZARD_POINTERS && i < |states|
    requires Quiescent(states[i])
    ensures exists stack, reclaim :: Layout(states[i].heap, stack, reclaim)
              && states[i].head == Top(stack) && states[i].toReclaim == Top(reclaim)
              && Contents(states[i].heap, stack) == Atoms(states, events)[i].contents
  {
    RunKeepsInv(states, events, threads, i);
    var s, g := states[i], HistoryAt(states, events, i);
    var stack, reclaim := g.lists[STACK], g.lists[RECLAIM];
    TopPlaced(s, g, STACK);
    TopPlaced(s, g, RECLAIM);
    assert ListOk(s.heap, g.place, STACK, stack) && ListOk(s.heap, g.place, RECLAIM, reclaim);
    forall a
      ensures multiset(stack)[a] + multiset(reclaim)[a] == if a in s.heap then 1 else 0
    {
      CountInList(g.place, STACK, stack, |stack|, a);
      CountInList(g.place, RECLAIM, reclaim, |reclaim|, a);
      assert stack[..|stack|] == stack && reclaim[..|reclaim|] == reclaim;
      if a in s.heap {
        assert NodeOk(g.lists, HeldNodes(s), a, g.place[a]);
        NothingInHand(s, g, a);
      }
    }
    assert Layout(s.heap, stack, reclaim);
  }

  lemma NothingTaken(s: State, g: History, l: nat)
    requires Inv(s, g) && Quiescent(s) && 2 <= l < |g.lists|
    ensures g.lists[l] == []
  {
    TopPlaced(s, g, l);
    assert Roots(s)[l] == PassRest(s.threads[l - 2].pc) == NULL;
    assert ListOk(s.heap, g.place, l, g.lists[l]);
  }

  lemma Placed(s: State, g: History, a: Ptr)
    requires Inv(s, g) && a in s.heap
    ensures a in g.place && a != NULL && NodeOk(g.lists, HeldNodes(s), a, g.place[a])
  {
  }

  lemma NoneHeld(s: State)
    requires Quiescent(s)
    ensures |HeldNodes(s)| == |s.threads| && forall u :: 0 <= u < |s.threads| ==> HeldNodes(s)[u] == NULL
  {
  }

  lemma NothingInHand(s: State, g: History, a: Ptr)
    requires Inv(s, g) && Quiescent(s) && a in s.heap
    ensures g.place[a].InList? && g.place[a].list < 2
    ensures g.place[a].depth < |g.lists[g.place[a].list]| && g.lists[g.place[a].list][g.place[a].depth] == a
  {
    hide Inv, HeldNodes;
    Placed(s, g, a);
    NoneHeld(s);
    if g.place[a].InList? && g.place[a].list >= 2 { NothingTaken(s, g, g.place[a].list); }
  }
}
