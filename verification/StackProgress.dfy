/** The stack is non-blocking: a thread that runs alone finishes its operation, wherever the
    others have stopped, and a CAS on the head fails only if another operation has taken effect.
  */
module StackProgress {
  import opened StackMachine
  import opened NodeOwnership
  import opened StackInvariant
  import opened StackSafety
  import opened StackGuard
  import opened StackLinearizability

  /** Steps left in `add_to_reclaim_list`, if nobody interferes. */
  function RetireRank(s: State, pc: Pc): nat {
    match pc
    case RetireLoad(_, _) => 4
    case RetireLink(_, top, _) => if top == s.toReclaim then 3 else 6
    case RetireCas(n, _) => if n in s.heap && s.heap[n].next == s.toReclaim then 2 else 5
    case _ => 0
  }

  /** And in a reclaim pass with n nodes left of the list. */
  function PassRank(s: State, pc: Pc, n: nat): nat {
    match pc
    case PassNext(_) => 100 * n
    case PassScan(_, _, i) => 100 * n + 20 + if i < 64 then 64 - i else 0
    case PassFree(_, _) => 100 * n + 19
    case _ => 100 * n + 10 + RetireRank(s, pc)
  }

  /** In a pop that has taken its node, with n nodes on the reclaim list. */
  function PopRank(s: State, pc: Pc, n: nat): nat {
    match pc
    case PassTake => 100 * n + 2
    case Reset => 100 * n + 3
    case Count => 100 * n + 4
    case PopData(_) => 100 * n + 120
    case PopClear(_) => 100 * n + 121
    case PopCas(h, _) => 100 * n + if h == s.head then 122 else 127
    case PopNext(h) => 100 * n + if h == s.head then 123 else 128
    case PopValidate(h) => 100 * n + if h == s.head then 124 else 127
    case PopPublish(h) => 100 * n + if h == s.head then 125 else 128
    case PopLoad => 100 * n + 126
    case Claim(i) => 100 * n + 130 + if i < 64 then 64 - i else 0
    case _ => 100 * n + 110 + RetireRank(s, pc)
  }

  function PushRank(s: State, pc: Pc): nat {
    match pc
    case PushAlloc(_) => 6
    case PushData(_, _) => 5
    case PushLoad(_) => 4
    case PushLink(_, top) => if top == s.head then 3 else 6
    case PushCas(_, top) => if top == s.head then 2 else 5
    case _ => 0
  }

  /** The thread is in a reclaim pass, or retires for one. */
  predicate InPass(pc: Pc) {
    match pc
    case PassNext(_) => true
    case PassScan(_, _, _) => true
    case PassFree(_, _) => true
    case RetireLoad(_, caller) => caller.FromPass?
    case RetireLink(_, _, caller) => caller.FromPass?
    case RetireCas(_, caller) => caller.FromPass?
    case _ => false
  }

  predicate InPush(pc: Pc) {
    pc.PushAlloc? || pc.PushData? || pc.PushLoad? || pc.PushLink? || pc.PushCas?
  }

  /** A bound for the steps thread t needs alone; `taken` and `listed` are the lengths of its list and of the
      reclaim list. */
  function Rank(s: State, pc: Pc, taken: nat, listed: nat): nat {
    match pc
    case Idle => 0
    case Exited => 0
    case PushReturn => 1
    case PopReturn(_) => 1
    case ExitClear => 2
    case ExitRelease => 1
    case _ =>
      if InPush(pc) then PushRank(s, pc)
      else if InPass(pc) then PassRank(s, pc, taken)
      else PopRank(s, pc, listed)
  }

  function RankOf(s: State, g: History, t: nat): nat
    requires t < |s.threads| && |g.lists| == |s.threads| + 2
  {
    Rank(s, s.threads[t].pc, |g.lists[Taken(t)]|, |g.lists[RECLAIM]|)
  }

  /** A step of an operation that is under way, without a spurious failure. */
  predicate Works(s: State, e: Event) {
    Enabled(s, e) && !s.threads[e.thread].pc.Idle? && !e.action.Spurious?
  }

  lemma PushAdvances(s: State, g: History, e: Event)
    requires Inv(s, g) && Works(s, e) && InPush(s.threads[e.thread].pc)
    ensures |Step(s, e).threads| == |s.threads| && |Track(s, g, e).lists| == |g.lists|
    ensures RankOf(Step(s, e), Track(s, g, e), e.thread) < RankOf(s, g, e.thread)
  {
    NoFault(s, g, e);
    Allocated(s, g, e.thread);
  }

  lemma Known(s: State, g: History, e: Event)
    requires Inv(s, g) && Enabled(s, e)
    ensures |g.lists| == |s.threads| + 2 && !Step(s, e).fault && LocalOk(s.threads[e.thread])
    ensures var pc := s.threads[e.thread].pc;
      && (HeldNode(pc) != NULL ==> HeldNode(pc) in s.heap)
      && (PassRest(pc) != NULL ==> PassRest(pc) in s.heap)
  {
    NoFault(s, g, e);
    Allocated(s, g, e.thread);
  }

  lemma NextKnown(s: State, g: History, t: nat)
    requires Inv(s, g) && t < |s.threads| && s.threads[t].pc.PassNext?
    ensures |g.lists| == |s.threads| + 2 && g.lists[Taken(t)] != []
  {
    TopPlaced(s, g, Taken(t));
    RootTaken(s, t);
    assert LocalOk(s.threads[t]);
  }

  lemma NextAdvances(s: State, g: History, e: Event)
    requires Inv(s, g) && Works(s, e)
    requires var pc := s.threads[e.thread].pc; pc.PassNext?
    ensures |Step(s, e).threads| == |s.threads| && |Track(s, g, e).lists| == |g.lists| == |s.threads| + 2
    ensures RankOf(Step(s, e), Track(s, g, e), e.thread) < RankOf(s, g, e.thread)
  {
    hide Inv;
    Known(s, g, e);
    NextKnown(s, g, e.thread);
  }

  lemma ScanAdvances(s: State, g: History, e: Event)
    requires Inv(s, g) && Works(s, e)
    requires var pc := s.threads[e.thread].pc; pc.PassScan? || pc.PassFree?
    ensures |Step(s, e).threads| == |s.threads| && |Track(s, g, e).lists| == |g.lists| == |s.threads| + 2
    ensures RankOf(Step(s, e), Track(s, g, e), e.thread) < RankOf(s, g, e.thread)
  {
    hide Inv;
    Known(s, g, e);
  }

  lemma RetireAdvances(s: State, g: History, e: Event)
    requires Inv(s, g) && Works(s, e)
    requires var pc := s.threads[e.thread].pc; pc.RetireLoad? || pc.RetireLink? || pc.RetireCas?
    ensures |Step(s, e).threads| == |s.threads| && |Track(s, g, e).lists| == |g.lists| == |s.threads| + 2
    ensures RankOf(Step(s, e), Track(s, g, e), e.thread) < RankOf(s, g, e.thread)
  {
    hide Inv;
    Known(s, g, e);
  }

  lemma SearchAdvances(s: State, g: History, e: Event)
    requires Inv(s, g) && Works(s, e)
    requires var pc := s.threads[e.thread].pc; pc.Claim? || pc.PopLoad? || pc.PopPublish? || pc.PopValidate?
    ensures |Step(s, e).threads| == |s.threads| && |Track(s, g, e).lists| == |g.lists| == |s.threads| + 2
    ensures RankOf(Step(s, e), Track(s, g, e), e.thread) < RankOf(s, g, e.thread)
  {
    hide Inv;
    Known(s, g, e);
  }

  lemma TakeAdvances(s: State, g: History, e: Event)
    requires Inv(s, g) && Works(s, e)
    requires var pc := s.threads[e.thread].pc; pc.PopNext? || pc.PopCas? || pc.PopClear? || pc.PopData?
    ensures |Step(s, e).threads| == |s.threads| && |Track(s, g, e).lists| == |g.lists| == |s.threads| + 2
    ensures RankOf(Step(s, e), Track(s, g, e), e.thread) < RankOf(s, g, e.thread)
  {
    hide Inv;
    Known(s, g, e);
  }

  lemma CountAdvances(s: State, g: History, e: Event)
    requires Inv(s, g) && Works(s, e)
    requires var pc := s.threads[e.thread].pc; pc.Count? || pc.Reset? || pc.PassTake?
    ensures |Step(s, e).threads| == |s.threads| && |Track(s, g, e).lists| == |g.lists| == |s.threads| + 2
    ensures RankOf(Step(s, e), Track(s, g, e), e.thread) < RankOf(s, g, e.thread)
  {
    hide Inv;
    Known(s, g, e);
  }

  lemma ReturnAdvances(s: State, g: History, e: Event)
    requires Inv(s, g) && Works(s, e)
    requires var pc := s.threads[e.thread].pc; pc.PushReturn? || pc.PopReturn? || pc.ExitClear? || pc.ExitRelease?
    ensures |Step(s, e).threads| == |s.threads| && |Track(s, g, e).lists| == |g.lists| == |s.threads| + 2
    ensures RankOf(Step(s, e), Track(s, g, e), e.thread) < RankOf(s, g, e.thread)
  {
    hide Inv;
    Known(s, g, e);
  }

  /** Every step of a thread brings it nearer to the end of its operation, if the others stand still: the rank
      depends on them only by the head and the reclaim list. */
  lemma Advances(s: State, g: History, e: Event)
    requires Inv(s, g) && Works(s, e)
    ensures |Step(s, e).threads| == |s.threads| && |Track(s, g, e).lists| == |g.lists| == |s.threads| + 2
    ensures RankOf(Step(s, e), Track(s, g, e), e.thread) < RankOf(s, g, e.thread)
  {
    hide Inv, Step, Track, RankOf;
    Known(s, g, e);
    var pc := s.threads[e.thread].pc;
    if InPush(pc) {
      PushAdvances(s, g, e);
    } else if pc.PassNext? {
      NextAdvances(s, g, e);
    } else if pc.PassScan? || pc.PassFree? {
      ScanAdvances(s, g, e);
    } else if pc.RetireLoad? || pc.RetireLink? || pc.RetireCas? {
      RetireAdvances(s, g, e);
    } else if pc.Claim? || pc.PopLoad? || pc.PopPublish? || pc.PopValidate? {
      SearchAdvances(s, g, e);
    } else if pc.PopNext? || pc.PopCas? || pc.PopClear? || pc.PopData? {
      TakeAdvances(s, g, e);
    } else if pc.Count? || pc.Reset? || pc.PassTake? {
      CountAdvances(s, g, e);
    } else {
      ReturnAdvances(s, g, e);
    }
  }

  /** `malloc` can always return something. */
  lemma FreshAddress(heap: map<Ptr, Node>) returns (a: Ptr)
    ensures a != NULL && a !in heap
  {
    a := Above(heap.Keys);
  }

  lemma {:induction false} Above(used: set<Ptr>) returns (a: Ptr)
    ensures a > 0 && forall x :: x in used ==> x < a
    decreases |used|
  {
    if used == {} {
      a := 1;
    } else {
      var x :| x in used;
      a := Above(used - {x});
      if a <= x { a := x + 1; }
      assert forall y :: y in used ==> y == x || y in used - {x};
    }
  }

  /** The thread's next step. */
  lemma NextAction(s: State, g: History, t: nat) returns (action: Action)
    requires Inv(s, g) && t < |s.threads| && !s.threads[t].pc.Idle? && !s.threads[t].pc.Exited?
    ensures Works(s, Event(t, action))
  {
    action := Tau;
    if s.threads[t].pc.PushAlloc? {
      var a := FreshAddress(s.heap);
      action := Malloc(a, Node(NULL, 0));
    }
  }

  /** From every reachable state thread t can finish its operation by itself: the others may have stopped
      anywhere, and none of them is waited for. */
  lemma {:induction false} FinishesAlone(states: seq<State>, events: seq<Event>, threads: nat, t: nat)
    returns (states': seq<State>, events': seq<Event>)
    requires IsRun(states, events, threads) && threads <= 64 && t < threads
    ensures IsRun(states', events', threads) && states <= states' && events <= events'
    ensures forall k :: |events| <= k < |events'| ==> events'[k].thread == t
    ensures var s := states'[|events'|]; t < |s.threads| && (s.threads[t].pc.Idle? || s.threads[t].pc.Exited?)
    decreases StepsLeft(states, events, t)
  {
    hide Inv, Enabled, Step, Track, RankOf;
    RunKeepsInv(states, events, threads, |events|);
    var s, g := states[|events|], HistoryAt(states, events, |events|);
    Sizes(s, g);
    if s.threads[t].pc.Idle? || s.threads[t].pc.Exited? {
      states', events' := states, events;
    } else {
      var action := NextAction(s, g, t);
      var e := Event(t, action);
      Advances(s, g, e);
      Extend(states, events, threads, e);
      HistoryNext(states, events, threads, e);
      states', events' := FinishesAlone(states + [Step(s, e)], events + [e], threads, t);
    }
  }

  lemma Sizes(s: State, g: History)
    requires Inv(s, g)
    ensures |g.lists| == |s.threads| + 2
  {
  }

  ghost function StepsLeft(states: seq<State>, events: seq<Event>, t: nat): nat
    requires |states| == |events| + 1
  {
    var s, g := states[|events|], HistoryAt(states, events, |events|);
    if t < |s.threads| && |g.lists| == |s.threads| + 2 then RankOf(s, g, t) else 0
  }

  lemma Extend(states: seq<State>, events: seq<Event>, threads: nat, e: Event)
    requires IsRun(states, events, threads) && Enabled(states[|events|], e)
    ensures IsRun(states + [Step(states[|events|], e)], events + [e], threads)
  {
  }

  lemma HistoryNext(states: seq<State>, events: seq<Event>, threads: nat, e: Event)
    requires IsRun(states, events, threads) && Enabled(states[|events|], e)
    requires |HistoryAt(states, events, |events|).lists| == |states[|events|].threads| + 2
    ensures var n := |events|;
      HistoryAt(states + [Step(states[n], e)], events + [e], n + 1) == Track(states[n], HistoryAt(states, events, n), e)
  {
    hide Step, Track, Enabled;
    SameHistory(states, events, states + [Step(states[|events|], e)], events + [e], |events|);
  }

  lemma {:induction false} SameHistory(states: seq<State>, events: seq<Event>, states': seq<State>, events': seq<Event>,
                                       i: nat)
    requires |states| == |events| + 1 && |states'| == |events'| + 1 && states <= states' && events <= events'
    requires i < |states|
    ensures HistoryAt(states', events', i) == HistoryAt(states, events, i)
  {
    hide Step, Track, Enabled;
    if i > 0 { SameHistory(states, events, states', events', i - 1); }
  }

  // Why a CAS fails.

  /** The thread has read the head and goes for its CAS. */
  predicate Trying(pc: Pc) {
    pc.PushLink? || pc.PushCas? || pc.PopNext? || pc.PopCas?
  }

  /** The head it expects. */
  function Expected(pc: Pc): Ptr {
    match pc
    case PushLink(_, top) => top
    case PushCas(_, top) => top
    case PopNext(h) => h
    case PopCas(h, _) => h
    case _ => NULL
  }

  /** The CAS of a push or of a pop succeeds. */
  predicate Succeeds(s: State, e: Event) {
    && e.thread < |s.threads|
    && (s.threads[e.thread].pc.PushCas? || s.threads[e.thread].pc.PopCas?)
    && Expected(s.threads[e.thread].pc) == s.head
  }

  lemma TryingStep(s: State, e: Event, t: nat)
    requires Enabled(s, e) && t < |s.threads|
    ensures |Step(s, e).threads| == |s.threads|
    ensures var pc, pc' := s.threads[t].pc, Step(s, e).threads[t].pc;
      Trying(pc') ==>
        || (Trying(pc) && Expected(pc') == Expected(pc) && (e.thread == t ==> !Succeeds(s, e)))
        || (e.thread == t && Expected(pc') == s.head && !Trying(pc))
  {
    if e.thread == t { OwnTryingStep(s, e); }
  }

  lemma OwnTryingStep(s: State, e: Event)
    requires Enabled(s, e)
    ensures |Step(s, e).threads| == |s.threads|
    ensures var pc, pc' := s.threads[e.thread].pc, Step(s, e).threads[e.thread].pc;
      Trying(pc') ==>
        || (Trying(pc) && Expected(pc') == Expected(pc) && !Succeeds(s, e))
        || (Expected(pc') == s.head && !Trying(pc))
  {
    hide Step, Expected, Succeeds;
    if Trying(s.threads[e.thread].pc) { AttemptGoesOn(s, e); } else { AttemptBegins(s, e); }
  }

  lemma AttemptGoesOn(s: State, e: Event)
    requires Enabled(s, e) && Trying(s.threads[e.thread].pc)
    ensures |Step(s, e).threads| == |s.threads|
    ensures var pc, pc' := s.threads[e.thread].pc, Step(s, e).threads[e.thread].pc;
      Trying(pc') ==> Expected(pc') == Expected(pc) && !Succeeds(s, e)
  {
  }

  lemma AttemptBegins(s: State, e: Event)
    requires Enabled(s, e) && !Trying(s.threads[e.thread].pc)
    ensures |Step(s, e).threads| == |s.threads|
    ensures Trying(Step(s, e).threads[e.thread].pc) ==> Expected(Step(s, e).threads[e.thread].pc) == s.head
  {
    var pc := s.threads[e.thread].pc;
    if !pc.PushLoad? && !pc.PopValidate? { NoAttempt(s, e); }
  }

  lemma NoAttempt(s: State, e: Event)
    requires Enabled(s, e)
    requires var pc := s.threads[e.thread].pc; !Trying(pc) && !pc.PushLoad? && !pc.PopValidate?
    ensures |Step(s, e).threads| == |s.threads| && !Trying(Step(s, e).threads[e.thread].pc)
  {
    hide Step;
    SameThreads(s, e);
    Unprotected(s, e);
    NoPushLink(s, e);
    NoPushCas(s, e);
  }

  lemma NoPushLink(s: State, e: Event)
    requires Enabled(s, e)
    ensures e.thread < |Step(s, e).threads|
    ensures Step(s, e).threads[e.thread].pc.PushLink? ==>
      s.threads[e.thread].pc.PushLoad? || s.threads[e.thread].pc.PushLink?
  {
  }

  lemma NoPushCas(s: State, e: Event)
    requires Enabled(s, e)
    ensures e.thread < |Step(s, e).threads|
    ensures Step(s, e).threads[e.thread].pc.PushCas? ==>
      s.threads[e.thread].pc.PushLink? || s.threads[e.thread].pc.PushCas?
  {
  }

  /** Where the thread has read the head it expects. */
  lemma {:induction false} AttemptBegan(states: seq<State>, events: seq<Event>, threads: nat, t: nat, j: nat)
    returns (i: nat)
    requires IsRun(states, events, threads) && j < |states|
    requires t < |states[j].threads| && Trying(states[j].threads[t].pc)
    ensures i < j && events[i].thread == t && states[i].head == Expected(states[j].threads[t].pc)
    ensures t < |states[i].threads| && !Trying(states[i].threads[t].pc)
    ensures forall m :: i < m < j && events[m].thread == t ==> !Succeeds(states[m], events[m])
    decreases j
  {
    hide Step, Trying, Succeeds;
    if j == 0 { NoneTrying(threads, t); }
    assert Enabled(states[j - 1], events[j - 1]);
    SameThreads(states[j - 1], events[j - 1]);
    TryingStep(states[j - 1], events[j - 1], t);
    if Trying(states[j - 1].threads[t].pc) {
      i := AttemptBegan(states, events, threads, t, j - 1);
    } else {
      i := j - 1;
    }
  }

  lemma NoneTrying(threads: nat, t: nat)
    requires t < threads
    ensures !Trying(Init(threads).threads[t].pc)
  {
  }

  lemma SameThreads(s: State, e: Event)
    requires Enabled(s, e)
    ensures |Step(s, e).threads| == |s.threads|
  {
  }

  lemma HeadMoves(s: State, e: Event)
    requires Enabled(s, e)
    ensures Step(s, e).head != s.head ==> Succeeds(s, e)
  {
  }

  lemma {:induction false} HeadMoved(states: seq<State>, events: seq<Event>, threads: nat, i: nat, j: nat)
    returns (k: nat)
    requires IsRun(states, events, threads) && i < j < |states| && states[i].head != states[j].head
    ensures i <= k < j && Succeeds(states[k], events[k])
    decreases j
  {
    hide Step, Succeeds;
    assert Enabled(states[j - 1], events[j - 1]);
    if states[j - 1].head != states[j].head {
      HeadMoves(states[j - 1], events[j - 1]);
      k := j - 1;
    } else {
      k := HeadMoved(states, events, threads, i, j - 1);
    }
  }

  /** If the CAS of thread t on the head fails, the push or the pop of another thread has succeeded since t has
      read the head: some operation always gets on. */
  lemma FailureMeansProgress(states: seq<State>, events: seq<Event>, threads: nat, j: nat)
    requires IsRun(states, events, threads) && j < |events| && events[j].thread < |states[j].threads|
    requires var pc := states[j].threads[events[j].thread].pc;
      (pc.PushCas? || pc.PopCas?) && Expected(pc) != states[j].head
    ensures var t := events[j].thread;
      exists i, k :: 0 <= i < k < j && events[i].thread == t && states[i].head == Expected(states[j].threads[t].pc)
                  && events[k].thread != t && Succeeds(states[k], events[k])
  {
    hide Step;
    var t := events[j].thread;
    var i := AttemptBegan(states, events, threads, t, j);
    var k := HeadMoved(states, events, threads, i, j);
    assert k != i;
  }
}
