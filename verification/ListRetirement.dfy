/** Removed towers are retired exactly once, also when several threads remove the
    same key at the same time.
  */
module ListRetirement {
  import opened Refs
  import opened ListMemory
  import opened ListMachine
  import opened ListInvariant
  import opened Sums

  /** The tower a thread has marked and not yet retired, or NIL. */
  function Removing(pc: Pc): Ref {
    match pc
    case FillLoad(Unlink(x), _) => x
    case FillNext(Unlink(x), _, _) => x
    case FillCas(Unlink(x), _, _, _) => x
    case RetireTower(x) => x
    case _ => NIL
  }

  predicate IsRemoved(mem: Memory, x: Ref) {
    0 <= x < |mem| && mem[x].marked
  }

  function Removers(s: State, x: Ref): seq<nat> {
    seq(|s.threads|, t requires 0 <= t < |s.threads| => if Removing(s.threads[t].pc) == x then 1 else 0)
  }

  /** A tower that has been marked is in the hand of one remover or once on a reclaim list; no other tower
      is. */
  ghost predicate RetiredOnce(s: State) {
    forall x :: x != NIL ==> multiset(s.retired)[x] + Sum(Removers(s, x)) == if IsRemoved(s.mem, x) then 1 else 0
  }

  lemma RemoversStep(s: State, e: Event, x: Ref)
    requires Enabled(s, e) && x != NIL
    ensures var s' := Step(s, e);
      && |s'.threads| == |s.threads|
      && Sum(Removers(s', x)) + (if Removing(s.threads[e.thread].pc) == x then 1 else 0)
      == Sum(Removers(s, x)) + (if Removing(s'.threads[e.thread].pc) == x then 1 else 0)
  {
    var s', t := Step(s, e), e.thread;
    assert s'.threads == s.threads[t := s'.threads[t]];
    var one: nat := if Removing(s'.threads[t].pc) == x then 1 else 0;
    SumUpdate(Removers(s, x), t, one);
    assert Removers(s', x) == Removers(s, x)[t := one];
  }

  /** The walk of `fill_tables` marks nothing and keeps the tower in hand. */
  lemma FillStep(s: State, e: Event, x: Ref)
    requires Enabled(s, e) && Filling(s.threads[e.thread].pc)
    ensures var s', pc := Step(s, e), s.threads[e.thread].pc; var pc' := s'.threads[e.thread].pc;
      s'.retired == s.retired && Removing(pc') == Removing(pc) && IsRemoved(s'.mem, x) == IsRemoved(s.mem, x)
  {
  }

  /** Outside of it a tower is marked and retired by these two steps only. */
  lemma OtherStep(s: State, e: Event, x: Ref)
    requires Enabled(s, e) && !Filling(s.threads[e.thread].pc) && x != NIL
    requires !s.threads[e.thread].pc.MarkCas? && !s.threads[e.thread].pc.RetireTower?
    ensures var s', pc := Step(s, e), s.threads[e.thread].pc; var pc' := s'.threads[e.thread].pc;
      && s'.retired == s.retired && Removing(pc') != x && Removing(pc) != x
      && IsRemoved(s'.mem, x) == IsRemoved(s.mem, x)
  {
  }

  /** The hand of the thread itself: it takes the tower it marks and gives it away when it retires it. */
  lemma HandStep(s: State, e: Event, x: Ref)
    requires Enabled(s, e) && x != NIL
    ensures var s', pc := Step(s, e), s.threads[e.thread].pc; var pc' := s'.threads[e.thread].pc;
      multiset(s'.retired)[x] + (if Removing(pc') == x then 1 else 0) + (if IsRemoved(s.mem, x) then 1 else 0)
      == multiset(s.retired)[x] + (if Removing(pc) == x then 1 else 0) + (if IsRemoved(s'.mem, x) then 1 else 0)
  {
    var pc := s.threads[e.thread].pc;
    if Filling(pc) {
      FillStep(s, e, x);
    } else if !pc.MarkCas? && !pc.RetireTower? {
      OtherStep(s, e, x);
    }
  }

  lemma StepKeeps(s: State, e: Event)
    requires RetiredOnce(s) && Enabled(s, e)
    ensures RetiredOnce(Step(s, e))
  {
    hide Step, Enabled, Removing;
    forall x | x != NIL
      ensures multiset(Step(s, e).retired)[x] + Sum(Removers(Step(s, e), x))
           == if IsRemoved(Step(s, e).mem, x) then 1 else 0
    {
      RemoversStep(s, e, x);
      HandStep(s, e, x);
    }
  }

  /** In every interleaving, whatever keys the threads use, a tower is retired at most once, and only after
      it has been marked; when no removal is under way exactly the marked towers have been retired. */
  lemma {:induction false} RemovedAreRetiredOnce(states: seq<State>, events: seq<Event>, threads: nat, i: nat)
    requires IsRun(states, events, threads) && i < |states|
    ensures RetiredOnce(states[i])
    ensures forall x :: x != NIL ==>
      multiset(states[i].retired)[x] <= 1 && (x in states[i].retired ==> IsRemoved(states[i].mem, x))
    ensures (forall t :: 0 <= t < |states[i].threads| ==> Removing(states[i].threads[t].pc) == NIL) ==>
      forall x :: x != NIL ==> (x in states[i].retired <==> IsRemoved(states[i].mem, x))
  {
    if i == 0 {
      forall x: Ref | x != NIL
        ensures Sum(Removers(states[0], x)) == 0
      { SumConstant(Removers(states[0], x), 0); }
    } else {
      RemovedAreRetiredOnce(states, events, threads, i - 1);
      assert Enabled(states[i - 1], events[i - 1]);
      StepKeeps(states[i - 1], events[i - 1]);
    }
    forall x | x != NIL && forall t :: 0 <= t < |states[i].threads| ==> Removing(states[i].threads[t].pc) == NIL
      ensures x in states[i].retired <==> IsRemoved(states[i].mem, x)
    { SumConstant(Removers(states[i], x), 0); }
  }
}
