/** With keys owned by threads every run of the list is a run of the atomic map. */
module ListLinearizability {
  import opened Refs
  import opened ListMemory
  import opened ListMachine
  import opened ListInvariant
  import opened ListHistory
  import opened ListOwnership
  import opened AtomicMap

  ghost function Contents(mem: Memory): map<int, int>
    requires Unique(mem)
  {
    map x | 0 <= x < |mem| && Live(mem, x, mem[x].key) :: mem[x].key := mem[x].value
  }

  lemma ContentsAt(mem: Memory, x: Ref, key: int)
    requires Unique(mem) && Live(mem, x, key)
    ensures key in Contents(mem) && Contents(mem)[key] == mem[x].value
  {
  }

  lemma ContentsAbsent(mem: Memory, key: int)
    requires Unique(mem) && Absent(mem, key)
    ensures key !in Contents(mem)
  {
  }

  /** The two memories hold the same for every other key. */
  ghost predicate AgreeBut(mem: Memory, mem': Memory, key: int) {
    forall x, k :: k != key ==>
      (Live(mem', x, k) <==> Live(mem, x, k)) && (Live(mem, x, k) ==> mem'[x].value == mem[x].value)
  }

  lemma ContentsAgree(mem: Memory, mem': Memory, key: int)
    requires Unique(mem) && Unique(mem') && AgreeBut(mem, mem', key)
    ensures Contents(mem') - {key} == Contents(mem) - {key}
  {
    forall k | k != key
      ensures k in Contents(mem) <==> k in Contents(mem')
      ensures k in Contents(mem) ==> Contents(mem)[k] == Contents(mem')[k]
    {
      if k in Contents(mem) {
        var x :| 0 <= x < |mem| && Live(mem, x, mem[x].key) && mem[x].key == k;
        ContentsAt(mem, x, k);
        assert Live(mem', x, k);
        ContentsAt(mem', x, k);
      }
      if k in Contents(mem') {
        var x :| 0 <= x < |mem'| && Live(mem', x, mem'[x].key) && mem'[x].key == k;
        assert Live(mem, x, k);
        ContentsAt(mem, x, k);
      }
    }
  }

  function Visibly(s: State, e: Event): Visible
    requires Enabled(s, e)
  {
    var pc := s.threads[e.thread].pc;
    if pc.Idle? then Invoke(e.action.op) else if pc.Return? then Respond(pc.result) else Hidden
  }

  predicate Unlinking(pc: Pc) {
    pc.RetireTower? || (Filling(pc) && pc.goal.Unlink?)
  }

  function StatusOf(th: Thread): Status {
    if th.pc.Idle? then Ready
    else if th.pc.Return? then Finished(th.pc.result)
    else if Unlinking(th.pc) || th.pc.IndexLink? then Finished(Done)
    else Called(th.op)
  }

  ghost function Abstraction(s: State): Atomic
    requires Unique(s.mem)
  {
    Atomic(Contents(s.mem), seq(|s.threads|, t requires 0 <= t < |s.threads| => StatusOf(s.threads[t])))
  }

  lemma StepAgrees(s: State, e: Event)
    requires Inv(s) && Enabled(s, e)
    ensures AgreeBut(s.mem, Step(s, e).mem, s.threads[e.thread].op.key)
  {
    var mem', key := Step(s, e).mem, s.threads[e.thread].op.key;
    assert PcOk(s.mem, s.threads[e.thread].op, s.threads[e.thread].pc);
    forall x, k | k != key
      ensures Live(mem', x, k) <==> Live(s.mem, x, k)
      ensures Live(s.mem, x, k) ==> mem'[x].value == s.mem[x].value
    { LiveStep(s, e, x, k); }
  }

  /** What a step may do to the contents and to the status of its thread. */
  ghost predicate Moves(c: map<int, int>, c': map<int, int>, op: Op, was: Status, now: Status, v: Visible) {
    match v
    case Invoke(o) => c' == c && was == Ready && now == Called(o)
    case Respond(r) => c' == c && was == Finished(r) && now == Ready
    case Hidden => (c' == c && now == was) || (was == Called(op) && now.Finished? && Effect(c, op) == (c', now.result))
  }

  ghost predicate StepMoves(s: State, e: Event)
    requires Enabled(s, e) && Unique(s.mem) && Unique(Step(s, e).mem)
  {
    && |Step(s, e).threads| == |s.threads|
    && Moves(Contents(s.mem), Contents(Step(s, e).mem), s.threads[e.thread].op,
             StatusOf(s.threads[e.thread]), StatusOf(Step(s, e).threads[e.thread]), Visibly(s, e))
  }

  /** Two maps that agree but for one key, and on that key. */
  lemma SameMap(c: map<int, int>, c': map<int, int>, key: int)
    requires c' - {key} == c - {key}
    requires (key in c' <==> key in c) && (key in c ==> c'[key] == c[key])
    ensures c' == c
  {
    forall k | k in c
      ensures k in c' && c'[k] == c[k]
    { if k != key { assert k in c - {key} && (c' - {key})[k] == (c - {key})[k]; } }
    forall k | k in c'
      ensures k in c
    { if k != key { assert k in c' - {key}; } }
  }

  lemma UpdatedMap(c: map<int, int>, c': map<int, int>, key: int)
    requires c' - {key} == c - {key} && key in c'
    ensures c' == c[key := c'[key]]
  {
    forall k | k in c'
      ensures k in c[key := c'[key]] && c[key := c'[key]][k] == c'[k]
    { if k != key { assert k in c' - {key} && (c' - {key})[k] == (c - {key})[k]; } }
    forall k | k in c
      ensures k in c'
    { if k != key { assert k in c - {key}; } }
  }

  /** The steps that take no effect on the contents. */
  predicate KeepsContents(pc: Pc) {
    !pc.UpdateStore? && !pc.InsertCas? && !pc.MarkCas?
  }

  lemma ContentsKept(owner: int -> nat, s: State, e: Event)
    requires Enabled(s, e) && OwnInv(owner, s) && OwnInv(owner, Step(s, e))
    requires KeepsContents(s.threads[e.thread].pc) || Step(s, e).mem == s.mem
    ensures Contents(Step(s, e).mem) == Contents(s.mem)
  {
    var mem', key := Step(s, e).mem, s.threads[e.thread].op.key;
    StepAgrees(s, e);
    ContentsAgree(s.mem, mem', key);
    assert PcOk(s.mem, s.threads[e.thread].op, s.threads[e.thread].pc);
    if x :| Live(s.mem, x, key) {
      LiveStep(s, e, x, key);
      ContentsAt(s.mem, x, key);
      ContentsAt(mem', x, key);
    } else {
      AbsentStep(s, e, key);
      ContentsAbsent(s.mem, key);
      ContentsAbsent(mem', key);
    }
    SameMap(Contents(s.mem), Contents(mem'), key);
  }

  lemma Known(owner: int -> nat, s: State, t: nat)
    requires OwnInv(owner, s) && t < |s.threads|
    ensures Inv(s) && Unique(s.mem) && PcOk(s.mem, s.threads[t].op, s.threads[t].pc)
    ensures !s.threads[t].pc.Idle? ==> PcOwned(s.mem, s.threads[t].pc, s.threads[t].op.key)
  {
  }

  lemma InsertMoves(owner: int -> nat, s: State, e: Event)
    requires Enabled(s, e) && OwnInv(owner, s) && OwnInv(owner, Step(s, e))
    requires s.threads[e.thread].pc.UpdateStore? || s.threads[e.thread].pc.InsertCas?
    ensures StepMoves(s, e)
  {
    hide OwnInv, Inv, Contents, Unique;
    var pc, op, mem' := s.threads[e.thread].pc, s.threads[e.thread].op, Step(s, e).mem;
    Known(owner, s, e.thread);
    if pc.InsertCas? && mem' == s.mem {
      ContentsKept(owner, s, e);
    } else {
      StepAgrees(s, e);
      Known(owner, Step(s, e), e.thread);
      ContentsAgree(s.mem, mem', op.key);
      ContentsAt(mem', if pc.UpdateStore? then pc.tower else pc.node, op.key);
      UpdatedMap(Contents(s.mem), Contents(mem'), op.key);
    }
  }

  lemma MarkMoves(owner: int -> nat, s: State, e: Event)
    requires Enabled(s, e) && OwnInv(owner, s) && OwnInv(owner, Step(s, e)) && s.threads[e.thread].pc.MarkCas?
    ensures StepMoves(s, e)
  {
    hide OwnInv, Inv, Contents, Unique;
    var pc, op, mem' := s.threads[e.thread].pc, s.threads[e.thread].op, Step(s, e).mem;
    Known(owner, s, e.thread);
    if s.mem[pc.tower].next == pc.next {
      StepAgrees(s, e);
      Known(owner, Step(s, e), e.thread);
      ContentsAgree(s.mem, mem', op.key);
      ContentsAbsent(mem', op.key);
      RemoveAbsent(Contents(mem'), op.key);
    } else {
      ContentsKept(owner, s, e);
    }
  }

  /** The search has decided: what it found says whether the key is in the contents. */
  lemma DecideMoves(owner: int -> nat, s: State, e: Event)
    requires Enabled(s, e) && OwnInv(owner, s) && OwnInv(owner, Step(s, e)) && s.threads[e.thread].pc.FillNext?
    ensures StepMoves(s, e)
  {
    hide OwnInv, Inv, Contents, Unique;
    var pc, op := s.threads[e.thread].pc, s.threads[e.thread].op;
    Known(owner, s, e.thread);
    ContentsKept(owner, s, e);
    if pc.next == NIL || (!s.mem[pc.next].marked && s.mem[pc.next].key > op.key) {
      StopOwned(s, pc.next, op.key);
      ContentsAbsent(s.mem, op.key);
      RemoveAbsent(Contents(s.mem), op.key);
    }
  }

  lemma RemoveAbsent(c: map<int, int>, key: int)
    requires key !in c
    ensures c - {key} == c
  {
  }

  lemma SearchMoves(owner: int -> nat, s: State, e: Event)
    requires Enabled(s, e) && OwnInv(owner, s) && OwnInv(owner, Step(s, e)) && s.threads[e.thread].pc.SearchRead?
    ensures StepMoves(s, e)
  {
    hide OwnInv, Inv, Contents, Unique;
    var pc, op := s.threads[e.thread].pc, s.threads[e.thread].op;
    Known(owner, s, e.thread);
    ContentsKept(owner, s, e);
    ContentsAt(s.mem, pc.tower, op.key);
  }

  /** The other steps change at most the status of their thread. */
  lemma QuietMoves(owner: int -> nat, s: State, e: Event)
    requires Enabled(s, e) && OwnInv(owner, s) && OwnInv(owner, Step(s, e))
    requires KeepsContents(s.threads[e.thread].pc)
    requires !s.threads[e.thread].pc.FillNext? && !s.threads[e.thread].pc.SearchRead?
    ensures StepMoves(s, e)
  {
    hide OwnInv, Inv, Contents, Unique, PcOwned;
    Known(owner, s, e.thread);
    MemoryEvolves(s, e);
    Known(owner, Step(s, e), e.thread);
    ContentsKept(owner, s, e);
  }

  lemma EveryStepMoves(owner: int -> nat, s: State, e: Event)
    requires Enabled(s, e) && OwnInv(owner, s) && OwnInv(owner, Step(s, e))
    ensures StepMoves(s, e)
  {
    hide OwnInv, Inv, Unique, Moves;
    var pc := s.threads[e.thread].pc;
    if pc.UpdateStore? || pc.InsertCas? {
      InsertMoves(owner, s, e);
    } else if pc.MarkCas? {
      MarkMoves(owner, s, e);
    } else if pc.FillNext? {
      DecideMoves(owner, s, e);
    } else if pc.SearchRead? {
      SearchMoves(owner, s, e);
    } else {
      QuietMoves(owner, s, e);
    }
  }

  lemma OwnKnown(owner: int -> nat, s: State)
    requires OwnInv(owner, s)
    ensures Inv(s) && Unique(s.mem)
  {
  }

  lemma Refines(owner: int -> nat, s: State, e: Event)
    requires OwnInv(owner, s) && Enabled(s, e) && Disciplined(owner, s, e)
    ensures OwnInv(owner, Step(s, e))
    ensures AtomicStep(Abstraction(s), Abstraction(Step(s, e)), e.thread, Visibly(s, e))
  {
    hide OwnInv, Inv, Step, Contents, Unique, Effect, Visibly, StatusOf;
    OwnStep(owner, s, e);
    OwnKnown(owner, s);
    OwnKnown(owner, Step(s, e));
    var a, a' := Abstraction(s), Abstraction(Step(s, e));
    MemoryEvolves(s, e);
    EveryStepMoves(owner, s, e);
    assert a'.status == a.status[e.thread := a'.status[e.thread]];
  }

  ghost predicate IsOwnedRun(owner: int -> nat, states: seq<State>, events: seq<Event>, threads: nat) {
    IsRun(states, events, threads) && forall i :: 0 <= i < |events| ==> Disciplined(owner, states[i], events[i])
  }

  lemma {:induction false} OwnedRunKeepsInv(owner: int -> nat, states: seq<State>, events: seq<Event>, threads: nat,
                                            i: nat)
    requires IsOwnedRun(owner, states, events, threads) && i < |states|
    ensures OwnInv(owner, states[i])
  {
    if i == 0 {
      RunKeepsInv(states, events, threads, 0);
    } else {
      OwnedRunKeepsInv(owner, states, events, threads, i - 1);
      assert Enabled(states[i - 1], events[i - 1]) && Disciplined(owner, states[i - 1], events[i - 1]);
      OwnStep(owner, states[i - 1], events[i - 1]);
    }
  }

  /** What the clients of a run see. */
  function Trace(states: seq<State>, events: seq<Event>): seq<(nat, Visible)>
    requires |states| == |events| + 1
    requires forall i :: 0 <= i < |events| ==> Enabled(states[i], events[i])
  {
    seq(|events|, i requires 0 <= i < |events| => (events[i].thread, Visibly(states[i], events[i])))
  }

  ghost function Atoms(states: seq<State>): seq<Atomic>
    requires forall i :: 0 <= i < |states| ==> Unique(states[i].mem)
  {
    seq(|states|, i requires 0 <= i < |states| => Abstraction(states[i]))
  }

  /** Linearizability under key ownership: with the same calls and the same results every run is one of
      the atomic map, so a search hits exactly what its own thread inserted and has not removed. */
  lemma Linearizable(owner: int -> nat, states: seq<State>, events: seq<Event>, threads: nat)
    requires IsOwnedRun(owner, states, events, threads)
    ensures forall i :: 0 <= i < |states| ==> Unique(states[i].mem)
    ensures IsAtomicRun(Atoms(states), Trace(states, events), threads)
  {
    forall i | 0 <= i < |states|
      ensures Unique(states[i].mem)
    { OwnedRunKeepsInv(owner, states, events, threads, i); }
    forall i | 0 <= i < |events|
      ensures AtomicStep(Atoms(states)[i], Atoms(states)[i + 1], events[i].thread, Visibly(states[i], events[i]))
    {
      OwnedRunKeepsInv(owner, states, events, threads, i);
      assert Enabled(states[i], events[i]) && Disciplined(owner, states[i], events[i]);
      Refines(owner, states[i], events[i]);
    }
    assert Contents(states[0].mem) == map[];
  }

  /** What a thread retires has left the list for good: no walk from the header meets it again. */
  lemma {:induction false} RetiredStaysOff(owner: int -> nat, states: seq<State>, events: seq<Event>, threads: nat,
                                           i: nat, j: nat)
    requires IsOwnedRun(owner, states, events, threads) && i < j < |states|
    requires events[i].thread < |states[i].threads| && states[i].threads[events[i].thread].pc.RetireTower?
    ensures !OnWalk(states[j].mem, states[i].threads[events[i].thread].pc.tower)
    ensures IsLinked(states[j].mem, states[i].threads[events[i].thread].pc.tower)
    decreases j
  {
    hide OwnInv, Inv, Step, OnWalk;
    var x := states[i].threads[events[i].thread].pc.tower;
    OwnedRunKeepsInv(owner, states, events, threads, j - 1);
    assert Enabled(states[j - 1], events[j - 1]);
    if i < j - 1 {
      RetiredStaysOff(owner, states, events, threads, i, j - 1);
    } else {
      RetiringIsOff(owner, states[i], events[i]);
    }
    OffStep(owner, states[j - 1], events[j - 1], x);
  }

  lemma RetiringIsOff(owner: int -> nat, s: State, e: Event)
    requires OwnInv(owner, s) && Enabled(s, e) && s.threads[e.thread].pc.RetireTower?
    ensures var x := s.threads[e.thread].pc.tower; IsLinked(s.mem, x) && !OnWalk(s.mem, x)
  {
    hide OnWalk;
    assert PcOwned(s.mem, s.threads[e.thread].pc, s.threads[e.thread].op.key);
    assert PcOk(s.mem, s.threads[e.thread].op, s.threads[e.thread].pc);
  }

  /** A linked tower that is out of reach stays so. */
  lemma OffStep(owner: int -> nat, s: State, e: Event, x: Ref)
    requires OwnInv(owner, s) && Enabled(s, e) && IsLinked(s.mem, x) && !OnWalk(s.mem, x)
    ensures IsLinked(Step(s, e).mem, x) && !OnWalk(Step(s, e).mem, x)
  {
    hide OnWalk;
    MemoryEvolves(s, e);
    assert PcOk(s.mem, s.threads[e.thread].op, s.threads[e.thread].pc);
    if OnWalk(Step(s, e).mem, x) { WalkStep(s, e, x); }
  }

  /** What has been retired is out of reach. */
  ghost predicate RetiredOff(s: State) {
    forall x :: x in s.retired ==> IsLinked(s.mem, x) && !OnWalk(s.mem, x)
  }

  lemma RetiredOffStep(owner: int -> nat, s: State, e: Event)
    requires OwnInv(owner, s) && Enabled(s, e) && RetiredOff(s)
    ensures RetiredOff(Step(s, e))
  {
    hide OwnInv, OnWalk;
    forall x | x in Step(s, e).retired
      ensures IsLinked(Step(s, e).mem, x) && !OnWalk(Step(s, e).mem, x)
    {
      if !(x in s.retired) { RetiringIsOff(owner, s, e); }
      OffStep(owner, s, e, x);
    }
  }

  /** With owned keys no walk from the header meets a retired tower, in any state of any run. */
  lemma {:induction false} RetiredAreOff(owner: int -> nat, states: seq<State>, events: seq<Event>, threads: nat,
                                         i: nat)
    requires IsOwnedRun(owner, states, events, threads) && i < |states|
    ensures RetiredOff(states[i])
  {
    if i > 0 {
      RetiredAreOff(owner, states, events, threads, i - 1);
      OwnedRunKeepsInv(owner, states, events, threads, i - 1);
      assert Enabled(states[i - 1], events[i - 1]);
      RetiredOffStep(owner, states[i - 1], events[i - 1]);
    }
  }
}
