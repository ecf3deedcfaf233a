/** With owned keys every run of the whole skip list, all levels included, is a run of the
    atomic map, and no thread ever uses a level that a tower does not have.
  */
module IndexLinearizability {
  import opened Refs
  import opened TaggedPointers
  import opened IndexMachine
  import opened IndexInvariant
  import opened IndexSteps
  import opened IndexRefinement
  import opened AtomicMap
  import L = ListMachine
  import M = ListMemory
  import O = ListOwnership
  import I = ListInvariant
  import R = ListLinearizability

  lemma Knows(owner: int -> nat, s: State, t: nat)
    requires IndexInv(owner, s) && t < |s.threads|
    ensures MemOk(s.mem) && PcAt(s.mem, s.threads[t]) && BottomOk(s, t) && O.OwnInv(owner, StateOf(s))
    ensures !s.threads[t].pc.Idle? ==> owner(s.threads[t].op.key) == t
    ensures !s.threads[t].pc.Idle? ==> O.PcOwned(MemOf(s.mem), PcOf(s.threads[t]), s.threads[t].op.key)
  {
    assert StateOf(s).threads[t] == ThreadOf(s.threads[t]);
    I.LinksKnown(StateOf(s));
  }

  /** The tower a thread is inserting or removing has its key. */
  lemma ReliesOnOwn(owner: int -> nat, s: State, t: nat)
    requires IndexInv(owner, s) && t < |s.threads|
    ensures var x := Relies(s.threads[t].pc);
      0 <= x < |s.mem| ==> x != HEADER && s.mem[x].key == s.threads[t].op.key && owner(s.mem[x].key) == t
  {
    hide IndexInv;
    Knows(owner, s, t);
    hide MemOk, BottomOk, TablesFrom;
    var x := Relies(s.threads[t].pc);
    if 0 <= x < |s.mem| { TowerAt(s.mem, x); }
  }

  /** A tower that a remover finds has been linked at all its levels: its own thread has inserted it. */
  lemma WholeAtHit(owner: int -> nat, s: State, t: nat, x: Ref)
    requires IndexInv(owner, s) && t < |s.threads| && !s.threads[t].pc.Idle? && Inserting(s.threads[t].pc) == NIL
    requires x != HEADER && At(s.mem, x, 0) && s.mem[x].key == s.threads[t].op.key
    ensures 0 < |s.mem[x].forward| == s.mem[x].reached
  {
    Knows(owner, s, t);
    assert TowerOk(s.mem, x);
    if s.mem[x].reached < |s.mem[x].forward| {
      var u :| 0 <= u < |s.threads| && Inserting(s.threads[u].pc) == x;
      InsertingRelies(s.threads[u].pc);
      ReliesOnOwn(owner, s, u);
      assert false;
    }
  }

  lemma InsertingRelies(pc: Pc)
    ensures Inserting(pc) != NIL ==> Relies(pc) == Inserting(pc)
  {
  }

  /** In owned runs no thread is ever stuck or out of bounds. */
  lemma AlwaysInBounds(owner: int -> nat, s: State, t: nat)
    requires IndexInv(owner, s) && t < |s.threads|
    ensures RefsOk(s.mem, s.threads[t])
  {
    hide IndexInv;
    Knows(owner, s, t);
    var th := s.threads[t];
    if th.pc.InsertCas? { TableKnown(s.mem, th, th.pc.lvl); }
    if th.pc.InsertStore? { assert TowerOk(s.mem, th.pc.node); }
  }

  lemma OwnPcAt(owner: int -> nat, s: State, e: Event)
    requires IndexInv(owner, s) && Enabled(s, e)
    ensures e.thread < |Step(s, e).threads| && PcAt(Step(s, e).mem, Step(s, e).threads[e.thread])
  {
    var me := s.threads[e.thread];
    Knows(owner, s, e.thread);
    if me.pc.FillNext? {
      if me.pc.goal.Locate? && me.pc.lvl == 0 && me.pc.next != NIL && s.mem[me.pc.next].key == me.op.key {
        WholeAtHit(owner, s, e.thread, me.pc.next);
      }
      FillNextAt(s, e);
    } else if me.pc.FillLoad? || me.pc.FillCas? {
      FillAt(s, e);
    } else if me.pc.InsertAlloc? || me.pc.InsertStore? || me.pc.InsertCas? {
      InsertAt(s, e);
    } else if me.pc.MarkLevel? || me.pc.MarkLoad? || me.pc.MarkCas? {
      MarkAt(s, e);
    } else if me.pc.Idle? {
      HeaderAt(s.mem, e.action.start);
    }
  }

  lemma OthersPcAt(owner: int -> nat, s: State, e: Event, u: nat)
    requires IndexInv(owner, s) && Enabled(s, e) && u < |s.threads| && u != e.thread
    ensures PcAt(Step(s, e).mem, s.threads[u])
  {
    hide IndexInv;
    Knows(owner, s, e.thread);
    Knows(owner, s, u);
    hide Step, Enabled, PcAt, MemOk, BottomOk;
    MemoryStep(s, e);
    ReliesOnOwn(owner, s, u);
    ReliesOnOwn(owner, s, e.thread);
    OtherPcAt(s.mem, Step(s, e).mem, s.threads[u]);
  }

  /** A thread goes on inserting until its tower is linked at all its levels. */
  lemma InsertingStep(s: State, e: Event, x: Ref)
    requires MemOk(s.mem) && Enabled(s, e) && PcAt(s.mem, s.threads[e.thread]) && 0 < x < |s.mem|
    requires 1 <= Step(s, e).mem[x].reached < |Step(s, e).mem[x].forward|
    requires Inserting(s.threads[e.thread].pc) == x || s.mem[x].reached == 0
    ensures e.thread < |Step(s, e).threads| && Inserting(Step(s, e).threads[e.thread].pc) == x
  {
    hide TowerOk, TablesFrom;
  }

  lemma PartStep(owner: int -> nat, s: State, e: Event)
    requires IndexInv(owner, s) && Enabled(s, e)
    ensures PartIsInserted(Step(s, e))
  {
    var s' := Step(s, e);
    Knows(owner, s, e.thread);
    MemoryStep(s, e);
    ThreadsOf(s, e);
    forall x | 0 < x < |s'.mem| && 1 <= s'.mem[x].reached < |s'.mem[x].forward|
      ensures exists t :: 0 <= t < |s'.threads| && Inserting(s'.threads[t].pc) == x
    {
      NotNew(s, e, x);
      if s.mem[x].reached == 0 {
        InsertingStep(s, e, x);
      } else {
        var u :| 0 <= u < |s.threads| && Inserting(s.threads[u].pc) == x;
        if u == e.thread { InsertingStep(s, e, x); } else { assert s'.threads[u] == s.threads[u]; }
      }
    }
  }

  lemma NotNew(s: State, e: Event, x: Ref)
    requires Enabled(s, e) && 0 < x < |Step(s, e).mem| && Step(s, e).mem[x].reached >= 1
    ensures x < |s.mem|
  {
  }

  predicate Disciplined(owner: int -> nat, e: Event) {
    e.action.Call? ==> owner(e.action.op.key) == e.thread
  }

  lemma BottomStep(owner: int -> nat, s: State, e: Event)
    requires IndexInv(owner, s) && Enabled(s, e) && Disciplined(owner, e)
    ensures O.OwnInv(owner, StateOf(Step(s, e)))
  {
    hide IndexInv;
    Knows(owner, s, e.thread);
    if Silent(s, e) {
      SilentStep(s, e);
    } else {
      LoudStep(s, e);
      O.OwnStep(owner, StateOf(s), EventOf(s, e));
    }
  }

  lemma StepInv(owner: int -> nat, s: State, e: Event)
    requires IndexInv(owner, s) && Enabled(s, e) && Disciplined(owner, e)
    ensures IndexInv(owner, Step(s, e))
  {
    var s' := Step(s, e);
    Knows(owner, s, e.thread);
    BottomStep(owner, s, e);
    MemoryStep(s, e);
    ThreadsOf(s, e);
    PartStep(owner, s, e);
    forall u | 0 <= u < |s'.threads|
      ensures PcAt(s'.mem, s'.threads[u])
    { if u == e.thread { OwnPcAt(owner, s, e); } else { OthersPcAt(owner, s, e, u); } }
  }

  ghost predicate IsOwnedRun(owner: int -> nat, states: seq<State>, events: seq<Event>, threads: nat) {
    IsRun(states, events, threads) && forall i :: 0 <= i < |events| ==> Disciplined(owner, events[i])
  }

  lemma InitInv(owner: int -> nat, threads: nat)
    ensures StateOf(Init(threads)) == L.Init(threads) && IndexInv(owner, Init(threads))
  {
    var s := Init(threads);
    assert StateOf(s) == L.Init(threads);
    assert L.IsRun([L.Init(threads)], [], threads);
    assert R.IsOwnedRun(owner, [L.Init(threads)], [], threads);
    R.OwnedRunKeepsInv(owner, [L.Init(threads)], [], threads, 0);
    assert TowerOk(s.mem, HEADER);
  }

  lemma {:induction false} RunKeepsInv(owner: int -> nat, states: seq<State>, events: seq<Event>, threads: nat, i: nat)
    requires IsOwnedRun(owner, states, events, threads) && i < |states|
    ensures IndexInv(owner, states[i]) && |states[i].threads| == threads
  {
    if i == 0 {
      InitInv(owner, threads);
    } else {
      RunKeepsInv(owner, states, events, threads, i - 1);
      assert Enabled(states[i - 1], events[i - 1]) && Disciplined(owner, events[i - 1]);
      StepInv(owner, states[i - 1], events[i - 1]);
      ThreadsOf(states[i - 1], events[i - 1]);
    }
  }

  /** No reachable state has a thread that is about to use a level its tower does not have, or a table
      entry it has not filled. */
  lemma InBounds(owner: int -> nat, states: seq<State>, events: seq<Event>, threads: nat, i: nat, t: nat)
    requires IsOwnedRun(owner, states, events, threads) && i < |states| && t < threads
    ensures t < |states[i].threads| && RefsOk(states[i].mem, states[i].threads[t])
  {
    RunKeepsInv(owner, states, events, threads, i);
    AlwaysInBounds(owner, states[i], t);
  }

  function Visibly(s: State, e: Event): Visible
    requires Enabled(s, e)
  {
    var pc := s.threads[e.thread].pc;
    if pc.Idle? then Invoke(e.action.op) else if pc.Return? then Respond(pc.result) else Hidden
  }

  lemma SeenAlike(s: State, e: Event)
    requires Enabled(s, e)
    ensures Silent(s, e) ==> Visibly(s, e) == Hidden
    ensures !Silent(s, e) && L.Enabled(StateOf(s), EventOf(s, e)) && PcAt(s.mem, s.threads[e.thread]) ==>
      Visibly(s, e) == R.Visibly(StateOf(s), EventOf(s, e))
  {
  }

  ghost function Abstraction(s: State): Atomic
    requires O.Unique(MemOf(s.mem))
  {
    R.Abstraction(StateOf(s))
  }

  lemma Refines(owner: int -> nat, s: State, e: Event)
    requires IndexInv(owner, s) && Enabled(s, e) && Disciplined(owner, e)
    ensures O.Unique(MemOf(s.mem)) && O.Unique(MemOf(Step(s, e).mem))
    ensures AtomicStep(Abstraction(s), Abstraction(Step(s, e)), e.thread, Visibly(s, e))
  {
    hide IndexInv;
    Knows(owner, s, e.thread);
    SeenAlike(s, e);
    if Silent(s, e) {
      SilentStep(s, e);
    } else {
      LoudStep(s, e);
      R.Refines(owner, StateOf(s), EventOf(s, e));
    }
  }

  function Trace(states: seq<State>, events: seq<Event>): seq<(nat, Visible)>
    requires |states| == |events| + 1
    requires forall i :: 0 <= i < |events| ==> Enabled(states[i], events[i])
  {
    seq(|events|, i requires 0 <= i < |events| => (events[i].thread, Visibly(states[i], events[i])))
  }

  ghost function Atoms(states: seq<State>): seq<Atomic>
    requires forall i :: 0 <= i < |states| ==> O.Unique(MemOf(states[i].mem))
  {
    seq(|states|, i requires 0 <= i < |states| => Abstraction(states[i]))
  }

  /** Linearizability of the whole skip list under key ownership. */
  lemma Linearizable(owner: int -> nat, states: seq<State>, events: seq<Event>, threads: nat)
    requires IsOwnedRun(owner, states, events, threads)
    ensures forall i :: 0 <= i < |states| ==> O.Unique(MemOf(states[i].mem))
    ensures IsAtomicRun(Atoms(states), Trace(states, events), threads)
  {
    forall i | 0 <= i < |states|
      ensures O.Unique(MemOf(states[i].mem))
    { RunKeepsInv(owner, states, events, threads, i); }
    forall i | 0 <= i < |events|
      ensures AtomicStep(Atoms(states)[i], Atoms(states)[i + 1], events[i].thread, Visibly(states[i], events[i]))
    {
      RunKeepsInv(owner, states, events, threads, i);
      assert Enabled(states[i], events[i]) && Disciplined(owner, events[i]);
      Refines(owner, states[i], events[i]);
    }
    InitInv(owner, threads);
    assert R.Contents(MemOf(states[0].mem)) == map[];
  }
}
