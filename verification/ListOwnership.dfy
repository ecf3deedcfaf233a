/** The list when every key is used by one thread only, as in the benchmark: then
    each operation finds exactly what its own thread has left.
  */
module ListOwnership {
  import opened Refs
  import opened ListMemory
  import opened ListMachine
  import opened ListInvariant
  import opened ListHistory

  /** The tower that holds a key at present. */
  predicate Live(mem: Memory, x: Ref, key: int) {
    Carries(mem, x, key) && !mem[x].marked
  }

  ghost predicate Absent(mem: Memory, key: int) {
    forall x :: !Live(mem, x, key)
  }

  ghost predicate Unique(mem: Memory) {
    forall x, y, key :: Live(mem, x, key) && Live(mem, y, key) ==> x == y
  }

  ghost predicate OnWalk(mem: Memory, x: Ref) {
    x != NIL && Reach(mem, HEADER, x)
  }

  /** A search that comes down from the index levels comes from the header or from a tower that was linked
      there and not marked there when it was looked at. */
  predicate ComesDown(s: State, e: Event) {
    match e.action
    case Enter(a) => a == HEADER || (IsLinked(s.mem, a) && s.mem[a].open)
    case _ => true
  }

  /** A thread calls operations on its own keys only. */
  predicate Disciplined(owner: int -> nat, s: State, e: Event) {
    (e.action.Call? ==> owner(e.action.op.key) == e.thread) && ComesDown(s, e)
  }

  /** From here the walk will pass every tower with this key that is on the walk from the header. */
  ghost predicate WillPass(mem: Memory, x: Ref, key: int) {
    forall b :: OnWalk(mem, b) && Carries(mem, b, key) ==> Reach(mem, x, b)
  }

  ghost predicate GoalOwned(mem: Memory, goal: Goal, key: int) {
    goal.Locate? || Absent(mem, key)
  }

  ghost predicate PcOwned(mem: Memory, pc: Pc, key: int) {
    match pc
    case FillLoad(goal, cur) => GoalOwned(mem, goal, key) && WillPass(mem, cur, key)
    case FillNext(goal, cur, next) =>
      GoalOwned(mem, goal, key) && WillPass(mem, cur, key) && WillPass(mem, next, key)
    case FillCas(goal, cur, _, _) => GoalOwned(mem, goal, key) && WillPass(mem, cur, key)
    case UpdateStore(x) => Live(mem, x, key)
    case InsertAlloc(_, _) => Absent(mem, key)
    case InsertStore(_, _, _) => Absent(mem, key)
    case InsertCas(_, _, _) => Absent(mem, key)
    case IndexLink(x) => Live(mem, x, key)
    case IndexMark(x) => Live(mem, x, key)
    case MarkLoad(x) => Live(mem, x, key) && !mem[x].open
    case MarkCas(x, _) => Live(mem, x, key) && !mem[x].open
    case RetireTower(x) => Absent(mem, key) && !OnWalk(mem, x)
    case SearchRead(x) => Live(mem, x, key)
    case _ => true
  }

  /** A remover marks the index levels of a tower before the bottom one. */
  ghost predicate ClosedFirst(mem: Memory) {
    forall x :: IsLinked(mem, x) && mem[x].marked ==> !mem[x].open
  }

  ghost predicate OwnInv(owner: int -> nat, s: State) {
    && Inv(s)
    && Unique(s.mem) && ClosedFirst(s.mem)
    && (forall t :: 0 <= t < |s.threads| && !s.threads[t].pc.Idle? ==>
          owner(s.threads[t].op.key) == t && PcOwned(s.mem, s.threads[t].pc, s.threads[t].op.key))
  }

  lemma ChainIsWalk(mem: Memory, chain: seq<Ref>, x: Ref)
    requires WellFormed(mem, chain)
    ensures OnWalk(mem, x) <==> x in chain
  {
    if x in chain {
      ReachAlong(mem, chain, 0, Position(chain, x));
    }
    if OnWalk(mem, x) {
      var n: nat :| ReachIn(mem, HEADER, x, n);
      ChainClosed(mem, chain, HEADER, x, n);
    }
  }

  lemma {:induction false} ChainClosed(mem: Memory, chain: seq<Ref>, x: Ref, y: Ref, n: nat)
    requires WellFormed(mem, chain) && x in chain && ReachIn(mem, x, y, n) && y != NIL
    ensures y in chain
    decreases n
  {
    if x != y {
      NextInChain(mem, chain, x);
      NilReachesNothing(mem, y, n - 1);
      ChainClosed(mem, chain, mem[x].next, y, n - 1);
    }
  }

  /** How a step changes the walk from the header. */
  lemma WalkStep(s: State, e: Event, b: Ref)
    requires Inv(s) && Enabled(s, e) && OnWalk(Step(s, e).mem, b)
    ensures (OnWalk(s.mem, b) && !Unlinks(s, e, b))
         || (s.threads[e.thread].pc.InsertCas? && b == s.threads[e.thread].pc.node)
  {
    var chain :| WellFormed(s.mem, chain);
    var me, mem' := s.threads[e.thread], Step(s, e).mem;
    assert PcOk(s.mem, me.op, me.pc);
    ChainIsWalk(s.mem, chain, b);
    if me.pc.FillCas? && Unlinks(s, e, me.pc.next) {
      var chain' := UnlinkKeeps(s.mem, chain, me.pc.cur, me.pc.next);
      ChainIsWalk(mem', chain', b);
    } else if me.pc.InsertCas? && mem' != s.mem {
      assert LinkOk(s.mem, me.pc.pred);
      var chain' := LinkKeeps(s.mem, chain, me.pc.pred, me.pc.node);
      ChainIsWalk(mem', chain', b);
    } else {
      SameWalk(s, e, chain);
      ChainIsWalk(mem', chain, b);
    }
  }

  /** A walk that will pass its key still will, wherever it is. */
  lemma WillPassStep(s: State, e: Event, x: Ref, key: int)
    requires Inv(s) && Enabled(s, e) && WillPass(s.mem, x, key) && (x == NIL || IsLinked(s.mem, x))
    requires s.threads[e.thread].pc.InsertCas? ==> s.threads[e.thread].op.key != key
    ensures WillPass(Step(s, e).mem, x, key)
  {
    var mem' := Step(s, e).mem;
    MemoryEvolves(s, e);
    assert PcOk(s.mem, s.threads[e.thread].op, s.threads[e.thread].pc);
    forall b | OnWalk(mem', b) && Carries(mem', b, key)
      ensures Reach(mem', x, b)
    {
      WalkStep(s, e, b);
      WalkLinked(s, b);
      ReachStep(s, e, x, b);
    }
  }

  lemma WalkLinked(s: State, b: Ref)
    requires Inv(s) && OnWalk(s.mem, b)
    ensures IsLinked(s.mem, b)
  {
    var chain :| WellFormed(s.mem, chain);
    ChainIsWalk(s.mem, chain, b);
  }

  /** Live towers are on the walk. */
  lemma LiveOnWalk(s: State, x: Ref, key: int)
    requires Inv(s) && Live(s.mem, x, key)
    ensures OnWalk(s.mem, x)
  {
    var chain :| WellFormed(s.mem, chain);
    ChainIsWalk(s.mem, chain, x);
  }

  /** Only the insertion CAS makes a tower live, and only the marking CAS ends that. */
  lemma LiveStep(s: State, e: Event, x: Ref, key: int)
    requires Inv(s) && Enabled(s, e)
    ensures Live(Step(s, e).mem, x, key) && !Live(s.mem, x, key) ==>
      s.threads[e.thread].pc.InsertCas? && x == s.threads[e.thread].pc.node && key == s.threads[e.thread].op.key
    ensures Live(s.mem, x, key) && !Live(Step(s, e).mem, x, key) ==>
      s.threads[e.thread].pc.MarkCas? && x == s.threads[e.thread].pc.tower && key == s.threads[e.thread].op.key
  {
    assert PcOk(s.mem, s.threads[e.thread].op, s.threads[e.thread].pc);
  }

  /** Only the inserting thread links a tower at the index levels. */
  lemma OpenStep(s: State, e: Event, x: Ref)
    requires Inv(s) && Enabled(s, e) && IsLinked(s.mem, x)
    ensures x < |Step(s, e).mem|
    ensures Step(s, e).mem[x].open && !s.mem[x].open ==> s.threads[e.thread].pc == IndexLink(x)
  {
    assert PcOk(s.mem, s.threads[e.thread].op, s.threads[e.thread].pc);
  }

  lemma ClosedStep(owner: int -> nat, s: State, e: Event)
    requires OwnInv(owner, s) && Enabled(s, e)
    ensures ClosedFirst(Step(s, e).mem)
  {
    var me := s.threads[e.thread];
    assert !me.pc.Idle? ==> PcOwned(s.mem, me.pc, me.op.key);
    assert PcOk(s.mem, me.op, me.pc);
  }

  lemma AbsentStep(s: State, e: Event, key: int)
    requires Inv(s) && Enabled(s, e) && Absent(s.mem, key)
    requires s.threads[e.thread].pc.InsertCas? && s.threads[e.thread].op.key == key ==> Step(s, e).mem == s.mem
    ensures Absent(Step(s, e).mem, key)
  {
    forall x
      ensures !Live(Step(s, e).mem, x, key)
    { LiveStep(s, e, x, key); }
  }

  /** No other thread opens the tower that thread u is removing. */
  lemma StaysClosed(s: State, e: Event, u: nat, x: Ref)
    requires Inv(s) && Enabled(s, e) && u < |s.threads| && Carries(s.mem, x, s.threads[u].op.key) && !s.mem[x].open
    requires s.threads[e.thread].pc.Idle? || s.threads[e.thread].op.key != s.threads[u].op.key
    ensures x < |Step(s, e).mem| && !Step(s, e).mem[x].open
  {
    OpenStep(s, e, x);
    assert PcOk(s.mem, s.threads[e.thread].op, s.threads[e.thread].pc);
  }

  lemma OtherOwned(owner: int -> nat, s: State, e: Event, u: nat)
    requires OwnInv(owner, s) && Enabled(s, e) && u < |s.threads| && u != e.thread && !s.threads[u].pc.Idle?
    ensures PcOwned(Step(s, e).mem, s.threads[u].pc, s.threads[u].op.key)
  {
    var pc, op, mem' := s.threads[u].pc, s.threads[u].op, Step(s, e).mem;
    assert PcOwned(s.mem, pc, op.key) && PcOk(s.mem, op, pc);
    assert s.threads[e.thread].pc.Idle? || s.threads[e.thread].op.key != op.key;
    forall x
      ensures Live(mem', x, op.key) <==> Live(s.mem, x, op.key)
    { LiveStep(s, e, x, op.key); }
    match pc
    case FillLoad(_, cur) => WillPassStep(s, e, cur, op.key);
    case FillNext(_, cur, next) =>
      WillPassStep(s, e, cur, op.key);
      WillPassStep(s, e, next, op.key);
    case FillCas(_, cur, _, _) => WillPassStep(s, e, cur, op.key);
    case MarkLoad(x) => StaysClosed(s, e, u, x);
    case MarkCas(x, _) => StaysClosed(s, e, u, x);
    case RetireTower(x) =>
      if OnWalk(mem', x) { WalkStep(s, e, x); }
    case _ =>
  }

  /** The first tower of the walk: it comes before every tower with the key that is on the walk. */
  lemma EnterOwned(s: State, a: Ref, key: int)
    requires Inv(s) && Before(s.mem, a, key) && !s.mem[a].marked
    ensures WillPass(s.mem, a, key)
  {
    var chain :| WellFormed(s.mem, chain);
    forall b | OnWalk(s.mem, b) && Carries(s.mem, b, key)
      ensures Reach(s.mem, a, b)
    {
      ChainIsWalk(s.mem, chain, b);
      ReachLarger(s.mem, chain, a, b);
    }
  }

  /** Moving on from a tower with another key. */
  lemma AdvanceOwned(mem: Memory, x: Ref, key: int)
    requires WillPass(mem, x, key) && IsLinked(mem, x) && !Carries(mem, x, key)
    ensures WillPass(mem, mem[x].next, key)
  {
    forall b | OnWalk(mem, b) && Carries(mem, b, key)
      ensures Reach(mem, mem[x].next, b)
    {
      var n: nat :| ReachIn(mem, x, b, n);
      assert ReachIn(mem, mem[x].next, b, n - 1);
    }
  }

  /** The walk has stopped at a tower that is not to the left of the key: the key's towers are not
      further on, so the search has hit the live one or there is none. */
  lemma StopOwned(s: State, next: Ref, key: int)
    requires Inv(s) && WillPass(s.mem, next, key) && NotBefore(s.mem, next, key)
    requires next != NIL ==> !s.mem[next].marked
    ensures if next != NIL && s.mem[next].key == key then Live(s.mem, next, key)
            else Absent(s.mem, key) && forall b :: OnWalk(s.mem, b) ==> !Carries(s.mem, b, key)
  {
    LinksKnown(s);
    if next == NIL || s.mem[next].key != key {
      forall b | OnWalk(s.mem, b)
        ensures !Carries(s.mem, b, key)
      {
        if Carries(s.mem, b, key) {
          var n: nat :| ReachIn(s.mem, next, b, n);
          NilReachesNothing(s.mem, b, n);
          ReachSorted(s.mem, next, b, n);
        }
      }
      forall x
        ensures !Live(s.mem, x, key)
      { if Live(s.mem, x, key) { LiveOnWalk(s, x, key); } }
    }
  }

  lemma NextOwned(owner: int -> nat, s: State, e: Event)
    requires OwnInv(owner, s) && Enabled(s, e) && s.threads[e.thread].pc.FillNext?
    ensures e.thread < |Step(s, e).threads|
    ensures PcOwned(Step(s, e).mem, Step(s, e).threads[e.thread].pc, s.threads[e.thread].op.key)
  {
    var pc, key := s.threads[e.thread].pc, s.threads[e.thread].op.key;
    assert PcOwned(s.mem, pc, key) && PcOk(s.mem, s.threads[e.thread].op, pc);
    if pc.next == NIL {
      StopOwned(s, NIL, key);
    } else if !s.mem[pc.next].marked {
      if s.mem[pc.next].key < key { AdvanceOwned(s.mem, pc.next, key); } else { StopOwned(s, pc.next, key); }
    }
  }

  lemma FillOwned(owner: int -> nat, s: State, e: Event)
    requires OwnInv(owner, s) && Enabled(s, e) && Disciplined(owner, s, e)
    requires var pc := s.threads[e.thread].pc; pc.FillLoad? || pc.FillCas?
    ensures e.thread < |Step(s, e).threads|
    ensures PcOwned(Step(s, e).mem, Step(s, e).threads[e.thread].pc, s.threads[e.thread].op.key)
  {
    var pc, key := s.threads[e.thread].pc, s.threads[e.thread].op.key;
    assert PcOwned(s.mem, pc, key) && PcOk(s.mem, s.threads[e.thread].op, pc);
    if Absent(s.mem, key) { AbsentStep(s, e, key); }
    if e.action.Enter? {
      LinksKnown(s);
      EnterOwned(s, e.action.tower, key);
    } else if pc.FillLoad? {
      AdvanceOwned(s.mem, pc.cur, key);
    } else {
      WillPassStep(s, e, pc.cur, key);
    }
  }

  lemma OpOwned(owner: int -> nat, s: State, e: Event)
    requires OwnInv(owner, s) && Enabled(s, e)
    requires var pc := s.threads[e.thread].pc; !Filling(pc) && !pc.Idle?
    ensures e.thread < |Step(s, e).threads|
    ensures PcOwned(Step(s, e).mem, Step(s, e).threads[e.thread].pc, s.threads[e.thread].op.key)
  {
    var pc, key := s.threads[e.thread].pc, s.threads[e.thread].op.key;
    assert PcOwned(s.mem, pc, key) && PcOk(s.mem, s.threads[e.thread].op, pc);
    if pc.InsertAlloc? || pc.InsertStore? || (pc.InsertCas? && Step(s, e).mem == s.mem) { AbsentStep(s, e, key); }
    if pc.MarkCas? && Step(s, e).mem != s.mem {
      forall x
        ensures !Live(Step(s, e).mem, x, key)
      { LiveStep(s, e, x, key); }
    }
    if pc.IndexMark? || pc.MarkLoad? || pc.MarkCas? { LiveStep(s, e, pc.tower, key); }
  }

  lemma UniqueStep(owner: int -> nat, s: State, e: Event)
    requires OwnInv(owner, s) && Enabled(s, e)
    ensures Unique(Step(s, e).mem)
  {
    var me, mem' := s.threads[e.thread], Step(s, e).mem;
    assert !me.pc.Idle? ==> PcOwned(s.mem, me.pc, me.op.key);
    assert PcOk(s.mem, me.op, me.pc);
    forall x, y, key | Live(mem', x, key) && Live(mem', y, key)
      ensures x == y
    {
      LiveStep(s, e, x, key);
      LiveStep(s, e, y, key);
    }
  }

  lemma OwnStep(owner: int -> nat, s: State, e: Event)
    requires OwnInv(owner, s) && Enabled(s, e) && Disciplined(owner, s, e)
    ensures OwnInv(owner, Step(s, e))
  {
    var s', t := Step(s, e), e.thread;
    StepInv(s, e);
    MemoryEvolves(s, e);
    UniqueStep(owner, s, e);
    ClosedStep(owner, s, e);
    forall u | 0 <= u < |s'.threads| && !s'.threads[u].pc.Idle?
      ensures owner(s'.threads[u].op.key) == u && PcOwned(s'.mem, s'.threads[u].pc, s'.threads[u].op.key)
    {
      if u != t {
        OtherOwned(owner, s, e, u);
      } else if s.threads[t].pc.FillNext? {
        NextOwned(owner, s, e);
      } else if Filling(s.threads[t].pc) {
        FillOwned(owner, s, e);
      } else if !s.threads[t].pc.Idle? {
        OpOwned(owner, s, e);
      }
    }
  }
}
