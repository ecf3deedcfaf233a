/** What every interleaving of the list operations keeps, even when several threads
    use the same key.
  */
module ListInvariant {
  import opened Refs
  import opened ListMemory
  import opened ListMachine

  /** A place to the left of key. */
  predicate Before(mem: Memory, x: Ref, key: int) {
    IsLinked(mem, x) && (x == HEADER || mem[x].key < key)
  }

  /** A place that is not to the left of key. */
  predicate NotBefore(mem: Memory, x: Ref, key: int) {
    x == NIL || (IsLinked(mem, x) && x != HEADER && mem[x].key >= key)
  }

  predicate Carries(mem: Memory, x: Ref, key: int) {
    IsLinked(mem, x) && x != HEADER && mem[x].key == key
  }

  /** A new tower that no other thread can see yet. */
  predicate Prepared(mem: Memory, node: Ref, op: Op) {
    && op.Insert? && 0 < node < |mem| && !mem[node].linked && !mem[node].marked
    && mem[node].key == op.key && mem[node].value == op.value
  }

  predicate GoalOk(mem: Memory, op: Op, goal: Goal) {
    match goal
    case Locate => true
    case Relocate(node) => Prepared(mem, node, op)
    case Unlink(x) => op.Remove? && Carries(mem, x, op.key) && mem[x].marked
  }

  predicate PcOk(mem: Memory, op: Op, pc: Pc) {
    match pc
    case FillLoad(goal, cur) => GoalOk(mem, op, goal) && Before(mem, cur, op.key)
    case FillNext(goal, cur, next) =>
      GoalOk(mem, op, goal) && Before(mem, cur, op.key) && (next == NIL || (IsLinked(mem, next) && next != HEADER))
    case FillCas(goal, cur, next, after) =>
      && GoalOk(mem, op, goal) && Before(mem, cur, op.key)
      && IsLinked(mem, next) && next != HEADER && mem[next].marked && mem[next].next == after
    case UpdateStore(x) => op.Insert? && Carries(mem, x, op.key)
    case InsertAlloc(pred, succ) => op.Insert? && Before(mem, pred, op.key) && NotBefore(mem, succ, op.key)
    case InsertStore(node, pred, succ) =>
      Prepared(mem, node, op) && Before(mem, pred, op.key) && NotBefore(mem, succ, op.key)
    case InsertCas(node, pred, succ) =>
      && Prepared(mem, node, op) && Before(mem, pred, op.key) && NotBefore(mem, succ, op.key)
      && mem[node].next == succ
    case IndexLink(x) => op.Insert? && Carries(mem, x, op.key)
    case IndexMark(x) => op.Remove? && Carries(mem, x, op.key)
    case MarkLoad(x) => op.Remove? && Carries(mem, x, op.key)
    case MarkCas(x, _) => op.Remove? && Carries(mem, x, op.key)
    case RetireTower(x) => op.Remove? && Carries(mem, x, op.key) && mem[x].marked
    case SearchRead(x) => op.Search? && Carries(mem, x, op.key)
    case Idle => true
    case Return(_) => true
  }

  /** The tower a thread is preparing, or NIL. */
  function Preparing(pc: Pc): Ref {
    match pc
    case FillLoad(Relocate(node), _) => node
    case FillNext(Relocate(node), _, _) => node
    case FillCas(Relocate(node), _, _, _) => node
    case InsertStore(node, _, _) => node
    case InsertCas(node, _, _) => node
    case _ => NIL
  }

  ghost predicate Inv(s: State) {
    && (exists chain :: WellFormed(s.mem, chain))
    && (forall t :: 0 <= t < |s.threads| ==> PcOk(s.mem, s.threads[t].op, s.threads[t].pc))
    && (forall t, u :: 0 <= t < u < |s.threads| && Preparing(s.threads[t].pc) != NIL ==>
          Preparing(s.threads[t].pc) != Preparing(s.threads[u].pc))
  }

  /** Linked towers stay linked with their key, and marks are for ever: a marked pointer never changes. */
  ghost predicate Evolves(mem: Memory, mem': Memory) {
    && |mem| <= |mem'|
    && forall x :: IsLinked(mem, x) ==>
         && mem'[x].linked && mem'[x].key == mem[x].key
         && (mem[x].marked ==> mem'[x].marked && mem'[x].next == mem[x].next)
  }

  lemma LinksKnown(s: State)
    requires Inv(s)
    ensures LinksOk(s.mem)
  {
    var chain :| WellFormed(s.mem, chain);
  }

  lemma MemoryEvolves(s: State, e: Event)
    requires Inv(s) && Enabled(s, e)
    ensures Evolves(s.mem, Step(s, e).mem)
    ensures |Step(s, e).threads| == |s.threads|
    ensures Step(s, e).threads == s.threads[e.thread := Step(s, e).threads[e.thread]]
    ensures forall x :: 0 <= x < |s.mem| && !s.mem[x].linked && x != Preparing(s.threads[e.thread].pc) ==>
      Step(s, e).mem[x] == s.mem[x]
  {
    assert PcOk(s.mem, s.threads[e.thread].op, s.threads[e.thread].pc);
  }

  lemma OtherPcOk(mem: Memory, mem': Memory, op: Op, pc: Pc)
    requires PcOk(mem, op, pc) && Evolves(mem, mem')
    requires Preparing(pc) != NIL ==> 0 <= Preparing(pc) < |mem| && mem'[Preparing(pc)] == mem[Preparing(pc)]
    ensures PcOk(mem', op, pc)
  {
  }

  predicate Filling(pc: Pc) {
    pc.FillLoad? || pc.FillNext? || pc.FillCas?
  }

  /** One step of the walk of `fill_tables`. */
  lemma FillNextOk(s: State, e: Event)
    requires LinksOk(s.mem) && Enabled(s, e) && s.threads[e.thread].pc.FillNext?
    requires PcOk(s.mem, s.threads[e.thread].op, s.threads[e.thread].pc)
    ensures |Step(s, e).threads| == |s.threads|
    ensures PcOk(Step(s, e).mem, s.threads[e.thread].op, Step(s, e).threads[e.thread].pc)
  {
    var pc := s.threads[e.thread].pc;
    if pc.next != NIL { assert LinkOk(s.mem, pc.next); }
    hide LinksOk;
  }

  lemma FillOk(s: State, e: Event)
    requires LinksOk(s.mem) && Enabled(s, e) && Filling(s.threads[e.thread].pc) && !s.threads[e.thread].pc.FillNext?
    requires PcOk(s.mem, s.threads[e.thread].op, s.threads[e.thread].pc)
    ensures |Step(s, e).threads| == |s.threads|
    ensures PcOk(Step(s, e).mem, s.threads[e.thread].op, Step(s, e).threads[e.thread].pc)
  {
    var pc := s.threads[e.thread].pc;
    if pc.FillLoad? { assert LinkOk(s.mem, pc.cur); }
    hide LinksOk;
  }

  lemma FilledOk(s: State, e: Event)
    requires IsLinked(s.mem, HEADER)
    requires Enabled(s, e) && !Filling(s.threads[e.thread].pc) && !s.threads[e.thread].pc.Idle?
    requires PcOk(s.mem, s.threads[e.thread].op, s.threads[e.thread].pc)
    ensures |Step(s, e).threads| == |s.threads|
    ensures PcOk(Step(s, e).mem, s.threads[e.thread].op, Step(s, e).threads[e.thread].pc)
  {
  }

  lemma OwnPcOk(s: State, e: Event)
    requires Inv(s) && Enabled(s, e)
    ensures |Step(s, e).threads| == |s.threads|
    ensures PcOk(Step(s, e).mem, Step(s, e).threads[e.thread].op, Step(s, e).threads[e.thread].pc)
  {
    LinksKnown(s);
    var pc := s.threads[e.thread].pc;
    assert PcOk(s.mem, s.threads[e.thread].op, pc);
    if pc.FillNext? {
      FillNextOk(s, e);
    } else if Filling(pc) {
      FillOk(s, e);
    } else if !pc.Idle? {
      FilledOk(s, e);
    }
  }

  /** A new tower is at a fresh address. */
  lemma PreparingDistinct(s: State, e: Event)
    requires Inv(s) && Enabled(s, e)
    ensures var s' := Step(s, e);
      forall t, u :: 0 <= t < u < |s'.threads| && Preparing(s'.threads[t].pc) != NIL ==>
        Preparing(s'.threads[t].pc) != Preparing(s'.threads[u].pc)
  {
    hide Step, PcOk, WellFormed, Preparing;
    PreparingAllocated(s);
    PreparingMoves(s, e);
  }

  /** A thread keeps the tower it prepares, gives it away, or begins with a fresh one. */
  lemma PreparingMoves(s: State, e: Event)
    requires Enabled(s, e)
    ensures |Step(s, e).threads| == |s.threads|
    ensures Step(s, e).threads == s.threads[e.thread := Step(s, e).threads[e.thread]]
    ensures Preparing(Step(s, e).threads[e.thread].pc) in {NIL, Preparing(s.threads[e.thread].pc), |s.mem|}
  {
  }

  lemma PreparingAllocated(s: State)
    requires Inv(s)
    ensures forall u :: 0 <= u < |s.threads| ==> Preparing(s.threads[u].pc) < |s.mem|
  {
    forall u | 0 <= u < |s.threads|
      ensures Preparing(s.threads[u].pc) < |s.mem|
    { assert PcOk(s.mem, s.threads[u].op, s.threads[u].pc); }
  }

  /** The steps that neither link nor unlink a tower. */
  lemma SameWalk(s: State, e: Event, chain: seq<Ref>)
    requires Inv(s) && Enabled(s, e) && WellFormed(s.mem, chain)
    requires s.threads[e.thread].pc.FillCas? || s.threads[e.thread].pc.InsertCas? ==> Step(s, e).mem == s.mem
    ensures WellFormed(Step(s, e).mem, chain)
  {
    var me, mem' := s.threads[e.thread], Step(s, e).mem;
    assert PcOk(s.mem, me.op, me.pc);
    if me.pc.MarkCas? && mem' != s.mem {
      MarkKeeps(s.mem, chain, me.pc.tower);
    } else {
      StoreKeeps(s.mem, mem', chain);
    }
  }

  lemma WalkKept(s: State, e: Event)
    requires Inv(s) && Enabled(s, e)
    ensures exists chain :: WellFormed(Step(s, e).mem, chain)
  {
    var chain :| WellFormed(s.mem, chain);
    var me, mem' := s.threads[e.thread], Step(s, e).mem;
    assert PcOk(s.mem, me.op, me.pc);
    if me.pc.FillCas? && mem' != s.mem {
      var chain' := UnlinkKeeps(s.mem, chain, me.pc.cur, me.pc.next);
    } else if me.pc.InsertCas? && mem' != s.mem {
      assert LinkOk(s.mem, me.pc.pred);
      var chain' := LinkKeeps(s.mem, chain, me.pc.pred, me.pc.node);
    } else {
      SameWalk(s, e, chain);
    }
  }

  lemma StepInv(s: State, e: Event)
    requires Inv(s) && Enabled(s, e)
    ensures Inv(Step(s, e))
  {
    var s' := Step(s, e);
    MemoryEvolves(s, e);
    WalkKept(s, e);
    PreparingDistinct(s, e);
    forall u | 0 <= u < |s'.threads|
      ensures PcOk(s'.mem, s'.threads[u].op, s'.threads[u].pc)
    {
      if u == e.thread { OwnPcOk(s, e); } else { OthersOk(s, e, u); }
    }
    hide PcOk, Step;
  }

  lemma OthersOk(s: State, e: Event, u: nat)
    requires Inv(s) && Enabled(s, e) && u < |s.threads| && u != e.thread
    ensures PcOk(Step(s, e).mem, s.threads[u].op, s.threads[u].pc)
  {
    assert PcOk(s.mem, s.threads[u].op, s.threads[u].pc);
    MemoryEvolves(s, e);
    OtherPcOk(s.mem, Step(s, e).mem, s.threads[u].op, s.threads[u].pc);
  }
}
