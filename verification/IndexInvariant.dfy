/** What all levels of the concurrent skip list keep when keys are owned, and the bottom
    level seen as a state of `ListMachine`.
  */
module IndexInvariant {
  import opened Refs
  import opened TaggedPointers
  import opened IndexMachine
  import L = ListMachine
  import M = ListMemory
  import O = ListOwnership
  import I = ListInvariant

  // The bottom level.

  function TowerOf(tower: Tower): M.Tower {
    var f := tower.forward;
    M.Tower(tower.key, tower.value, if f == [] then NIL else f[0].to, f != [] && f[0].marked,
            tower.reached >= 1, tower.reached >= 2 && |f| >= 2 && !f[1].marked)
  }

  function MemOf(mem: Memory): M.Memory {
    seq(|mem|, x requires 0 <= x < |mem| => TowerOf(mem[x]))
  }

  function GoalOf(goal: Goal): L.Goal {
    match goal
    case Locate => L.Locate
    case Relocate(node, _) => L.Relocate(node)
    case Unlink(x) => L.Unlink(x)
  }

  /** A tower that is linked at the bottom but not yet at this level. */
  function Raising(node: Ref, lvl: nat): L.Pc {
    if lvl <= 1 then L.IndexLink(node) else L.Return(L.Done)
  }

  predicate IsRaising(goal: Goal) {
    goal.Relocate? && goal.level > 0
  }

  function PcOf(th: Thread): L.Pc {
    var p, s := if th.preds == [] then NIL else th.preds[0], if th.succs == [] then NIL else th.succs[0];
    match th.pc
    case Idle => L.Idle
    case FillLoad(goal, lvl, cur) =>
      if IsRaising(goal) then Raising(goal.node, goal.level) else L.FillLoad(GoalOf(goal), cur)
    case FillNext(goal, lvl, cur, next) =>
      if IsRaising(goal) then Raising(goal.node, goal.level)
      else if lvl > 0 then L.FillLoad(GoalOf(goal), cur) else L.FillNext(GoalOf(goal), cur, next)
    case FillCas(goal, lvl, cur, next, after) =>
      if IsRaising(goal) then Raising(goal.node, goal.level)
      else if lvl > 0 then L.FillLoad(GoalOf(goal), cur) else L.FillCas(GoalOf(goal), cur, next, after)
    case UpdateStore(x) => L.UpdateStore(x)
    case InsertAlloc => L.InsertAlloc(p, s)
    case InsertStore(node, lvl) => if lvl > 0 then Raising(node, lvl) else L.InsertStore(node, p, s)
    case InsertCas(node, lvl) => if lvl > 0 then Raising(node, lvl) else L.InsertCas(node, p, s)
    case MarkLevel(x) => L.IndexMark(x)
    case MarkLoad(x, lvl) => if lvl > 0 then L.IndexMark(x) else L.MarkLoad(x)
    case MarkCas(x, lvl, link) => if lvl > 0 then L.IndexMark(x) else L.MarkCas(x, link.to)
    case RetireTower(x) => L.RetireTower(x)
    case SearchRead(x) => L.SearchRead(x)
    case Return(r) => L.Return(r)
  }

  function ThreadOf(th: Thread): L.Thread {
    L.Thread(PcOf(th), th.op)
  }

  function StateOf(s: State): L.State {
    L.State(MemOf(s.mem), seq(|s.threads|, t requires 0 <= t < |s.threads| => ThreadOf(s.threads[t])), s.retired)
  }

  // The invariant.

  /** The tower is linked at this level, or has been. */
  predicate At(mem: Memory, x: Ref, l: nat) {
    Has(mem, x, l) && (x == HEADER || mem[x].reached > l)
  }

  predicate Target(mem: Memory, y: Ref, l: nat) {
    y == NIL || (y != HEADER && At(mem, y, l))
  }

  /** Pointers of a level lead to towers of that level, and a tower is marked from the top down. */
  ghost predicate TowerOk(mem: Memory, x: Ref)
    requires 0 <= x < |mem|
  {
    var f, r := mem[x].forward, mem[x].reached;
    && 1 <= |f| <= NUM_LEVELS
    && (x == HEADER ==> |f| == NUM_LEVELS && r == 1 && forall l :: 0 <= l < NUM_LEVELS ==> !f[l].marked)
    && (x != HEADER ==> r <= |f|)
    && (forall l: nat :: l < |f| && At(mem, x, l) ==> Target(mem, f[l].to, l))
    && (x != HEADER ==> forall m, l :: 0 <= m < l < r && f[m].marked ==> f[l].marked)
  }

  ghost predicate MemOk(mem: Memory) {
    |mem| > 0 && forall x :: 0 <= x < |mem| ==> TowerOk(mem, x)
  }

  predicate TableAt(mem: Memory, th: Thread, l: nat) {
    l < |th.preds| && l < |th.succs| && At(mem, th.preds[l], l) && Target(mem, th.succs[l], l)
  }

  ghost predicate TablesFrom(mem: Memory, th: Thread, lo: nat) {
    forall l :: lo <= l < NUM_LEVELS ==> TableAt(mem, th, l)
  }

  /** The tower this thread is inserting is linked, and not marked, at the levels below b. */
  ghost predicate Hand(mem: Memory, op: L.Op, node: Ref, b: nat) {
    && op.Insert? && 0 < node < |mem| && mem[node].key == op.key && mem[node].reached == b <= |mem[node].forward|
    && forall l :: 0 <= l < b ==> !mem[node].forward[l].marked
  }

  ghost predicate GoalAt(mem: Memory, th: Thread, goal: Goal, lvl: nat) {
    match goal
    case Locate =>
      th.start < NUM_LEVELS && (th.op.Insert? ==> th.start == NUM_LEVELS - 1 && TablesFrom(mem, th, lvl + 1))
    case Relocate(node, b) =>
      b <= lvl && Hand(mem, th.op, node, b) && b < |mem[node].forward| && TablesFrom(mem, th, 0)
    case Unlink(_) => true
  }

  /** The tower being removed has been linked at all its levels and is marked above this one. */
  ghost predicate MarkedAbove(mem: Memory, x: Ref, lvl: nat) {
    && 0 < x < |mem| && mem[x].reached == |mem[x].forward| && lvl < |mem[x].forward|
    && forall l :: lvl < l < |mem[x].forward| ==> mem[x].forward[l].marked
  }

  ghost predicate PcAt(mem: Memory, th: Thread) {
    |th.preds| == |th.succs| == NUM_LEVELS &&
    match th.pc
    case FillLoad(goal, lvl, cur) => lvl < NUM_LEVELS && At(mem, cur, lvl) && GoalAt(mem, th, goal, lvl)
    case FillNext(goal, lvl, cur, next) =>
      lvl < NUM_LEVELS && At(mem, cur, lvl) && Target(mem, next, lvl) && GoalAt(mem, th, goal, lvl)
    case FillCas(goal, lvl, cur, next, after) =>
      && lvl < NUM_LEVELS && At(mem, cur, lvl) && next != NIL && Target(mem, next, lvl) && Target(mem, after, lvl)
      && GoalAt(mem, th, goal, lvl)
    case UpdateStore(x) => At(mem, x, 0)
    case InsertAlloc => th.op.Insert? && TablesFrom(mem, th, 0)
    case InsertStore(node, lvl) => Hand(mem, th.op, node, lvl) && TablesFrom(mem, th, 0)
    case InsertCas(node, lvl) =>
      && Hand(mem, th.op, node, lvl) && lvl < |mem[node].forward| && lvl < NUM_LEVELS
      && mem[node].forward[lvl] == Link(th.succs[lvl], false) && TablesFrom(mem, th, 0)
    case MarkLevel(x) => 0 < x < |mem| && 0 < |mem[x].forward| == mem[x].reached
    case MarkLoad(x, lvl) => MarkedAbove(mem, x, lvl)
    case MarkCas(x, lvl, link) => MarkedAbove(mem, x, lvl) && (lvl == 0 ==> !link.marked)
    case SearchRead(x) => At(mem, x, 0)
    case _ => true
  }

  /** The tower a thread is inserting, or NIL. */
  function Inserting(pc: Pc): Ref {
    match pc
    case FillLoad(Relocate(node, _), _, _) => node
    case FillNext(Relocate(node, _), _, _, _) => node
    case FillCas(Relocate(node, _), _, _, _, _) => node
    case InsertStore(node, _) => node
    case InsertCas(node, _) => node
    case _ => NIL
  }

  /** A tower that is linked at some of its levels only is being inserted. */
  ghost predicate PartIsInserted(s: State) {
    forall x :: 0 < x < |s.mem| && 1 <= s.mem[x].reached < |s.mem[x].forward| ==>
      exists t :: 0 <= t < |s.threads| && Inserting(s.threads[t].pc) == x
  }

  ghost predicate IndexInv(owner: int -> nat, s: State) {
    && O.OwnInv(owner, StateOf(s))
    && MemOk(s.mem)
    && (forall t :: 0 <= t < |s.threads| ==> PcAt(s.mem, s.threads[t]))
    && PartIsInserted(s)
  }

  // What a step does to the towers.

  /** Towers grow only. */
  ghost predicate Grows(mem: Memory, mem': Memory) {
    && |mem| <= |mem'|
    && forall x :: 0 <= x < |mem| ==>
         mem'[x].key == mem[x].key && |mem'[x].forward| == |mem[x].forward| && mem'[x].reached >= mem[x].reached
  }

  /** A tower with another key than the thread's is touched only where it is linked and not marked, and
      stays unmarked there. */
  ghost predicate Spared(mem: Memory, mem': Memory, x: Ref)
    requires 0 <= x < |mem| <= |mem'|
  {
    && mem'[x].reached == mem[x].reached && |mem'[x].forward| == |mem[x].forward|
    && forall l: nat :: l < |mem[x].forward| && mem'[x].forward[l] != mem[x].forward[l] ==>
         At(mem, x, l) && !mem[x].forward[l].marked && !mem'[x].forward[l].marked
  }

  lemma AtGrows(mem: Memory, mem': Memory, x: Ref, l: nat)
    requires Grows(mem, mem')
    ensures At(mem, x, l) ==> At(mem', x, l)
    ensures Target(mem, x, l) ==> Target(mem', x, l)
  {
  }

  lemma TablesGrow(mem: Memory, mem': Memory, th: Thread, lo: nat)
    requires Grows(mem, mem') && TablesFrom(mem, th, lo)
    ensures TablesFrom(mem', th, lo)
  {
    forall l | lo <= l < NUM_LEVELS
      ensures TableAt(mem', th, l)
    {
      assert TableAt(mem, th, l);
      AtGrows(mem, mem', th.preds[l], l);
      AtGrows(mem, mem', th.succs[l], l);
    }
  }

  /** The towers whose state a thread relies on. */
  function Relies(pc: Pc): Ref {
    match pc
    case MarkLevel(x) => x
    case MarkLoad(x, _) => x
    case MarkCas(x, _, _) => x
    case _ => Inserting(pc)
  }

  lemma GoalKept(mem: Memory, mem': Memory, th: Thread, goal: Goal, lvl: nat)
    requires Grows(mem, mem') && GoalAt(mem, th, goal, lvl)
    requires goal.Relocate? ==> Spared(mem, mem', goal.node)
    ensures GoalAt(mem', th, goal, lvl)
  {
    if goal.Locate? && th.op.Insert? { TablesGrow(mem, mem', th, lvl + 1); }
    if goal.Relocate? { TablesGrow(mem, mem', th, 0); }
  }

  lemma OtherFillAt(mem: Memory, mem': Memory, th: Thread)
    requires PcAt(mem, th) && Grows(mem, mem') && (th.pc.FillLoad? || th.pc.FillNext? || th.pc.FillCas?)
    requires 0 <= Relies(th.pc) < |mem| ==> Spared(mem, mem', Relies(th.pc))
    ensures PcAt(mem', th)
  {
    hide TablesFrom, TableAt, Spared, Grows, At;
    AtGrows(mem, mem', th.pc.cur, th.pc.lvl);
    GoalKept(mem, mem', th, th.pc.goal, th.pc.lvl);
    if !th.pc.FillLoad? { AtGrows(mem, mem', th.pc.next, th.pc.lvl); }
    if th.pc.FillCas? { AtGrows(mem, mem', th.pc.after, th.pc.lvl); }
  }

  lemma OtherPcAt(mem: Memory, mem': Memory, th: Thread)
    requires PcAt(mem, th) && Grows(mem, mem')
    requires 0 <= Relies(th.pc) < |mem| ==> Spared(mem, mem', Relies(th.pc))
    ensures PcAt(mem', th)
  {
    hide TablesFrom, TableAt;
    if th.pc.FillLoad? || th.pc.FillNext? || th.pc.FillCas? {
      OtherFillAt(mem, mem', th);
    } else if th.pc.InsertAlloc? || th.pc.InsertStore? || th.pc.InsertCas? {
      TablesGrow(mem, mem', th, 0);
    } else if th.pc.UpdateStore? || th.pc.SearchRead? {
      AtGrows(mem, mem', th.pc.tower, 0);
    }
  }
}
