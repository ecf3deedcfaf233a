/** Every step of the concurrent skip list keeps its invariant when keys are owned. */
module IndexSteps {
  import opened Refs
  import opened TaggedPointers
  import opened IndexMachine
  import opened IndexInvariant
  import L = ListMachine
  import M = ListMemory
  import O = ListOwnership
  import I = ListInvariant

  /** A CAS that leads around a marked tower, or links one: the pointer stays unmarked. */
  lemma SetUnmarked(mem: Memory, x: Ref, l: nat, link: Link)
    requires MemOk(mem) && At(mem, x, l) && !mem[x].forward[l].marked && !link.marked && Target(mem, link.to, l)
    ensures var mem' := SetForward(mem, x, l, link);
      MemOk(mem') && Grows(mem, mem') && forall y :: 0 <= y < |mem| ==> Spared(mem, mem', y)
  {
    var mem' := SetForward(mem, x, l, link);
    forall y | 0 <= y < |mem'|
      ensures TowerOk(mem', y)
    { assert TowerOk(mem, y); }
  }

  /** A store to the pointer of a level the tower has not been linked at. */
  lemma SetUnlinked(mem: Memory, node: Ref, l: nat, link: Link)
    requires MemOk(mem) && 0 < node < |mem| && mem[node].reached == l < |mem[node].forward|
    ensures var mem' := SetForward(mem, node, l, link);
      MemOk(mem') && Grows(mem, mem') && forall y :: 0 <= y < |mem| && y != node ==> Spared(mem, mem', y)
  {
    var mem' := SetForward(mem, node, l, link);
    forall y | 0 <= y < |mem'|
      ensures TowerOk(mem', y)
    { assert TowerOk(mem, y); }
  }

  lemma Reached(mem: Memory, node: Ref, l: nat)
    requires MemOk(mem) && 0 < node < |mem| && mem[node].reached == l < |mem[node].forward|
    requires Target(mem, mem[node].forward[l].to, l) && !mem[node].forward[l].marked
    requires forall m :: 0 <= m < l ==> !mem[node].forward[m].marked
    ensures var mem' := mem[node := mem[node].(reached := l + 1)];
      && MemOk(mem') && Grows(mem, mem') && Target(mem', node, l)
      && forall y :: 0 <= y < |mem| && y != node ==> Spared(mem, mem', y)
  {
    var mem' := mem[node := mem[node].(reached := l + 1)];
    forall y | 0 <= y < |mem'|
      ensures TowerOk(mem', y)
    { assert TowerOk(mem, y); }
  }

  /** The CAS that links a tower at its next level. */
  lemma LinkNext(mem: Memory, pred: Ref, l: nat, node: Ref, succ: Ref)
    requires MemOk(mem) && At(mem, pred, l) && mem[pred].forward[l] == Link(succ, false)
    requires 0 < node < |mem| && mem[node].reached == l < |mem[node].forward|
      && mem[node].forward[l] == Link(succ, false)
    requires forall m :: 0 <= m < l ==> !mem[node].forward[m].marked
    ensures var mem' := LinkTower(mem, pred, l, node);
      && MemOk(mem') && Grows(mem, mem') && (forall y :: 0 <= y < |mem| && y != node ==> Spared(mem, mem', y))
      && mem'[node] == mem[node].(reached := l + 1)
  {
    assert TowerOk(mem, pred);
    var mem1 := mem[node := mem[node].(reached := l + 1)];
    Reached(mem, node, l);
    SetUnmarked(mem1, pred, l, Link(node, false));
    var mem' := LinkTower(mem, pred, l, node);
    assert mem' == SetForward(mem1, pred, l, Link(node, false));
    forall y | 0 <= y < |mem| && y != node
      ensures Spared(mem, mem', y)
    { assert Spared(mem, mem1, y) && Spared(mem1, mem', y); }
  }

  lemma SetMark(mem: Memory, x: Ref, l: nat)
    requires MemOk(mem) && MarkedAbove(mem, x, l)
    ensures var mem' := SetForward(mem, x, l, Link(mem[x].forward[l].to, true));
      && MemOk(mem') && Grows(mem, mem') && (forall y :: 0 <= y < |mem| && y != x ==> Spared(mem, mem', y))
      && (l > 0 ==> MarkedAbove(mem', x, l - 1))
  {
    var mem' := SetForward(mem, x, l, Link(mem[x].forward[l].to, true));
    forall y | 0 <= y < |mem'|
      ensures TowerOk(mem', y)
    { assert TowerOk(mem, y); }
  }

  lemma StoreValue(mem: Memory, x: Ref, value: int)
    requires MemOk(mem) && 0 <= x < |mem|
    ensures var mem' := mem[x := mem[x].(value := value)];
      MemOk(mem') && Grows(mem, mem') && forall y :: 0 <= y < |mem| ==> Spared(mem, mem', y)
  {
    var mem' := mem[x := mem[x].(value := value)];
    forall y | 0 <= y < |mem'|
      ensures TowerOk(mem', y)
    { assert TowerOk(mem, y); }
  }

  lemma NewTower(mem: Memory, tower: Tower)
    requires MemOk(mem) && 1 <= |tower.forward| <= NUM_LEVELS && tower.reached == 0
    ensures var mem' := mem + [tower];
      MemOk(mem') && Grows(mem, mem') && forall y :: 0 <= y < |mem| ==> Spared(mem, mem', y)
  {
    var mem' := mem + [tower];
    forall y | 0 <= y < |mem'|
      ensures TowerOk(mem', y)
    { if y < |mem| { assert TowerOk(mem, y); } }
  }

  /** What a step does to memory, seen from other keys. */
  lemma MemoryStep(s: State, e: Event)
    requires MemOk(s.mem) && Enabled(s, e) && PcAt(s.mem, s.threads[e.thread])
    ensures MemOk(Step(s, e).mem) && Grows(s.mem, Step(s, e).mem)
    ensures forall y :: 0 <= y < |s.mem| && y != Relies(s.threads[e.thread].pc) ==> Spared(s.mem, Step(s, e).mem, y)
  {
    var me := s.threads[e.thread];
    hide TowerOk, TablesFrom;
    match me.pc
    case FillCas(_, lvl, cur, next, after) =>
      if s.mem[cur].forward[lvl] == Link(next, false) { SetUnmarked(s.mem, cur, lvl, Link(after, false)); }
    case UpdateStore(x) => StoreValue(s.mem, x, if me.op.Insert? then me.op.value else 0);
    case InsertAlloc =>
      NewTower(s.mem, Tower(me.op.key, if me.op.Insert? then me.op.value else 0,
                            [Link(NIL, false)] + e.action.garbage, 0));
    case InsertStore(node, lvl) =>
      if lvl < |s.mem[node].forward| { SetUnlinked(s.mem, node, lvl, Link(me.succs[lvl], false)); }
    case InsertCas(node, lvl) =>
      TableKnown(s.mem, me, lvl);
      if s.mem[me.preds[lvl]].forward[lvl] == Link(me.succs[lvl], false) {
        LinkNext(s.mem, me.preds[lvl], lvl, node, me.succs[lvl]);
      }
    case MarkCas(x, lvl, link) =>
      if s.mem[x].forward[lvl] == link { SetMark(s.mem, x, lvl); }
    case _ =>
  }

  lemma TableKnown(mem: Memory, th: Thread, l: nat)
    requires TablesFrom(mem, th, 0) && l < NUM_LEVELS
    ensures TableAt(mem, th, l)
  {
  }

  // The thread itself.

  lemma HeaderAt(mem: Memory, l: nat)
    requires MemOk(mem) && l < NUM_LEVELS
    ensures At(mem, HEADER, l)
  {
    assert TowerOk(mem, HEADER);
  }

  lemma LeadsOn(mem: Memory, x: Ref, l: nat)
    requires MemOk(mem) && At(mem, x, l)
    ensures Target(mem, mem[x].forward[l].to, l)
    ensures forall m :: 0 <= m <= l ==> At(mem, x, m)
  {
    assert TowerOk(mem, x);
  }

  /** A level is done: the tables are filled for it. */
  lemma LevelDoneAt(mem: Memory, th: Thread, goal: Goal, lvl: nat, pred: Ref, succ: Ref, hit: bool)
    requires MemOk(mem) && |th.preds| == |th.succs| == NUM_LEVELS && lvl < NUM_LEVELS
    requires At(mem, pred, lvl) && Target(mem, succ, lvl) && GoalAt(mem, th, goal, lvl)
    requires goal.Locate? && th.op.Remove? && hit && lvl == 0 ==>
      0 < succ < |mem| && 0 < |mem[succ].forward| == mem[succ].reached
    requires hit ==> succ != NIL
    ensures PcAt(mem, LevelDone(th, goal, lvl, pred, succ, hit))
  {
    var th' := LevelDone(th, goal, lvl, pred, succ, hit);
    LeadsOn(mem, pred, lvl);
    if th.op.Insert? && !goal.Unlink? {
      forall l | (if goal.Locate? then lvl else 0) <= l < NUM_LEVELS
        ensures TableAt(mem, th', l)
      { assert l != lvl ==> TableAt(mem, th, l); }
    }
  }

  lemma FillNextAt(s: State, e: Event)
    requires MemOk(s.mem) && Enabled(s, e) && PcAt(s.mem, s.threads[e.thread]) && s.threads[e.thread].pc.FillNext?
    requires var me := s.threads[e.thread]; var x := me.pc.next;
      me.pc.goal.Locate? && me.op.Remove? && me.pc.lvl == 0 && x != NIL && s.mem[x].key == me.op.key ==>
        0 < x < |s.mem| && 0 < |s.mem[x].forward| == s.mem[x].reached
    ensures e.thread < |Step(s, e).threads| && PcAt(Step(s, e).mem, Step(s, e).threads[e.thread])
  {
    var me := s.threads[e.thread];
    var goal, lvl, cur, next := me.pc.goal, me.pc.lvl, me.pc.cur, me.pc.next;
    hide PcAt, GoalAt;
    FillNextKnown(s.mem, me);
    if next == NIL {
      LevelDoneAt(s.mem, me, goal, lvl, cur, NIL, false);
    } else {
      LeadsOn(s.mem, next, lvl);
      var after := s.mem[next].forward[lvl];
      if !after.marked && s.mem[next].key >= me.op.key {
        LevelDoneAt(s.mem, me, goal, lvl, cur, next, s.mem[next].key == me.op.key);
      } else {
        FillingAt(s.mem, me, if after.marked then FillCas(goal, lvl, cur, next, after.to)
                  else FillNext(goal, lvl, next, after.to));
      }
    }
  }

  lemma FillNextKnown(mem: Memory, th: Thread)
    requires PcAt(mem, th) && th.pc.FillNext?
    ensures |th.preds| == |th.succs| == NUM_LEVELS && th.pc.lvl < NUM_LEVELS
    ensures At(mem, th.pc.cur, th.pc.lvl) && Target(mem, th.pc.next, th.pc.lvl)
      && GoalAt(mem, th, th.pc.goal, th.pc.lvl)
  {
  }

  /** The walk goes on at the same level. */
  lemma FillingAt(mem: Memory, th: Thread, pc: Pc)
    requires |th.preds| == |th.succs| == NUM_LEVELS
    requires pc.FillLoad? || pc.FillNext? || pc.FillCas?
    requires pc.lvl < NUM_LEVELS && At(mem, pc.cur, pc.lvl) && GoalAt(mem, th, pc.goal, pc.lvl)
    requires pc.FillNext? ==> Target(mem, pc.next, pc.lvl)
    requires pc.FillCas? ==> pc.next != NIL && Target(mem, pc.next, pc.lvl) && Target(mem, pc.after, pc.lvl)
    ensures PcAt(mem, th.(pc := pc))
  {
    assert GoalAt(mem, th.(pc := pc), pc.goal, pc.lvl) by { SameGoal(mem, th, pc, pc.goal, pc.lvl); }
  }

  lemma SameGoal(mem: Memory, th: Thread, pc: Pc, goal: Goal, lvl: nat)
    requires GoalAt(mem, th, goal, lvl)
    ensures GoalAt(mem, th.(pc := pc), goal, lvl)
  {
    forall l: nat
      ensures TableAt(mem, th.(pc := pc), l) == TableAt(mem, th, l)
    {
    }
  }

  /** The search begins again at the header. */
  lemma RestartAt(mem: Memory, th: Thread, goal: Goal, lvl: nat)
    requires MemOk(mem) && |th.preds| == |th.succs| == NUM_LEVELS && GoalAt(mem, th, goal, lvl)
    requires goal.Locate? || goal.Relocate? ==> lvl < NUM_LEVELS
    ensures Top(th, goal) < NUM_LEVELS ==> PcAt(mem, th.(pc := FillLoad(goal, Top(th, goal), HEADER)))
  {
    if Top(th, goal) < NUM_LEVELS {
      HeaderAt(mem, Top(th, goal));
      SameGoal(mem, th, FillLoad(goal, Top(th, goal), HEADER), goal, lvl);
    }
  }

  lemma FillAt(s: State, e: Event)
    requires MemOk(s.mem) && Enabled(s, e) && PcAt(s.mem, s.threads[e.thread])
    requires s.threads[e.thread].pc.FillLoad? || s.threads[e.thread].pc.FillCas?
    ensures e.thread < |Step(s, e).threads| && PcAt(Step(s, e).mem, Step(s, e).threads[e.thread])
  {
    var me := s.threads[e.thread];
    var goal, lvl, cur := me.pc.goal, me.pc.lvl, me.pc.cur;
    LeadsOn(s.mem, cur, lvl);
    if me.pc.FillLoad? {
      FillingAt(s.mem, me, FillNext(goal, lvl, cur, s.mem[cur].forward[lvl].to));
    } else if s.mem[cur].forward[lvl] == Link(me.pc.next, false) {
      SetUnmarked(s.mem, cur, lvl, Link(me.pc.after, false));
      var mem' := Step(s, e).mem;
      AtGrows(s.mem, mem', cur, lvl);
      GoalKept(s.mem, mem', me, goal, lvl);
      FillingAt(mem', me, FillLoad(goal, lvl, cur));
    } else {
      RestartAt(s.mem, me, goal, lvl);
    }
  }

  lemma TablesSame(mem: Memory, th: Thread, pc: Pc)
    requires TablesFrom(mem, th, 0)
    ensures TablesFrom(mem, th.(pc := pc), 0)
  {
    forall l | 0 <= l < NUM_LEVELS
      ensures TableAt(mem, th.(pc := pc), l)
    { assert TableAt(mem, th, l); }
  }

  lemma InsertAt(s: State, e: Event)
    requires MemOk(s.mem) && Enabled(s, e) && PcAt(s.mem, s.threads[e.thread])
    requires var pc := s.threads[e.thread].pc; pc.InsertAlloc? || pc.InsertStore? || pc.InsertCas?
    ensures e.thread < |Step(s, e).threads| && PcAt(Step(s, e).mem, Step(s, e).threads[e.thread])
  {
    var me, mem', pc' := s.threads[e.thread], Step(s, e).mem, Step(s, e).threads[e.thread].pc;
    hide TowerOk, TablesFrom;
    MemoryStep(s, e);
    TablesGrow(s.mem, mem', me, 0);
    TablesSame(mem', me, pc');
    if me.pc.InsertCas? {
      TableKnown(s.mem, me, me.pc.lvl);
      if s.mem[me.preds[me.pc.lvl]].forward[me.pc.lvl] == Link(me.succs[me.pc.lvl], false) {
        LinkNext(s.mem, me.preds[me.pc.lvl], me.pc.lvl, me.pc.node, me.succs[me.pc.lvl]);
      } else {
        HeaderAt(s.mem, NUM_LEVELS - 1);
      }
    }
  }

  lemma MarkAt(s: State, e: Event)
    requires MemOk(s.mem) && Enabled(s, e) && PcAt(s.mem, s.threads[e.thread])
    requires var pc := s.threads[e.thread].pc; pc.MarkLevel? || pc.MarkLoad? || pc.MarkCas?
    ensures e.thread < |Step(s, e).threads| && PcAt(Step(s, e).mem, Step(s, e).threads[e.thread])
  {
    var me := s.threads[e.thread];
    hide TowerOk;
    MemoryStep(s, e);
    HeaderAt(Step(s, e).mem, NUM_LEVELS - 1);
    if me.pc.MarkCas? && s.mem[me.pc.tower].forward[me.pc.lvl] == me.pc.link { SetMark(s.mem, me.pc.tower, me.pc.lvl); }
  }
}
