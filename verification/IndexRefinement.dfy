/** Seen from the bottom level, every run of the whole skip list with owned keys is an owned
    run of `ListMachine`: where its searches come down is now proved.
  */
module IndexRefinement {
  import opened Refs
  import opened TaggedPointers
  import opened IndexMachine
  import opened IndexInvariant
  import opened IndexSteps
  import L = ListMachine
  import M = ListMemory
  import O = ListOwnership
  import I = ListInvariant
  import R = ListLinearizability
  import A = AtomicMap

  /** The search moves on to the next tower of its level. */
  predicate Moving(mem: Memory, th: Thread)
    requires RefsOk(mem, th) && th.pc.FillNext?
  {
    var x, l := th.pc.next, th.pc.lvl;
    x != NIL && !mem[x].forward[l].marked && mem[x].key < th.op.key
  }

  predicate CasHolds(mem: Memory, th: Thread)
    requires RefsOk(mem, th) && (th.pc.FillCas? || th.pc.InsertCas? || th.pc.MarkCas?)
  {
    match th.pc
    case FillCas(_, lvl, cur, next, _) => mem[cur].forward[lvl] == Link(next, false)
    case InsertCas(_, lvl) => mem[th.preds[lvl]].forward[lvl] == Link(th.succs[lvl], false)
    case MarkCas(x, lvl, link) => mem[x].forward[lvl] == link
  }

  /** The step is not seen at the bottom. */
  predicate Silent(s: State, e: Event)
    requires Enabled(s, e)
  {
    var mem, me := s.mem, s.threads[e.thread];
    match me.pc
    case FillLoad(goal, lvl, _) => IsRaising(goal) || lvl > 0
    case FillNext(goal, lvl, _, _) => IsRaising(goal) || (lvl > 0 && !Moving(mem, me))
    case FillCas(goal, lvl, _, _, _) => IsRaising(goal) || (lvl > 0 && CasHolds(mem, me))
    case InsertStore(node, lvl) => lvl > 1 || (lvl == 1 && lvl < |mem[node].forward|)
    case InsertCas(_, lvl) => lvl > 1 || (lvl == 1 && !CasHolds(mem, me))
    case MarkLevel(x) => |mem[x].forward| > 1
    case MarkLoad(_, lvl) => lvl > 0
    case MarkCas(_, lvl, _) => lvl > 1 || (lvl == 1 && !CasHolds(mem, me))
    case _ => false
  }

  /** What the others are at the bottom. */
  function EventOf(s: State, e: Event): L.Event
    requires e.thread < |s.threads|
  {
    L.Event(e.thread,
      match s.threads[e.thread].pc
      case Idle => if e.action.Call? then L.Call(e.action.op) else L.Tau
      case FillNext(_, lvl, _, next) => if lvl > 0 then L.Enter(next) else L.Tau
      case FillCas(_, lvl, _, _, _) => if lvl > 0 then L.Enter(HEADER) else L.Tau
      case InsertCas(_, lvl) => if lvl == 1 then L.Raise else L.Tau
      case _ => L.Tau)
  }

  lemma MemUpdate(mem: Memory, x: Ref, tower: Tower)
    requires 0 <= x < |mem|
    ensures MemOf(mem[x := tower]) == MemOf(mem)[x := TowerOf(tower)]
  {
  }

  lemma SameMem(mem: Memory, x: Ref, tower: Tower)
    requires 0 <= x < |mem| && TowerOf(tower) == TowerOf(mem[x])
    ensures MemOf(mem[x := tower]) == MemOf(mem)
  {
    MemUpdate(mem, x, tower);
  }

  /** A pointer above the level of the index that counts for the bottom, or one there that stays
      unmarked. */
  lemma IndexStore(mem: Memory, x: Ref, l: nat, link: Link)
    requires Has(mem, x, l) && l > 0
    requires l > 1 || mem[x].reached < 2 || mem[x].forward[1].marked == link.marked
    ensures MemOf(SetForward(mem, x, l, link)) == MemOf(mem)
  {
    SameMem(mem, x, mem[x].(forward := mem[x].forward[l := link]));
  }

  lemma SilentMemory(s: State, e: Event)
    requires MemOk(s.mem) && Enabled(s, e) && PcAt(s.mem, s.threads[e.thread]) && Silent(s, e)
    ensures MemOf(Step(s, e).mem) == MemOf(s.mem) && Step(s, e).retired == s.retired
  {
    var mem, me := s.mem, s.threads[e.thread];
    hide MemOk, TowerOk, TablesFrom, MemOf, TowerOf;
    match me.pc
    case FillCas(_, lvl, cur, next, after) => if CasHolds(mem, me) { IndexStore(mem, cur, lvl, Link(after, false)); }
    case InsertStore(node, lvl) =>
      if lvl < |mem[node].forward| { IndexStore(mem, node, lvl, Link(me.succs[lvl], false)); }
    case InsertCas(node, lvl) =>
      if CasHolds(mem, me) {
        var mem1 := SetForward(mem, me.preds[lvl], lvl, Link(node, false));
        IndexStore(mem, me.preds[lvl], lvl, Link(node, false));
        ReachedMore(mem1, node, lvl + 1);
      }
    case MarkCas(x, lvl, link) => if CasHolds(mem, me) { IndexStore(mem, x, lvl, Link(link.to, true)); }
    case _ =>
  }

  lemma ReachedMore(mem: Memory, node: Ref, r: nat)
    requires 0 <= node < |mem| && mem[node].reached >= 2 && r >= 2
    ensures MemOf(mem[node := mem[node].(reached := r)]) == MemOf(mem)
  {
    SameMem(mem, node, mem[node].(reached := r));
  }

  lemma SilentFill(s: State, e: Event)
    requires Enabled(s, e) && PcAt(s.mem, s.threads[e.thread]) && Silent(s, e)
    requires var pc := s.threads[e.thread].pc; pc.FillLoad? || pc.FillNext? || pc.FillCas?
    ensures |Step(s, e).threads| == |s.threads|
    ensures ThreadOf(Step(s, e).threads[e.thread]) == ThreadOf(s.threads[e.thread])
  {
    hide TablesFrom, TowerOf, MemOf;
  }

  lemma SilentThread(s: State, e: Event)
    requires Enabled(s, e) && PcAt(s.mem, s.threads[e.thread]) && Silent(s, e)
    ensures |Step(s, e).threads| == |s.threads|
    ensures ThreadOf(Step(s, e).threads[e.thread]) == ThreadOf(s.threads[e.thread])
  {
    hide TablesFrom, TowerOf, MemOf, At, Target, GoalAt;
    var pc := s.threads[e.thread].pc;
    if pc.FillLoad? || pc.FillNext? || pc.FillCas? { SilentFill(s, e); }
  }

  lemma ThreadsOf(s: State, e: Event)
    requires Enabled(s, e)
    ensures |Step(s, e).threads| == |s.threads|
      && Step(s, e).threads == s.threads[e.thread := Step(s, e).threads[e.thread]]
    ensures StateOf(Step(s, e)).threads == StateOf(s).threads[e.thread := ThreadOf(Step(s, e).threads[e.thread])]
  {
  }

  lemma SilentStep(s: State, e: Event)
    requires MemOk(s.mem) && Enabled(s, e) && PcAt(s.mem, s.threads[e.thread]) && Silent(s, e)
    ensures StateOf(Step(s, e)) == StateOf(s)
  {
    hide Step, MemOk, PcAt, Silent, MemOf;
    SilentMemory(s, e);
    SilentThread(s, e);
    ThreadsOf(s, e);
  }

  // The steps that are seen at the bottom.

  lemma TowerAt(mem: Memory, x: Ref)
    requires 0 <= x < |mem|
    ensures |MemOf(mem)| == |mem| && MemOf(mem)[x] == TowerOf(mem[x])
  {
  }

  /** A tower linked at a level above the bottom and not marked there is open. */
  lemma OpenAt(mem: Memory, x: Ref, l: nat)
    requires MemOk(mem) && x != HEADER && l > 0 && At(mem, x, l) && !mem[x].forward[l].marked
    ensures M.IsLinked(MemOf(mem), x) && MemOf(mem)[x].open
  {
    assert TowerOk(mem, x);
  }

  /** What `ListMachine` says of the thread. */
  ghost predicate BottomOk(s: State, t: nat)
    requires t < |s.threads|
  {
    I.PcOk(MemOf(s.mem), s.threads[t].op, PcOf(s.threads[t])) && M.IsLinked(MemOf(s.mem), HEADER)
  }

  ghost predicate Follows(s: State, e: Event)
    requires Enabled(s, e)
  {
    var a, le := StateOf(s), EventOf(s, e);
    L.Enabled(a, le) && L.Step(a, le) == StateOf(Step(s, e)) && O.ComesDown(a, le)
  }

  lemma FollowsFrom(s: State, e: Event, s1: L.State)
    requires Enabled(s, e) && L.Enabled(StateOf(s), EventOf(s, e)) && O.ComesDown(StateOf(s), EventOf(s, e))
    requires s1 == L.Step(StateOf(s), EventOf(s, e))
    requires s1.mem == MemOf(Step(s, e).mem) && s1.retired == Step(s, e).retired
    requires s1.threads == StateOf(s).threads[e.thread := ThreadOf(Step(s, e).threads[e.thread])]
    ensures Follows(s, e)
  {
    ThreadsOf(s, e);
  }

  lemma LoudFill(s: State, e: Event)
    requires MemOk(s.mem) && Enabled(s, e) && PcAt(s.mem, s.threads[e.thread]) && !Silent(s, e) && BottomOk(s, e.thread)
    requires var pc := s.threads[e.thread].pc; pc.FillLoad? || pc.FillNext?
    ensures Follows(s, e)
  {
    var me, mem := s.threads[e.thread], MemOf(s.mem);
    if me.pc.FillNext? && me.pc.next != NIL {
      TowerAt(s.mem, me.pc.next);
      if me.pc.lvl > 0 { OpenAt(s.mem, me.pc.next, me.pc.lvl); }
    }
    TowerAt(s.mem, me.pc.cur);
    hide MemOf, TowerOk;
    FollowsFrom(s, e, L.Step(StateOf(s), EventOf(s, e)));
  }

  lemma LoudCas(s: State, e: Event)
    requires MemOk(s.mem) && Enabled(s, e) && PcAt(s.mem, s.threads[e.thread]) && !Silent(s, e) && BottomOk(s, e.thread)
    requires s.threads[e.thread].pc.FillCas?
    ensures Follows(s, e)
  {
    var me, mem := s.threads[e.thread], MemOf(s.mem);
    var lvl, cur := me.pc.lvl, me.pc.cur;
    TowerAt(s.mem, cur);
    TowerAt(s.mem, me.pc.next);
    if lvl == 0 && CasHolds(s.mem, me) {
      var tower := s.mem[cur].(forward := s.mem[cur].forward[0 := Link(me.pc.after, false)]);
      MemUpdate(s.mem, cur, tower);
      assert TowerOf(tower) == TowerOf(s.mem[cur]).(next := me.pc.after);
    }
    hide MemOf, TowerOk;
    FollowsFrom(s, e, L.Step(StateOf(s), EventOf(s, e)));
  }

  lemma LoudInsert(s: State, e: Event)
    requires MemOk(s.mem) && Enabled(s, e) && PcAt(s.mem, s.threads[e.thread]) && !Silent(s, e) && BottomOk(s, e.thread)
    requires var pc := s.threads[e.thread].pc; pc.InsertAlloc? || pc.InsertStore? || pc.UpdateStore?
    ensures Follows(s, e)
  {
    var me := s.threads[e.thread];
    if me.pc.InsertStore? {
      var node := me.pc.node;
      TowerAt(s.mem, node);
      if me.pc.lvl == 0 {
        var tower := s.mem[node].(forward := s.mem[node].forward[0 := Link(me.succs[0], false)]);
        MemUpdate(s.mem, node, tower);
        assert TowerOf(tower) == TowerOf(s.mem[node]).(next := me.succs[0]);
      }
    } else if me.pc.UpdateStore? {
      TowerAt(s.mem, me.pc.tower);
      MemUpdate(s.mem, me.pc.tower, s.mem[me.pc.tower].(value := if me.op.Insert? then me.op.value else 0));
    } else {
      assert MemOf(Step(s, e).mem) == MemOf(s.mem) + [TowerOf(Step(s, e).mem[|s.mem|])];
    }
    FollowsFrom(s, e, L.Step(StateOf(s), EventOf(s, e)));
  }

  lemma LinkedBottom(mem: Memory, pred: Ref, node: Ref)
    requires Has(mem, pred, 0) && Has(mem, node, 0) && pred != node && mem[node].reached == 0
      && !mem[pred].forward[0].marked
    ensures 0 <= pred < |MemOf(mem)| && 0 <= node < |MemOf(mem)|
    ensures MemOf(LinkTower(mem, pred, 0, node)) == M.Link(MemOf(mem), pred, node)
  {
    var p := mem[pred].(forward := mem[pred].forward[0 := Link(node, false)]);
    MemUpdate(mem, pred, p);
    MemUpdate(mem[pred := p], node, mem[node].(reached := 1));
  }

  lemma LinkedAbove(mem: Memory, pred: Ref, node: Ref)
    requires Has(mem, pred, 1) && Has(mem, node, 1) && pred != node && mem[node].reached == 1
    requires !mem[pred].forward[1].marked && !mem[node].forward[1].marked
    ensures 0 <= node < |MemOf(mem)|
    ensures MemOf(LinkTower(mem, pred, 1, node)) == L.SetOpen(MemOf(mem), node, true)
  {
    var p := mem[pred].(forward := mem[pred].forward[1 := Link(node, false)]);
    SameMem(mem, pred, p);
    MemUpdate(mem[pred := p], node, mem[node].(reached := 2));
  }

  lemma LoudLink(s: State, e: Event)
    requires MemOk(s.mem) && Enabled(s, e) && PcAt(s.mem, s.threads[e.thread]) && !Silent(s, e) && BottomOk(s, e.thread)
    requires s.threads[e.thread].pc.InsertCas?
    ensures Follows(s, e)
  {
    var me := s.threads[e.thread];
    var node, lvl := me.pc.node, me.pc.lvl;
    TableKnown(s.mem, me, lvl);
    var pred := me.preds[lvl];
    TowerAt(s.mem, node);
    TowerAt(s.mem, pred);
    if CasHolds(s.mem, me) {
      if lvl == 0 { LinkedBottom(s.mem, pred, node); } else { LinkedAbove(s.mem, pred, node); }
    }
    hide MemOf, TowerOk, TablesFrom;
    FollowsFrom(s, e, L.Step(StateOf(s), EventOf(s, e)));
  }

  lemma LoudMarkCas(s: State, e: Event)
    requires MemOk(s.mem) && Enabled(s, e) && PcAt(s.mem, s.threads[e.thread]) && !Silent(s, e) && BottomOk(s, e.thread)
    requires s.threads[e.thread].pc.MarkCas?
    ensures Follows(s, e)
  {
    hide TowerOk, TablesFrom;
    var me := s.threads[e.thread];
    var x := me.pc.tower;
    TowerAt(s.mem, x);
    if CasHolds(s.mem, me) {
      var lvl := me.pc.lvl;
      MemUpdate(s.mem, x, s.mem[x].(forward := s.mem[x].forward[lvl := Link(me.pc.link.to, true)]));
    }
    FollowsFrom(s, e, L.Step(StateOf(s), EventOf(s, e)));
  }

  lemma LoudMark(s: State, e: Event)
    requires MemOk(s.mem) && Enabled(s, e) && PcAt(s.mem, s.threads[e.thread]) && !Silent(s, e) && BottomOk(s, e.thread)
    requires var pc := s.threads[e.thread].pc; pc.MarkLevel? || pc.MarkLoad?
    ensures Follows(s, e)
  {
    hide TowerOk, TablesFrom;
    var me := s.threads[e.thread];
    var x := me.pc.tower;
    TowerAt(s.mem, x);
    if me.pc.MarkLevel? {
      SameMem(s.mem, x, s.mem[x]);
      assert L.SetOpen(MemOf(s.mem), x, false) == MemOf(s.mem);
    }
    FollowsFrom(s, e, L.Step(StateOf(s), EventOf(s, e)));
  }

  lemma LoudStep(s: State, e: Event)
    requires MemOk(s.mem) && Enabled(s, e) && PcAt(s.mem, s.threads[e.thread]) && !Silent(s, e) && BottomOk(s, e.thread)
    ensures Follows(s, e)
  {
    var pc := s.threads[e.thread].pc;
    hide MemOk, PcAt, BottomOk, Follows, Silent;
    if pc.FillLoad? || pc.FillNext? {
      LoudFill(s, e);
    } else if pc.FillCas? {
      LoudCas(s, e);
    } else if pc.InsertAlloc? || pc.InsertStore? || pc.UpdateStore? {
      LoudInsert(s, e);
    } else if pc.InsertCas? {
      LoudLink(s, e);
    } else if pc.MarkCas? {
      LoudMarkCas(s, e);
    } else if pc.MarkLevel? || pc.MarkLoad? {
      LoudMark(s, e);
    } else {
      LoudRest(s, e);
    }
  }

  lemma LoudRest(s: State, e: Event)
    requires MemOk(s.mem) && Enabled(s, e) && PcAt(s.mem, s.threads[e.thread]) && BottomOk(s, e.thread)
    requires var pc := s.threads[e.thread].pc; pc.Idle? || pc.RetireTower? || pc.SearchRead? || pc.Return?
    ensures Follows(s, e)
  {
    var me := s.threads[e.thread];
    if me.pc.SearchRead? { TowerAt(s.mem, me.pc.tower); }
    hide MemOf, TowerOk;
    FollowsFrom(s, e, L.Step(StateOf(s), EventOf(s, e)));
  }
}
