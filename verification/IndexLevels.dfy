/** Each level of the concurrent skip list is a list of its own: in every reachable state its
    walk from the header is sorted, ends, and passes every tower that is linked and not
    marked there.
  */
module IndexLevels {
  import opened Refs
  import opened TaggedPointers
  import opened IndexMachine
  import opened IndexInvariant
  import opened IndexSteps
  import opened IndexRefinement
  import opened IndexLinearizability
  import opened ListChanges
  import M = ListMemory
  import O = ListOwnership
  import I = ListInvariant
  import H = ListHistory

  /** One level of the memory. */
  function LevelTower(x: Ref, tower: Tower, l: nat): M.Tower {
    var has := l < |tower.forward|;
    M.Tower(tower.key, tower.value, if has then tower.forward[l].to else NIL, has && tower.forward[l].marked,
            has && (x == HEADER || tower.reached > l), false)
  }

  function LevelOf(mem: Memory, l: nat): M.Memory {
    seq(|mem|, x requires 0 <= x < |mem| => LevelTower(x, mem[x], l))
  }

  lemma LevelAt(mem: Memory, x: Ref, l: nat)
    ensures |LevelOf(mem, l)| == |mem|
    ensures M.IsLinked(LevelOf(mem, l), x) <==> At(mem, x, l)
    ensures 0 <= x < |mem| ==> LevelOf(mem, l)[x] == LevelTower(x, mem[x], l)
  {
  }

  // What a step changes at one level.

  function ChangeOf(s: State, e: Event, l: nat): Change
    requires Enabled(s, e)
  {
    var mem, me := s.mem, s.threads[e.thread];
    match me.pc
    case FillCas(_, lvl, cur, next, _) => if lvl == l && CasHolds(mem, me) then Unlinks(cur, next) else Stores
    case InsertCas(node, lvl) => if lvl == l && CasHolds(mem, me) then Links(me.preds[lvl], node) else Stores
    case MarkCas(x, lvl, _) => if lvl == l && CasHolds(mem, me) then Marks(x) else Stores
    case _ => Stores
  }

  /** The tables from this level up: to the left of the key, and not to the left. */
  ghost predicate TableKeys(mem: Memory, th: Thread, lo: nat)
    requires |th.preds| == |th.succs| == NUM_LEVELS
  {
    forall l :: lo <= l < NUM_LEVELS ==>
      I.Before(LevelOf(mem, l), th.preds[l], th.op.key) && I.NotBefore(LevelOf(mem, l), th.succs[l], th.op.key)
  }

  ghost predicate GoalKeys(mem: Memory, th: Thread, goal: Goal, lvl: nat)
    requires |th.preds| == |th.succs| == NUM_LEVELS
  {
    match goal
    case Locate => th.op.Insert? ==> TableKeys(mem, th, lvl + 1)
    case Relocate(_, _) => TableKeys(mem, th, 0)
    case Unlink(_) => true
  }

  /** A marked tower as a search has seen it. */
  predicate SeenMarked(level: M.Memory, next: Ref, after: Ref) {
    M.IsLinked(level, next) && next != HEADER && level[next].marked && level[next].next == after
  }

  ghost predicate PcKeys(mem: Memory, th: Thread) {
    |th.preds| == |th.succs| == NUM_LEVELS &&
    match th.pc
    case FillLoad(goal, lvl, cur) => I.Before(LevelOf(mem, lvl), cur, th.op.key) && GoalKeys(mem, th, goal, lvl)
    case FillNext(goal, lvl, cur, _) => I.Before(LevelOf(mem, lvl), cur, th.op.key) && GoalKeys(mem, th, goal, lvl)
    case FillCas(goal, lvl, cur, next, after) =>
      && I.Before(LevelOf(mem, lvl), cur, th.op.key) && GoalKeys(mem, th, goal, lvl)
      && SeenMarked(LevelOf(mem, lvl), next, after)
    case InsertAlloc => TableKeys(mem, th, 0)
    case InsertStore(_, _) => TableKeys(mem, th, 0)
    case InsertCas(_, _) => TableKeys(mem, th, 0)
    case _ => true
  }

  ghost predicate LevelsOk(s: State) {
    && (forall l :: 0 <= l < NUM_LEVELS ==> HasWalk(LevelOf(s.mem, l)))
    && forall t :: 0 <= t < |s.threads| ==> PcKeys(s.mem, s.threads[t])
  }

  /** A pointer of another level. */
  lemma OtherLevelSame(mem: Memory, x: Ref, lvl: nat, link: Link, l: nat)
    requires Has(mem, x, lvl) && l != lvl
    ensures LevelOf(SetForward(mem, x, lvl, link), l) == LevelOf(mem, l)
  {
  }

  lemma SameIsStore(level: M.Memory)
    ensures Changes(level, level, Stores)
  {
  }

  lemma UnlinkChange(s: State, e: Event, l: nat)
    requires Enabled(s, e) && s.threads[e.thread].pc.FillCas? && l < NUM_LEVELS
    requires PcAt(s.mem, s.threads[e.thread]) && PcKeys(s.mem, s.threads[e.thread])
    ensures Changes(LevelOf(s.mem, l), LevelOf(Step(s, e).mem, l), ChangeOf(s, e, l))
  {
    hide GoalAt, GoalKeys, TableKeys, TablesFrom;
    var me, mem := s.threads[e.thread], s.mem;
    var lvl, cur, next, after := me.pc.lvl, me.pc.cur, me.pc.next, me.pc.after;
    SameIsStore(LevelOf(mem, l));
    if CasHolds(mem, me) {
      if l == lvl {
        LevelAt(mem, cur, l);
        LevelAt(mem, next, l);
        assert LevelOf(SetForward(mem, cur, l, Link(after, false)), l) == M.SetNext(LevelOf(mem, l), cur, after);
      } else {
        OtherLevelSame(mem, cur, lvl, Link(after, false), l);
      }
    }
  }

  lemma LinkChange(s: State, e: Event, l: nat)
    requires Enabled(s, e) && s.threads[e.thread].pc.InsertCas? && l < NUM_LEVELS
    requires MemOk(s.mem) && PcAt(s.mem, s.threads[e.thread]) && PcKeys(s.mem, s.threads[e.thread])
    ensures Changes(LevelOf(s.mem, l), LevelOf(Step(s, e).mem, l), ChangeOf(s, e, l))
  {
    hide TableKeys, TablesFrom, MemOk;
    var me, mem := s.threads[e.thread], s.mem;
    var lvl, node := me.pc.lvl, me.pc.node;
    var pred, succ := me.preds[lvl], me.succs[lvl];
    SameIsStore(LevelOf(mem, l));
    if CasHolds(mem, me) {
      TableKeysAt(mem, me, lvl);
      TableKnown(mem, me, lvl);
      LevelAt(mem, pred, l);
      LevelAt(mem, node, l);
      LevelAt(mem, succ, l);
      LinkLevels(mem, pred, lvl, node, l);
    }
  }

  lemma TableKeysAt(mem: Memory, th: Thread, l: nat)
    requires |th.preds| == |th.succs| == NUM_LEVELS && TableKeys(mem, th, 0) && l < NUM_LEVELS
    ensures I.Before(LevelOf(mem, l), th.preds[l], th.op.key) && I.NotBefore(LevelOf(mem, l), th.succs[l], th.op.key)
  {
  }

  /** Linking a tower at one more level is seen at that level only. */
  lemma LinkLevels(mem: Memory, pred: Ref, lvl: nat, node: Ref, l: nat)
    requires Has(mem, pred, lvl) && Has(mem, node, lvl) && pred != node && mem[node].reached == lvl && node != HEADER
    requires !mem[pred].forward[lvl].marked
    ensures 0 <= pred < |LevelOf(mem, l)| && 0 <= node < |LevelOf(mem, l)|
    ensures LevelOf(LinkTower(mem, pred, lvl, node), l)
         == if l == lvl then M.Link(LevelOf(mem, l), pred, node) else LevelOf(mem, l)
  {
  }

  lemma MarkChange(s: State, e: Event, l: nat)
    requires Enabled(s, e) && s.threads[e.thread].pc.MarkCas? && l < NUM_LEVELS
    requires PcAt(s.mem, s.threads[e.thread])
    ensures Changes(LevelOf(s.mem, l), LevelOf(Step(s, e).mem, l), ChangeOf(s, e, l))
  {
    var me, mem := s.threads[e.thread], s.mem;
    var x, lvl := me.pc.tower, me.pc.lvl;
    SameIsStore(LevelOf(mem, l));
    if CasHolds(mem, me) {
      var link := Link(me.pc.link.to, true);
      if l == lvl {
        LevelAt(mem, x, l);
        assert LevelOf(SetForward(mem, x, l, link), l) == M.Mark(LevelOf(mem, l), x);
      } else {
        OtherLevelSame(mem, x, lvl, link, l);
      }
    }
  }

  /** A store to a value or to a tower that is not linked at this level. */
  lemma StoreChange(s: State, e: Event, l: nat)
    requires Enabled(s, e) && l < NUM_LEVELS && PcAt(s.mem, s.threads[e.thread]) && |s.mem| > 0
    requires var pc := s.threads[e.thread].pc; !pc.FillCas? && !pc.InsertCas? && !pc.MarkCas?
    ensures Changes(LevelOf(s.mem, l), LevelOf(Step(s, e).mem, l), Stores)
  {
    hide TablesFrom, GoalAt;
    var level, level' := LevelOf(s.mem, l), LevelOf(Step(s, e).mem, l);
    SameIsStore(level);
    forall x
      ensures M.IsLinked(level', x) ==> M.IsLinked(level, x)
      ensures M.IsLinked(level, x) ==>
        && level'[x].linked && level'[x].key == level[x].key
        && level'[x].next == level[x].next && level'[x].marked == level[x].marked
    {
      LevelAt(s.mem, x, l);
      LevelAt(Step(s, e).mem, x, l);
    }
  }

  lemma LevelChange(s: State, e: Event, l: nat)
    requires Enabled(s, e) && MemOk(s.mem) && PcAt(s.mem, s.threads[e.thread]) && PcKeys(s.mem, s.threads[e.thread])
    requires l < NUM_LEVELS
    ensures Changes(LevelOf(s.mem, l), LevelOf(Step(s, e).mem, l), ChangeOf(s, e, l))
  {
    var pc := s.threads[e.thread].pc;
    if pc.FillCas? {
      UnlinkChange(s, e, l);
    } else if pc.InsertCas? {
      LinkChange(s, e, l);
    } else if pc.MarkCas? {
      MarkChange(s, e, l);
    } else {
      StoreChange(s, e, l);
    }
  }

  /** Towers stay linked at their levels, with their keys, and marked pointers never change. */
  ghost predicate LevelsEvolve(mem: Memory, mem': Memory) {
    forall l :: 0 <= l < NUM_LEVELS ==> I.Evolves(LevelOf(mem, l), LevelOf(mem', l))
  }

  lemma StepEvolves(s: State, e: Event)
    requires Enabled(s, e) && MemOk(s.mem) && PcAt(s.mem, s.threads[e.thread]) && PcKeys(s.mem, s.threads[e.thread])
    ensures LevelsEvolve(s.mem, Step(s, e).mem)
  {
    hide Step, Enabled, Changes, PcAt, PcKeys, MemOk;
    forall l | 0 <= l < NUM_LEVELS
      ensures I.Evolves(LevelOf(s.mem, l), LevelOf(Step(s, e).mem, l))
    {
      LevelChange(s, e, l);
      ChangeEvolves(LevelOf(s.mem, l), LevelOf(Step(s, e).mem, l), ChangeOf(s, e, l));
    }
  }

  lemma KeysKept(level: M.Memory, level': M.Memory, x: Ref, y: Ref, key: int)
    requires I.Evolves(level, level')
    ensures I.Before(level, x, key) ==> I.Before(level', x, key)
    ensures I.NotBefore(level, x, key) ==> I.NotBefore(level', x, key)
    ensures SeenMarked(level, x, y) ==> SeenMarked(level', x, y)
  {
  }

  lemma TableKeysKept(mem: Memory, mem': Memory, th: Thread, th': Thread, lo: nat)
    requires LevelsEvolve(mem, mem') && |th.preds| == |th.succs| == NUM_LEVELS && TableKeys(mem, th, lo)
    requires th'.preds == th.preds && th'.succs == th.succs && th'.op == th.op
    ensures TableKeys(mem', th', lo)
  {
    forall l | lo <= l < NUM_LEVELS
      ensures I.Before(LevelOf(mem', l), th.preds[l], th.op.key)
      ensures I.NotBefore(LevelOf(mem', l), th.succs[l], th.op.key)
    {
      KeysKept(LevelOf(mem, l), LevelOf(mem', l), th.preds[l], NIL, th.op.key);
      KeysKept(LevelOf(mem, l), LevelOf(mem', l), th.succs[l], NIL, th.op.key);
    }
  }

  lemma GoalKeysKept(mem: Memory, mem': Memory, th: Thread, th': Thread, goal: Goal, lvl: nat)
    requires LevelsEvolve(mem, mem') && |th.preds| == |th.succs| == NUM_LEVELS && GoalKeys(mem, th, goal, lvl)
    requires th'.preds == th.preds && th'.succs == th.succs && th'.op == th.op
    ensures GoalKeys(mem', th', goal, lvl)
  {
    hide TableKeys;
    if goal.Locate? && th.op.Insert? { TableKeysKept(mem, mem', th, th', lvl + 1); }
    if goal.Relocate? { TableKeysKept(mem, mem', th, th', 0); }
  }

  lemma OtherPcKeys(mem: Memory, mem': Memory, th: Thread)
    requires LevelsEvolve(mem, mem') && PcKeys(mem, th) && PcAt(mem, th)
    ensures PcKeys(mem', th)
  {
    hide TableKeys, GoalKeys, I.Before, I.NotBefore, SeenMarked, TablesFrom, GoalAt, At, Target, I.Evolves, LevelOf;
    if th.pc.FillLoad? || th.pc.FillNext? || th.pc.FillCas? {
      KeysKept(LevelOf(mem, th.pc.lvl), LevelOf(mem', th.pc.lvl), th.pc.cur, NIL, th.op.key);
      GoalKeysKept(mem, mem', th, th, th.pc.goal, th.pc.lvl);
      if th.pc.FillCas? {
        KeysKept(LevelOf(mem, th.pc.lvl), LevelOf(mem', th.pc.lvl), th.pc.next, th.pc.after, th.op.key);
      }
    } else if th.pc.InsertAlloc? || th.pc.InsertStore? || th.pc.InsertCas? {
      TableKeysKept(mem, mem', th, th, 0);
    }
  }

  /** The place a search is at, one level down. */
  lemma BeforeBelow(mem: Memory, x: Ref, l: nat, m: nat, key: int)
    requires MemOk(mem) && I.Before(LevelOf(mem, l), x, key) && m <= l
    ensures At(mem, x, l) && I.Before(LevelOf(mem, m), x, key)
  {
    LevelAt(mem, x, l);
    LevelAt(mem, x, m);
    LeadsOn(mem, x, l);
  }

  /** A level is done: the tables are filled for it. */
  lemma LevelDoneKeys(mem: Memory, th: Thread, goal: Goal, lvl: nat, pred: Ref, succ: Ref, hit: bool)
    requires MemOk(mem) && |th.preds| == |th.succs| == NUM_LEVELS && lvl < NUM_LEVELS
    requires I.Before(LevelOf(mem, lvl), pred, th.op.key) && I.NotBefore(LevelOf(mem, lvl), succ, th.op.key)
    requires GoalKeys(mem, th, goal, lvl)
    ensures PcKeys(mem, LevelDone(th, goal, lvl, pred, succ, hit))
  {
    hide MemOk, I.Before, I.NotBefore;
    var th' := LevelDone(th, goal, lvl, pred, succ, hit);
    if lvl > 0 { BeforeBelow(mem, pred, lvl, lvl - 1, th.op.key); }
    if goal.Relocate? || (goal.Locate? && th.op.Insert?) {
      forall l | (if goal.Locate? then lvl else 0) <= l < NUM_LEVELS
        ensures I.Before(LevelOf(mem, l), th'.preds[l], th.op.key)
        ensures I.NotBefore(LevelOf(mem, l), th'.succs[l], th.op.key)
      { assert l != lvl ==> th'.preds[l] == th.preds[l] && th'.succs[l] == th.succs[l]; }
    }
  }

  lemma NextKeys(s: State, e: Event)
    requires Enabled(s, e) && MemOk(s.mem) && PcAt(s.mem, s.threads[e.thread]) && PcKeys(s.mem, s.threads[e.thread])
    requires s.threads[e.thread].pc.FillNext?
    ensures e.thread < |Step(s, e).threads| && PcKeys(Step(s, e).mem, Step(s, e).threads[e.thread])
  {
    hide MemOk, GoalKeys, TableKeys, TablesFrom, GoalAt;
    var me, mem := s.threads[e.thread], s.mem;
    var goal, lvl, cur, next := me.pc.goal, me.pc.lvl, me.pc.cur, me.pc.next;
    LevelAt(mem, next, lvl);
    if next == NIL {
      LevelDoneKeys(mem, me, goal, lvl, cur, NIL, false);
    } else if !mem[next].forward[lvl].marked && mem[next].key >= me.op.key {
      LevelDoneKeys(mem, me, goal, lvl, cur, next, mem[next].key == me.op.key);
    } else {
      GoalKeysSame(mem, me, Step(s, e).threads[e.thread], goal, lvl);
    }
  }

  lemma GoalKeysSame(mem: Memory, th: Thread, th': Thread, goal: Goal, lvl: nat)
    requires |th.preds| == |th.succs| == NUM_LEVELS && GoalKeys(mem, th, goal, lvl)
    requires th'.preds == th.preds && th'.succs == th.succs && th'.op == th.op
    ensures GoalKeys(mem, th', goal, lvl)
  {
    forall l | 0 <= l < NUM_LEVELS
      ensures I.Evolves(LevelOf(mem, l), LevelOf(mem, l))
    {
    }
    GoalKeysKept(mem, mem, th, th', goal, lvl);
  }

  lemma FillKeys(s: State, e: Event)
    requires Enabled(s, e) && MemOk(s.mem) && PcAt(s.mem, s.threads[e.thread]) && PcKeys(s.mem, s.threads[e.thread])
    requires s.threads[e.thread].pc.FillLoad? || s.threads[e.thread].pc.FillCas?
    ensures e.thread < |Step(s, e).threads| && PcKeys(Step(s, e).mem, Step(s, e).threads[e.thread])
  {
    hide GoalKeys, TableKeys, TablesFrom, MemOk;
    var me, mem := s.threads[e.thread], s.mem;
    var goal, lvl, cur := me.pc.goal, me.pc.lvl, me.pc.cur;
    StepEvolves(s, e);
    GoalKeysKept(mem, Step(s, e).mem, me, Step(s, e).threads[e.thread], goal, lvl);
    KeysKept(LevelOf(mem, lvl), LevelOf(Step(s, e).mem, lvl), cur, NIL, me.op.key);
    RestartKeys(mem, me, Step(s, e).threads[e.thread], goal, lvl);
  }

  /** A search that begins again at the header fills its tables again. */
  lemma RestartKeys(mem: Memory, th: Thread, th': Thread, goal: Goal, lvl: nat)
    requires MemOk(mem) && |th.preds| == |th.succs| == NUM_LEVELS && GoalKeys(mem, th, goal, lvl)
    requires GoalAt(mem, th, goal, lvl)
    requires th'.preds == th.preds && th'.succs == th.succs && th'.op == th.op
    ensures Top(th, goal) < NUM_LEVELS ==>
      I.Before(LevelOf(mem, Top(th, goal)), HEADER, th.op.key) && GoalKeys(mem, th', goal, Top(th, goal))
  {
    if Top(th, goal) < NUM_LEVELS {
      HeaderAt(mem, Top(th, goal));
      LevelAt(mem, HEADER, Top(th, goal));
      GoalKeysSame(mem, th, th', goal, lvl);
    }
  }

  lemma RestKeys(s: State, e: Event)
    requires Enabled(s, e) && MemOk(s.mem) && PcAt(s.mem, s.threads[e.thread]) && PcKeys(s.mem, s.threads[e.thread])
    requires var pc := s.threads[e.thread].pc; !pc.FillLoad? && !pc.FillNext? && !pc.FillCas?
    ensures e.thread < |Step(s, e).threads| && PcKeys(Step(s, e).mem, Step(s, e).threads[e.thread])
  {
    hide TableKeys, TablesFrom, MemOk;
    var me, mem' := s.threads[e.thread], Step(s, e).mem;
    StepEvolves(s, e);
    MemoryStep(s, e);
    if me.pc.InsertAlloc? || me.pc.InsertStore? || me.pc.InsertCas? {
      TableKeysKept(s.mem, mem', me, Step(s, e).threads[e.thread], 0);
    }
    forall l | 0 <= l < NUM_LEVELS
      ensures I.Before(LevelOf(mem', l), HEADER, me.op.key)
    {
      HeaderAt(mem', l);
      LevelAt(mem', HEADER, l);
    }
    if me.pc.Idle? { NoTablesYet(mem', Step(s, e).threads[e.thread]); }
  }

  lemma NoTablesYet(mem: Memory, th: Thread)
    requires |th.preds| == |th.succs| == NUM_LEVELS
    ensures TableKeys(mem, th, NUM_LEVELS)
  {
  }

  lemma LevelsStep(owner: int -> nat, s: State, e: Event)
    requires IndexInv(owner, s) && LevelsOk(s) && Enabled(s, e)
    ensures LevelsOk(Step(s, e))
  {
    hide IndexInv, Changes, HasWalk;
    var s', t := Step(s, e), e.thread;
    Knows(owner, s, t);
    ThreadsOf(s, e);
    hide Step, Enabled, MemOk, PcAt, PcKeys, BottomOk;
    StepEvolves(s, e);
    forall l | 0 <= l < NUM_LEVELS
      ensures HasWalk(LevelOf(s'.mem, l))
    {
      LevelChange(s, e, l);
      OnWalkChange(LevelOf(s.mem, l), LevelOf(s'.mem, l), ChangeOf(s, e, l), HEADER);
    }
    forall u | 0 <= u < |s'.threads|
      ensures PcKeys(s'.mem, s'.threads[u])
    {
      Knows(owner, s, u);
      if u != t { OtherPcKeys(s.mem, s'.mem, s.threads[u]); } else { OwnPcKeys(s, e); }
    }
  }

  lemma OwnPcKeys(s: State, e: Event)
    requires Enabled(s, e) && MemOk(s.mem) && PcAt(s.mem, s.threads[e.thread]) && PcKeys(s.mem, s.threads[e.thread])
    ensures e.thread < |Step(s, e).threads| && PcKeys(Step(s, e).mem, Step(s, e).threads[e.thread])
  {
    hide MemOk, PcAt, PcKeys, Step;
    var pc := s.threads[e.thread].pc;
    if pc.FillNext? {
      NextKeys(s, e);
    } else if pc.FillLoad? || pc.FillCas? {
      FillKeys(s, e);
    } else {
      RestKeys(s, e);
    }
  }

  lemma {:induction false} RunKeepsLevels(owner: int -> nat, states: seq<State>, events: seq<Event>, threads: nat,
                                          i: nat)
    requires IsOwnedRun(owner, states, events, threads) && i < |states|
    ensures LevelsOk(states[i])
  {
    hide IndexInv, LevelsOk, Step, Enabled;
    if i == 0 {
      InitLevels(threads);
    } else {
      RunKeepsLevels(owner, states, events, threads, i - 1);
      RunKeepsInv(owner, states, events, threads, i - 1);
      assert Enabled(states[i - 1], events[i - 1]);
      LevelsStep(owner, states[i - 1], events[i - 1]);
    }
  }

  lemma InitLevels(threads: nat)
    ensures LevelsOk(Init(threads))
  {
    var mem := Init(threads).mem;
    forall l | 0 <= l < NUM_LEVELS
      ensures HasWalk(LevelOf(mem, l))
    { assert M.WellFormed(LevelOf(mem, l), [HEADER]); }
  }

  /** With owned keys, in every reachable state and at every level: the walk from the header ends and is
      sorted by key, and it passes every tower that is linked at that level and not marked there. */
  lemma LevelsComplete(owner: int -> nat, states: seq<State>, events: seq<Event>, threads: nat, i: nat, l: nat)
    requires IsOwnedRun(owner, states, events, threads) && i < |states| && l < 16
    ensures |states[i].mem| > 0 && |states[i].mem[HEADER].forward| == 16
    ensures exists chain :: H.SortedWalk(LevelOf(states[i].mem, l), chain)
  {
    RunKeepsInv(owner, states, events, threads, i);
    assert TowerOk(states[i].mem, HEADER);
    RunKeepsLevels(owner, states, events, threads, i);
    var chain :| M.WellFormed(LevelOf(states[i].mem, l), chain);
    H.WalkIsSorted(LevelOf(states[i].mem, l), chain);
    assert H.SortedWalk(LevelOf(states[i].mem, l), chain);
  }

  /** And a tower that is not marked at one level is on the walks of all the levels below. */
  lemma LevelsNested(owner: int -> nat, states: seq<State>, events: seq<Event>, threads: nat, i: nat, x: Ref, l: nat,
                     m: nat)
    requires IsOwnedRun(owner, states, events, threads) && i < |states| && m <= l < NUM_LEVELS
    requires At(states[i].mem, x, l) && !states[i].mem[x].forward[l].marked
    ensures O.OnWalk(LevelOf(states[i].mem, m), x)
  {
    var mem := states[i].mem;
    RunKeepsInv(owner, states, events, threads, i);
    RunKeepsLevels(owner, states, events, threads, i);
    UnmarkedBelow(mem, x, l, m);
    WalkKnown(LevelOf(mem, m), x);
  }

  /** A tower is marked from the top down. */
  lemma UnmarkedBelow(mem: Memory, x: Ref, l: nat, m: nat)
    requires MemOk(mem) && At(mem, x, l) && !mem[x].forward[l].marked && m <= l < NUM_LEVELS
    ensures At(mem, x, m) && !mem[x].forward[m].marked
    ensures M.IsLinked(LevelOf(mem, m), x) && !LevelOf(mem, m)[x].marked
  {
    assert TowerOk(mem, x);
    LevelAt(mem, x, m);
  }
}
