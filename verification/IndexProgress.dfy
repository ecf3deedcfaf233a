/** The skip list with all its levels is obstruction free: a thread that runs alone finishes its
    operation, wherever the others have stopped.
  */
module IndexProgress {
  import opened Refs
  import opened TaggedPointers
  import opened IndexMachine
  import opened IndexInvariant
  import opened IndexSteps
  import opened IndexRefinement
  import opened IndexLinearizability
  import opened IndexLevels
  import opened ListChanges
  import opened ListDistance
  import L = ListMachine
  import M = ListMemory
  import I = ListInvariant

  /** At every level every walk ends. */
  ghost predicate LevelsEnd(mem: Memory) {
    forall l :: 0 <= l < NUM_LEVELS ==> AllEnd(LevelOf(mem, l))
  }

  /** What the tables from this level up say is still so. */
  ghost predicate TablesFresh(mem: Memory, th: Thread, lo: nat) {
    forall l :: lo <= l < NUM_LEVELS ==> EntryFresh(mem, th, l)
  }

  predicate EntryFresh(mem: Memory, th: Thread, l: nat) {
    && l < |th.preds| && l < |th.succs| && Has(mem, th.preds[l], l)
    && mem[th.preds[l]].forward[l] == Link(th.succs[l], false)
  }

  /** What a search has seen of the pointer it is at is still so: its CAS would succeed. */
  ghost predicate PlaceFresh(mem: Memory, pc: Pc) {
    match pc
    case FillLoad(_, lvl, cur) => Has(mem, cur, lvl) && !mem[cur].forward[lvl].marked
    case FillNext(_, lvl, cur, next) => Has(mem, cur, lvl) && mem[cur].forward[lvl] == Link(next, false)
    case FillCas(_, lvl, cur, next, _) => Has(mem, cur, lvl) && mem[cur].forward[lvl] == Link(next, false)
    case _ => true
  }

  ghost predicate FillFresh(mem: Memory, th: Thread, goal: Goal, lvl: nat) {
    PlaceFresh(mem, th.pc) && (goal.Relocate? ==> TablesFresh(mem, th, lvl + 1))
  }

  /** How much is left to do, to be compared from the left. */
  datatype Rank = Rank(stage: nat, levels: nat, again: nat, lvl: nat, distance: nat, phase: nat)

  predicate Less(r: Rank, r': Rank) {
    if r.stage != r'.stage then r.stage < r'.stage
    else if r.levels != r'.levels then r.levels < r'.levels
    else if r.again != r'.again then r.again < r'.again
    else if r.lvl != r'.lvl then r.lvl < r'.lvl
    else if r.distance != r'.distance then r.distance < r'.distance
    else r.phase < r'.phase
  }

  function Above(mem: Memory, node: Ref, l: nat): nat {
    if 0 <= node < |mem| && l < |mem[node].forward| then |mem[node].forward| - l else 0
  }

  function GoalStage(goal: Goal): nat {
    match goal
    case Locate => 6
    case Relocate(_, _) => 4
    case Unlink(_) => 2
  }

  function GoalLevels(mem: Memory, goal: Goal): nat {
    match goal
    case Relocate(node, l) => Above(mem, node, l)
    case _ => 0
  }

  ghost function FillRank(mem: Memory, th: Thread, goal: Goal, lvl: nat, distance: nat, phase: nat): Rank {
    Rank(GoalStage(goal), GoalLevels(mem, goal), if FillFresh(mem, th, goal, lvl) then 1 else 3, lvl, distance, phase)
  }

  ghost function InsertRank(mem: Memory, th: Thread, node: Ref, lvl: nat, phase: nat): Rank {
    Rank(4, Above(mem, node, lvl), if TablesFresh(mem, th, lvl) then 0 else 2, 0, 0, phase)
  }

  /** The CAS that marks this level will succeed, or show that another thread was first. */
  predicate Decided(mem: Memory, x: Ref, lvl: nat, link: Link) {
    Has(mem, x, lvl) && (mem[x].forward[lvl] == link || (lvl == 0 && mem[x].forward[0].marked))
  }

  ghost function RankOf(mem: Memory, th: Thread): Rank {
    match th.pc
    case Idle => Rank(0, 0, 0, 0, 0, 0)
    case Return(_) => Rank(0, 1, 0, 0, 0, 0)
    case SearchRead(_) => Rank(1, 0, 0, 0, 0, 0)
    case UpdateStore(_) => Rank(1, 0, 0, 0, 0, 0)
    case RetireTower(_) => Rank(1, 0, 0, 0, 0, 0)
    case FillLoad(goal, lvl, cur) => FillRank(mem, th, goal, lvl, Distance(LevelOf(mem, lvl), cur), 2)
    case FillNext(goal, lvl, _, next) => FillRank(mem, th, goal, lvl, Distance(LevelOf(mem, lvl), next) + 1, 1)
    case FillCas(goal, lvl, _, next, _) => FillRank(mem, th, goal, lvl, Distance(LevelOf(mem, lvl), next) + 1, 0)
    case MarkLevel(_) => Rank(3, NUM_LEVELS, 0, 0, 0, 0)
    case MarkLoad(_, lvl) => Rank(3, lvl, 1, 0, 0, 0)
    case MarkCas(x, lvl, link) =>
      Rank(3, lvl, if Decided(mem, x, lvl, link) then 0 else 2, 0, 0, 0)
    case InsertStore(node, lvl) => InsertRank(mem, th, node, lvl, 1)
    case InsertCas(node, lvl) => InsertRank(mem, th, node, lvl, 0)
    case InsertAlloc => Rank(5, 0, 0, 0, 0, 0)
  }

  /** What is known of a step of a thread. */
  ghost predicate Ready(s: State, e: Event) {
    && Enabled(s, e) && MemOk(s.mem) && PcAt(s.mem, s.threads[e.thread]) && PcKeys(s.mem, s.threads[e.thread])
    && LevelsEnd(s.mem) && forall l :: 0 <= l < NUM_LEVELS ==> HasWalk(LevelOf(s.mem, l))
  }

  lemma DistanceAt(mem: Memory, x: Ref, l: nat)
    requires MemOk(mem) && LevelsEnd(mem) && At(mem, x, l) && l < NUM_LEVELS
    ensures Distance(LevelOf(mem, l), x) == Distance(LevelOf(mem, l), mem[x].forward[l].to) + 1
  {
    LevelAt(mem, x, l);
    DistanceNext(LevelOf(mem, l), x);
  }

  lemma LoadAdvances(s: State, e: Event)
    requires Ready(s, e) && s.threads[e.thread].pc.FillLoad?
    ensures e.thread < |Step(s, e).threads|
    ensures Less(RankOf(Step(s, e).mem, Step(s, e).threads[e.thread]), RankOf(s.mem, s.threads[e.thread]))
  {
    hide MemOk, LevelsEnd, GoalAt, GoalKeys, AllEnd, Distance, TablesFrom;
    var me, mem := s.threads[e.thread], s.mem;
    var goal, lvl, cur := me.pc.goal, me.pc.lvl, me.pc.cur;
    DistanceAt(mem, cur, lvl);
    SameTables(mem, me, Step(s, e).threads[e.thread], lvl + 1);
  }

  lemma SameTables(mem: Memory, th: Thread, th': Thread, lo: nat)
    requires th'.preds == th.preds && th'.succs == th.succs
    ensures TablesFresh(mem, th', lo) == TablesFresh(mem, th, lo)
  {
    forall l: nat
      ensures EntryFresh(mem, th', l) == EntryFresh(mem, th, l)
    {
    }
  }

  /** The walk of a level has stopped. */
  lemma DoneAdvances(mem: Memory, th: Thread, goal: Goal, lvl: nat, pred: Ref, succ: Ref, hit: bool)
    requires MemOk(mem) && PcAt(mem, th) && th.pc.FillNext? && th.pc.goal == goal && th.pc.lvl == lvl
    requires pred == th.pc.cur && (succ == NIL || succ == th.pc.next) && (succ == NIL ==> th.pc.next == NIL)
    ensures Less(RankOf(mem, LevelDone(th, goal, lvl, pred, succ, hit)), RankOf(mem, th))
  {
    hide Distance, LevelOf, GoalAt, TablesFrom, MemOk;
    var th' := LevelDone(th, goal, lvl, pred, succ, hit);
    if FillFresh(mem, th, goal, lvl) {
      if lvl > 0 { UnmarkedBelow(mem, pred, lvl, lvl - 1); }
      if goal.Relocate? { DoneFresh(mem, th, th', lvl, pred, succ); }
    }
  }

  lemma DoneFresh(mem: Memory, th: Thread, th': Thread, lvl: nat, pred: Ref, succ: Ref)
    requires |th.preds| == |th.succs| == NUM_LEVELS && lvl < NUM_LEVELS && TablesFresh(mem, th, lvl + 1)
    requires th'.preds == th.preds[lvl := pred] && th'.succs == th.succs[lvl := succ]
    requires Has(mem, pred, lvl) && mem[pred].forward[lvl] == Link(succ, false)
    ensures TablesFresh(mem, th', lvl)
  {
    forall l | lvl <= l < NUM_LEVELS
      ensures EntryFresh(mem, th', l)
    { assert l > lvl ==> EntryFresh(mem, th, l); }
  }

  lemma NextAdvances(s: State, e: Event)
    requires Ready(s, e) && s.threads[e.thread].pc.FillNext?
    ensures e.thread < |Step(s, e).threads|
    ensures Less(RankOf(Step(s, e).mem, Step(s, e).threads[e.thread]), RankOf(s.mem, s.threads[e.thread]))
  {
    hide MemOk, LevelsEnd, GoalAt, GoalKeys, AllEnd, Distance, TablesFrom, TablesFresh, LevelOf, HasWalk, I.Before;
    var me, mem := s.threads[e.thread], s.mem;
    var goal, lvl, cur, next := me.pc.goal, me.pc.lvl, me.pc.cur, me.pc.next;
    if next == NIL {
      DoneAdvances(mem, me, goal, lvl, cur, NIL, false);
    } else if !mem[next].forward[lvl].marked && mem[next].key >= me.op.key {
      DoneAdvances(mem, me, goal, lvl, cur, next, mem[next].key == me.op.key);
    } else {
      DistanceAt(mem, next, lvl);
      SameTables(mem, me, Step(s, e).threads[e.thread], lvl + 1);
    }
  }

  /** A pointer at another level. */
  lemma OtherPointer(mem: Memory, x: Ref, lvl: nat, link: Link, th: Thread, th': Thread, lo: nat)
    requires Has(mem, x, lvl) && TablesFresh(mem, th, lo) && th'.preds == th.preds && th'.succs == th.succs
    requires lvl < lo || forall l :: lo <= l < NUM_LEVELS && l < |th.preds| ==> th.preds[l] != x
    ensures TablesFresh(SetForward(mem, x, lvl, link), th', lo)
  {
    forall l | lo <= l < NUM_LEVELS
      ensures EntryFresh(SetForward(mem, x, lvl, link), th', l)
    { assert EntryFresh(mem, th, l); }
  }

  lemma CasAdvances(s: State, e: Event)
    requires Ready(s, e) && s.threads[e.thread].pc.FillCas?
    ensures e.thread < |Step(s, e).threads|
    ensures Less(RankOf(Step(s, e).mem, Step(s, e).threads[e.thread]), RankOf(s.mem, s.threads[e.thread]))
  {
    hide MemOk, LevelsEnd, HasWalk, GoalKeys, AllEnd, Distance, TablesFrom, TablesFresh, LevelOf;
    var me, mem := s.threads[e.thread], s.mem;
    var goal, lvl, cur, next := me.pc.goal, me.pc.lvl, me.pc.cur, me.pc.next;
    if CasHolds(mem, me) {
      CasShortens(s, e);
      if TablesFresh(mem, me, lvl + 1) {
        OtherPointer(mem, cur, lvl, Link(me.pc.after, false), me, Step(s, e).threads[e.thread], lvl + 1);
      }
    } else {
      HeaderFresh(mem, Top(me, goal), Step(s, e).threads[e.thread]);
    }
  }

  lemma CasShortens(s: State, e: Event)
    requires Ready(s, e) && s.threads[e.thread].pc.FillCas? && CasHolds(s.mem, s.threads[e.thread])
    ensures var pc := s.threads[e.thread].pc;
      Distance(LevelOf(Step(s, e).mem, pc.lvl), pc.cur) < Distance(LevelOf(s.mem, pc.lvl), pc.next) + 1
  {
    hide MemOk, GoalAt, GoalKeys, AllEnd, TablesFrom, HasWalk, Distance;
    var me, mem := s.threads[e.thread], s.mem;
    var lvl, cur, next := me.pc.lvl, me.pc.cur, me.pc.next;
    LevelChange(s, e, lvl);
    WalkKnown(LevelOf(mem, lvl), cur);
    EndsAtUnlink(LevelOf(mem, lvl), cur, next);
  }

  lemma HeaderFresh(mem: Memory, top: nat, th: Thread)
    requires MemOk(mem)
    ensures top < NUM_LEVELS ==> Has(mem, HEADER, top) && !mem[HEADER].forward[top].marked
    ensures TablesFresh(mem, th, NUM_LEVELS)
  {
    assert TowerOk(mem, HEADER);
  }

  /** A tower that has not been linked at a level is in no table for it. */
  lemma NotInTables(mem: Memory, th: Thread, node: Ref, lo: nat)
    requires TablesFrom(mem, th, 0) && |th.preds| == NUM_LEVELS
    requires 0 < node < |mem| && mem[node].reached <= lo
    ensures forall l :: lo <= l < NUM_LEVELS && l < |th.preds| ==> th.preds[l] != node
  {
    forall l | lo <= l < NUM_LEVELS
      ensures th.preds[l] != node
    { assert TableAt(mem, th, l); }
  }

  lemma StoreAdvances(s: State, e: Event)
    requires Ready(s, e) && s.threads[e.thread].pc.InsertStore?
    ensures e.thread < |Step(s, e).threads|
    ensures Less(RankOf(Step(s, e).mem, Step(s, e).threads[e.thread]), RankOf(s.mem, s.threads[e.thread]))
  {
    hide MemOk, LevelsEnd, TableKeys, HasWalk, LevelOf, TablesFrom, TablesFresh;
    var me, mem := s.threads[e.thread], s.mem;
    var node, lvl := me.pc.node, me.pc.lvl;
    NotInTables(mem, me, node, lvl);
    if lvl < |mem[node].forward| && TablesFresh(mem, me, lvl) {
      OtherPointer(mem, node, lvl, Link(me.succs[lvl], false), me, Step(s, e).threads[e.thread], lvl);
    }
  }

  lemma LinkAdvances(s: State, e: Event)
    requires Ready(s, e) && s.threads[e.thread].pc.InsertCas?
    ensures e.thread < |Step(s, e).threads|
    ensures Less(RankOf(Step(s, e).mem, Step(s, e).threads[e.thread]), RankOf(s.mem, s.threads[e.thread]))
  {
    hide MemOk, LevelsEnd, TableKeys, HasWalk, LevelOf, Distance, TablesFrom;
    var me := s.threads[e.thread];
    HeaderFresh(s.mem, NUM_LEVELS - 1, Step(s, e).threads[e.thread]);
    assert TablesFresh(s.mem, me, me.pc.lvl) ==> EntryFresh(s.mem, me, me.pc.lvl);
  }

  lemma MarkAdvances(s: State, e: Event)
    requires Ready(s, e)
    requires var pc := s.threads[e.thread].pc; pc.MarkLevel? || pc.MarkLoad? || pc.MarkCas?
    ensures e.thread < |Step(s, e).threads|
    ensures Less(RankOf(Step(s, e).mem, Step(s, e).threads[e.thread]), RankOf(s.mem, s.threads[e.thread]))
  {
    hide LevelsEnd, HasWalk, LevelOf, Distance, TablesFresh;
    if s.threads[e.thread].pc.MarkLevel? { assert TowerOk(s.mem, s.threads[e.thread].pc.tower); }
  }

  lemma RestAdvances(s: State, e: Event)
    requires Ready(s, e)
    requires var pc := s.threads[e.thread].pc;
      pc.InsertAlloc? || pc.UpdateStore? || pc.RetireTower? || pc.SearchRead? || pc.Return?
    ensures e.thread < |Step(s, e).threads|
    ensures Less(RankOf(Step(s, e).mem, Step(s, e).threads[e.thread]), RankOf(s.mem, s.threads[e.thread]))
  {
    hide MemOk, LevelsEnd, HasWalk, LevelOf, Distance, TablesFresh, TablesFrom;
  }

  lemma Advances(s: State, e: Event)
    requires Ready(s, e) && !s.threads[e.thread].pc.Idle?
    ensures e.thread < |Step(s, e).threads|
    ensures Less(RankOf(Step(s, e).mem, Step(s, e).threads[e.thread]), RankOf(s.mem, s.threads[e.thread]))
  {
    hide RankOf, Less, Step, MemOk, PcAt, PcKeys, LevelsEnd, HasWalk;
    var pc := s.threads[e.thread].pc;
    if pc.FillLoad? {
      LoadAdvances(s, e);
    } else if pc.FillNext? {
      NextAdvances(s, e);
    } else if pc.FillCas? {
      CasAdvances(s, e);
    } else if pc.InsertStore? {
      StoreAdvances(s, e);
    } else if pc.InsertCas? {
      LinkAdvances(s, e);
    } else if pc.MarkLevel? || pc.MarkLoad? || pc.MarkCas? {
      MarkAdvances(s, e);
    } else {
      RestAdvances(s, e);
    }
  }

  // Over whole runs.

  lemma EndStep(owner: int -> nat, s: State, e: Event)
    requires IndexInv(owner, s) && LevelsOk(s) && LevelsEnd(s.mem) && Enabled(s, e)
    ensures LevelsEnd(Step(s, e).mem)
  {
    hide IndexInv, Step, MemOk, PcAt, PcKeys, BottomOk, HasWalk, Changes, AllEnd;
    Knows(owner, s, e.thread);
    forall l | 0 <= l < NUM_LEVELS
      ensures AllEnd(LevelOf(Step(s, e).mem, l))
    {
      LevelChange(s, e, l);
      WalkKnown(LevelOf(s.mem, l), HEADER);
      AllEndChange(LevelOf(s.mem, l), LevelOf(Step(s, e).mem, l), ChangeOf(s, e, l));
    }
  }

  lemma InitEnds(threads: nat)
    ensures LevelsEnd(Init(threads).mem)
  {
    var mem := Init(threads).mem;
    forall l, x | 0 <= l < NUM_LEVELS && M.IsLinked(LevelOf(mem, l), x)
      ensures Ends(LevelOf(mem, l), x)
    {
      assert EndsAfter(LevelOf(mem, l), NIL, 0);
      assert EndsAfter(LevelOf(mem, l), HEADER, 1);
    }
  }

  lemma {:induction false} RunKeepsEnds(owner: int -> nat, states: seq<State>, events: seq<Event>, threads: nat, i: nat)
    requires IsOwnedRun(owner, states, events, threads) && i < |states|
    ensures LevelsEnd(states[i].mem)
  {
    hide IndexInv, LevelsOk, LevelsEnd, Step, Enabled;
    if i == 0 {
      InitEnds(threads);
    } else {
      RunKeepsEnds(owner, states, events, threads, i - 1);
      RunKeepsInv(owner, states, events, threads, i - 1);
      RunKeepsLevels(owner, states, events, threads, i - 1);
      assert Enabled(states[i - 1], events[i - 1]);
      EndStep(owner, states[i - 1], events[i - 1]);
    }
  }

  /** The next step of a thread that is at work; a new tower gets this height. */
  function NextAction(pc: Pc, height: nat): Action {
    if pc.InsertAlloc? && 0 < height <= NUM_LEVELS then Malloc(seq(height - 1, _ => Link(NIL, false))) else
    if pc.InsertAlloc? then Malloc([]) else Tau
  }

  lemma CanWork(owner: int -> nat, s: State, t: nat, height: nat)
    requires IndexInv(owner, s) && LevelsOk(s) && LevelsEnd(s.mem) && t < |s.threads| && !s.threads[t].pc.Idle?
    ensures Ready(s, Event(t, NextAction(s.threads[t].pc, height)))
  {
    hide IndexInv, LevelsEnd;
    Knows(owner, s, t);
    AlwaysInBounds(owner, s, t);
  }

  ghost function StepsLeft(states: seq<State>, t: nat): Rank
    requires |states| > 0
  {
    var s := states[|states| - 1];
    if t < |s.threads| then RankOf(s.mem, s.threads[t]) else Rank(0, 0, 0, 0, 0, 0)
  }

  /** With owned keys, from every reachable state thread t can finish its operation by itself, however high
      the towers it makes are: the others may have stopped anywhere, and none of them is waited for. */
  lemma {:induction false} FinishesAlone(owner: int -> nat, states: seq<State>, events: seq<Event>, threads: nat,
                                         t: nat, height: nat)
    returns (states': seq<State>, events': seq<Event>)
    requires IsOwnedRun(owner, states, events, threads) && t < threads
    ensures IsOwnedRun(owner, states', events', threads) && states <= states' && events <= events'
    ensures forall k :: |events| <= k < |events'| ==> events'[k].thread == t
    ensures t < |states'[|events'|].threads| && states'[|events'|].threads[t].pc.Idle?
    decreases StepsLeft(states, t).stage, StepsLeft(states, t).levels, StepsLeft(states, t).again,
      StepsLeft(states, t).lvl, StepsLeft(states, t).distance, StepsLeft(states, t).phase
  {
    hide IndexInv, LevelsOk, LevelsEnd, Step, Enabled, RankOf, Ready;
    var s := states[|events|];
    RunKeepsInv(owner, states, events, threads, |events|);
    RunKeepsLevels(owner, states, events, threads, |events|);
    RunKeepsEnds(owner, states, events, threads, |events|);
    if s.threads[t].pc.Idle? {
      states', events' := states, events;
    } else {
      var e := Event(t, NextAction(s.threads[t].pc, height));
      CanWork(owner, s, t, height);
      Advances(s, e);
      Extend(owner, states, events, threads, e);
      states', events' := FinishesAlone(owner, states + [Step(s, e)], events + [e], threads, t, height);
    }
  }

  lemma Extend(owner: int -> nat, states: seq<State>, events: seq<Event>, threads: nat, e: Event)
    requires IsOwnedRun(owner, states, events, threads) && Ready(states[|events|], e) && !e.action.Call?
    ensures IsOwnedRun(owner, states + [Step(states[|events|], e)], events + [e], threads)
    ensures Enabled(states[|events|], e)
  {
    hide Step;
  }
}
