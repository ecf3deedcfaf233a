/** The search after the marking takes a tower off every level: with owned keys a retired tower
    is met by no walk from the header, whatever the level.
  */
module IndexUnlinking {
  import opened Refs
  import opened TaggedPointers
  import opened IndexMachine
  import opened IndexInvariant
  import opened IndexSteps
  import opened IndexRefinement
  import opened IndexLinearizability
  import opened IndexLevels
  import opened ListChanges
  import M = ListMemory
  import O = ListOwnership
  import I = ListInvariant

  /** Linked at all its levels and marked at all of them. */
  ghost predicate Gone(mem: Memory, x: Ref) {
    && 0 < x < |mem| && 0 < |mem[x].forward| == mem[x].reached
    && forall l :: 0 <= l < |mem[x].forward| ==> mem[x].forward[l].marked
  }

  /** Off the walks of these levels. */
  ghost predicate OffFrom(mem: Memory, x: Ref, lo: nat) {
    forall l :: lo <= l < NUM_LEVELS ==> !O.OnWalk(LevelOf(mem, l), x)
  }

  /** From here a search will pass every tower with the key, at each of the levels it has still to walk. */
  ghost predicate PassesTo(mem: Memory, x: Ref, key: int, top: nat) {
    forall l :: 0 <= l <= top ==> O.WillPass(LevelOf(mem, l), x, key)
  }

  ghost predicate GoalPasses(mem: Memory, goal: Goal, key: int, lo: nat) {
    goal.Unlink? ==> Gone(mem, goal.tower) && mem[goal.tower].key == key && OffFrom(mem, goal.tower, lo)
  }

  ghost predicate PcPasses(mem: Memory, th: Thread) {
    match th.pc
    case FillLoad(goal, lvl, cur) => PassesTo(mem, cur, th.op.key, lvl) && GoalPasses(mem, goal, th.op.key, lvl + 1)
    case FillNext(goal, lvl, cur, next) =>
      && PassesTo(mem, cur, th.op.key, lvl) && GoalPasses(mem, goal, th.op.key, lvl + 1)
      && O.WillPass(LevelOf(mem, lvl), next, th.op.key)
    case FillCas(goal, lvl, cur, _, _) =>
      PassesTo(mem, cur, th.op.key, lvl) && GoalPasses(mem, goal, th.op.key, lvl + 1)
    case RetireTower(x) => Gone(mem, x) && OffFrom(mem, x, 0)
    case _ => true
  }

  ghost predicate RetiredOff(s: State) {
    forall x :: x in s.retired ==> Gone(s.mem, x) && OffFrom(s.mem, x, 0)
  }

  ghost predicate UnlinkInv(owner: int -> nat, s: State) {
    && IndexInv(owner, s) && LevelsOk(s) && RetiredOff(s)
    && forall t :: 0 <= t < |s.threads| ==> PcPasses(s.mem, s.threads[t])
  }

  // What a step keeps for all threads.

  lemma GoneStep(s: State, e: Event, x: Ref)
    requires Enabled(s, e) && PcAt(s.mem, s.threads[e.thread]) && Gone(s.mem, x)
    ensures Gone(Step(s, e).mem, x) && Step(s, e).mem[x].key == s.mem[x].key
    ensures forall l :: ChangeOf(s, e, l).Links? ==> ChangeOf(s, e, l).node != x
  {
    hide TablesFrom, GoalAt;
  }

  lemma OffStep(s: State, e: Event, x: Ref, lo: nat)
    requires Enabled(s, e) && MemOk(s.mem) && PcAt(s.mem, s.threads[e.thread]) && LevelsOk(s)
    requires Gone(s.mem, x) && OffFrom(s.mem, x, lo)
    ensures OffFrom(Step(s, e).mem, x, lo)
  {
    hide Step, MemOk, PcAt, PcKeys, HasWalk, Changes, O.OnWalk, Gone;
    GoneStep(s, e, x);
    forall l | lo <= l < NUM_LEVELS
      ensures !O.OnWalk(LevelOf(Step(s, e).mem, l), x)
    {
      LevelChange(s, e, l);
      OnWalkChange(LevelOf(s.mem, l), LevelOf(Step(s, e).mem, l), ChangeOf(s, e, l), x);
    }
  }

  lemma GoalPassesStep(s: State, e: Event, goal: Goal, key: int, lo: nat)
    requires Enabled(s, e) && MemOk(s.mem) && PcAt(s.mem, s.threads[e.thread]) && LevelsOk(s)
    requires GoalPasses(s.mem, goal, key, lo)
    ensures GoalPasses(Step(s, e).mem, goal, key, lo)
  {
    hide Step, Enabled, MemOk, PcAt, LevelsOk, OffFrom;
    if goal.Unlink? {
      GoneStep(s, e, goal.tower);
      OffStep(s, e, goal.tower, lo);
    }
  }

  /** At one level, unless the step links a tower with the key. */
  lemma PassStep(s: State, e: Event, x: Ref, key: int, l: nat)
    requires Enabled(s, e) && MemOk(s.mem) && PcAt(s.mem, s.threads[e.thread]) && LevelsOk(s) && l < NUM_LEVELS
    requires O.WillPass(LevelOf(s.mem, l), x, key) && (x == NIL || At(s.mem, x, l))
    requires s.threads[e.thread].pc.InsertCas? ==> s.threads[e.thread].op.key != key
    ensures O.WillPass(LevelOf(Step(s, e).mem, l), x, key)
  {
    hide MemOk, PcKeys, HasWalk, Changes, O.WillPass, TablesFrom, GoalAt, Step;
    LevelChange(s, e, l);
    LevelAt(s.mem, x, l);
    if s.threads[e.thread].pc.InsertCas? { LevelAt(s.mem, s.threads[e.thread].pc.node, l); }
    WillPassChange(LevelOf(s.mem, l), LevelOf(Step(s, e).mem, l), ChangeOf(s, e, l), x, key);
  }

  lemma PassesToStep(s: State, e: Event, x: Ref, key: int, top: nat)
    requires Enabled(s, e) && MemOk(s.mem) && PcAt(s.mem, s.threads[e.thread]) && LevelsOk(s) && top < NUM_LEVELS
    requires PassesTo(s.mem, x, key, top) && At(s.mem, x, top)
    requires s.threads[e.thread].pc.InsertCas? ==> s.threads[e.thread].op.key != key
    ensures PassesTo(Step(s, e).mem, x, key, top)
  {
    hide MemOk, PcAt, LevelsOk, O.WillPass, Step, Enabled;
    LeadsOn(s.mem, x, top);
    forall l | 0 <= l <= top
      ensures O.WillPass(LevelOf(Step(s, e).mem, l), x, key)
    { PassStep(s, e, x, key, l); }
  }

  lemma OtherPasses(s: State, e: Event, u: nat)
    requires Enabled(s, e) && MemOk(s.mem) && PcAt(s.mem, s.threads[e.thread]) && LevelsOk(s)
    requires u < |s.threads| && PcAt(s.mem, s.threads[u]) && PcPasses(s.mem, s.threads[u])
    requires !s.threads[u].pc.Idle? && !s.threads[e.thread].pc.Idle? ==>
      s.threads[e.thread].op.key != s.threads[u].op.key
    ensures PcPasses(Step(s, e).mem, s.threads[u])
  {
    hide MemOk, LevelsOk, O.WillPass, Step, Enabled, PassesTo, GoalPasses, OffFrom, Gone, GoalAt, TablesFrom, At;
    var pc, key := s.threads[u].pc, s.threads[u].op.key;
    if pc.FillLoad? || pc.FillNext? || pc.FillCas? {
      PassesToStep(s, e, pc.cur, key, pc.lvl);
      GoalPassesStep(s, e, pc.goal, key, pc.lvl + 1);
      if pc.FillNext? { PassStep(s, e, pc.next, key, pc.lvl); }
    } else if pc.RetireTower? {
      GoneStep(s, e, pc.tower);
      OffStep(s, e, pc.tower, 0);
    }
  }

  // The thread itself.

  lemma HeaderPasses(mem: Memory, key: int, top: nat)
    ensures PassesTo(mem, HEADER, key, top)
  {
  }

  /** If the key has no tower that is not marked at the bottom, it has none at any level. */
  lemma AbsentAbove(mem: Memory, key: int, l: nat)
    requires MemOk(mem) && O.Absent(MemOf(mem), key) && l < NUM_LEVELS
    ensures O.Absent(LevelOf(mem, l), key)
  {
    forall x
      ensures !O.Live(LevelOf(mem, l), x, key)
    {
      LevelAt(mem, x, l);
      if O.Live(LevelOf(mem, l), x, key) {
        UnmarkedBelow(mem, x, l, 0);
        TowerAt(mem, x);
        assert O.Live(MemOf(mem), x, key);
      }
    }
  }

  /** Where the search stops, the tower is off the level; if it has not got the level it never was on it. */
  lemma StopsOff(mem: Memory, next: Ref, key: int, x: Ref, l: nat)
    requires MemOk(mem) && HasWalk(LevelOf(mem, l)) && O.Absent(MemOf(mem), key) && l < NUM_LEVELS
    requires O.WillPass(LevelOf(mem, l), next, key) && Gone(mem, x) && mem[x].key == key
    requires next == NIL || (Target(mem, next, l) && !mem[next].forward[l].marked && mem[next].key >= key)
    ensures !O.OnWalk(LevelOf(mem, l), x)
  {
    hide O.OnWalk, O.WillPass, HasWalk, MemOk, O.Absent;
    AbsentAbove(mem, key, l);
    LevelAt(mem, x, l);
    LevelAt(mem, next, l);
    WalkKnown(LevelOf(mem, l), x);
    if At(mem, x, l) { StopPasses(LevelOf(mem, l), next, key, x); }
  }

  /** A tower to the left that is not marked at this level passes the key here and below. */
  lemma UnmarkedPasses(s: State, x: Ref, key: int, l: nat)
    requires MemOk(s.mem) && LevelsOk(s) && l < NUM_LEVELS
    requires At(s.mem, x, l) && !s.mem[x].forward[l].marked && (x == HEADER || s.mem[x].key < key)
    ensures PassesTo(s.mem, x, key, l)
  {
    hide O.WillPass, HasWalk, PcKeys;
    forall m | 0 <= m <= l
      ensures O.WillPass(LevelOf(s.mem, m), x, key)
    {
      UnmarkedBelow(s.mem, x, l, m);
      LevelAt(s.mem, x, m);
      EnterPasses(LevelOf(s.mem, m), x, key);
    }
  }

  lemma DonePasses(mem: Memory, th: Thread, goal: Goal, lvl: nat, pred: Ref, succ: Ref, hit: bool)
    requires |th.preds| == |th.succs| == NUM_LEVELS && lvl < NUM_LEVELS
    requires PassesTo(mem, pred, th.op.key, lvl) && GoalPasses(mem, goal, th.op.key, lvl)
    ensures PcPasses(mem, LevelDone(th, goal, lvl, pred, succ, hit))
  {
  }

  /** One more level is done. */
  lemma OffOneMore(mem: Memory, goal: Goal, key: int, l: nat)
    requires GoalPasses(mem, goal, key, l + 1) && (goal.Unlink? ==> !O.OnWalk(LevelOf(mem, l), goal.tower))
    ensures GoalPasses(mem, goal, key, l)
  {
  }

  lemma FillNextPasses(s: State, e: Event)
    requires Enabled(s, e) && MemOk(s.mem) && LevelsOk(s) && PcAt(s.mem, s.threads[e.thread])
    requires s.threads[e.thread].pc.FillNext? && PcPasses(s.mem, s.threads[e.thread])
    requires s.threads[e.thread].pc.goal.Unlink? ==> O.Absent(MemOf(s.mem), s.threads[e.thread].op.key)
    ensures e.thread < |Step(s, e).threads| && PcPasses(Step(s, e).mem, Step(s, e).threads[e.thread])
  {
    hide MemOk, O.WillPass, PassesTo, GoalPasses, OffFrom, GoalAt, TablesFrom, PcKeys, HasWalk, O.OnWalk, O.Absent;
    var me, mem := s.threads[e.thread], s.mem;
    var goal, lvl, cur, next, key := me.pc.goal, me.pc.lvl, me.pc.cur, me.pc.next, me.op.key;
    LevelAt(mem, next, lvl);
    if next == NIL || (!mem[next].forward[lvl].marked && mem[next].key >= key) {
      if goal.Unlink? {
        GoalTower(mem, goal, key, lvl + 1);
        StopsOff(mem, next, key, goal.tower, lvl);
      }
      OffOneMore(mem, goal, key, lvl);
      DonePasses(mem, me, goal, lvl, cur, next, next != NIL && mem[next].key == key);
    } else if !mem[next].forward[lvl].marked {
      UnmarkedPasses(s, next, key, lvl);
      O.AdvanceOwned(LevelOf(mem, lvl), next, key);
    }
  }

  lemma GoalTower(mem: Memory, goal: Goal, key: int, lo: nat)
    requires GoalPasses(mem, goal, key, lo) && goal.Unlink?
    ensures Gone(mem, goal.tower) && mem[goal.tower].key == key
  {
  }

  lemma FillPasses(s: State, e: Event)
    requires Enabled(s, e) && MemOk(s.mem) && LevelsOk(s) && PcAt(s.mem, s.threads[e.thread])
    requires PcKeys(s.mem, s.threads[e.thread]) && PcPasses(s.mem, s.threads[e.thread])
    requires s.threads[e.thread].pc.FillLoad? || s.threads[e.thread].pc.FillCas?
    ensures e.thread < |Step(s, e).threads| && PcPasses(Step(s, e).mem, Step(s, e).threads[e.thread])
  {
    hide MemOk, LevelsOk, O.WillPass, PassesTo, GoalPasses, OffFrom, GoalAt, TablesFrom, GoalKeys;
    var me := s.threads[e.thread];
    var goal, lvl, cur, key := me.pc.goal, me.pc.lvl, me.pc.cur, me.op.key;
    LevelAt(s.mem, cur, lvl);
    PassesToStep(s, e, cur, key, lvl);
    GoalPassesStep(s, e, goal, key, lvl + 1);
    GoalPassesLess(Step(s, e).mem, goal, key, lvl + 1);
    HeaderPasses(Step(s, e).mem, key, Top(me, goal));
    if me.pc.FillLoad? {
      PassesAt(s.mem, cur, key, lvl);
      O.AdvanceOwned(LevelOf(s.mem, lvl), cur, key);
    }
  }

  lemma PassesAt(mem: Memory, x: Ref, key: int, l: nat)
    requires PassesTo(mem, x, key, l)
    ensures O.WillPass(LevelOf(mem, l), x, key)
  {
  }

  /** A search for the unlinking that begins again has no level done. */
  lemma GoalPassesLess(mem: Memory, goal: Goal, key: int, lo: nat)
    requires GoalPasses(mem, goal, key, lo)
    ensures GoalPasses(mem, goal, key, NUM_LEVELS)
    ensures !goal.Unlink? ==> forall l: nat :: GoalPasses(mem, goal, key, l)
  {
  }

  lemma RestPasses(s: State, e: Event)
    requires Enabled(s, e) && MemOk(s.mem) && PcAt(s.mem, s.threads[e.thread]) && PcPasses(s.mem, s.threads[e.thread])
    requires var pc := s.threads[e.thread].pc; !pc.FillLoad? && !pc.FillNext? && !pc.FillCas?
    requires s.threads[e.thread].pc.MarkCas? ==> s.mem[s.threads[e.thread].pc.tower].key == s.threads[e.thread].op.key
    ensures e.thread < |Step(s, e).threads| && PcPasses(Step(s, e).mem, Step(s, e).threads[e.thread])
  {
    hide MemOk, TablesFrom, PassesTo, O.OnWalk, O.WillPass;
    HeaderPasses(Step(s, e).mem, Step(s, e).threads[e.thread].op.key, NUM_LEVELS - 1);
    if s.threads[e.thread].pc.Idle? { HeaderPasses(Step(s, e).mem, e.action.op.key, e.action.start); }
  }

  lemma OwnPasses(owner: int -> nat, s: State, e: Event)
    requires UnlinkInv(owner, s) && Enabled(s, e)
    ensures e.thread < |Step(s, e).threads| && PcPasses(Step(s, e).mem, Step(s, e).threads[e.thread])
  {
    hide IndexInv, LevelsOk, RetiredOff, Step, MemOk, PcAt, PcPasses;
    var pc := s.threads[e.thread].pc;
    Knows(owner, s, e.thread);
    KeysKnown(s, e.thread);
    if pc.FillNext? {
      FillNextPasses(s, e);
    } else if pc.FillLoad? || pc.FillCas? {
      FillPasses(s, e);
    } else {
      if pc.MarkCas? { ReliesOnOwn(owner, s, e.thread); }
      RestPasses(s, e);
    }
  }

  lemma KeysKnown(s: State, t: nat)
    requires LevelsOk(s) && t < |s.threads|
    ensures PcKeys(s.mem, s.threads[t])
  {
  }

  lemma RetiredStep(owner: int -> nat, s: State, e: Event)
    requires UnlinkInv(owner, s) && Enabled(s, e)
    ensures RetiredOff(Step(s, e))
  {
    hide IndexInv, LevelsOk, MemOk, PcAt, OffFrom, Gone;
    Knows(owner, s, e.thread);
    RetiredBy(s, e);
    hide Step;
    forall x | x in Step(s, e).retired
      ensures Gone(Step(s, e).mem, x) && OffFrom(Step(s, e).mem, x, 0)
    {
      assert Gone(s.mem, x) && OffFrom(s.mem, x, 0);
      GoneStep(s, e, x);
      OffStep(s, e, x, 0);
    }
  }

  lemma RetiredBy(s: State, e: Event)
    requires Enabled(s, e)
    ensures var pc := s.threads[e.thread].pc;
      Step(s, e).retired == s.retired + if pc.RetireTower? then [pc.tower] else []
  {
  }

  lemma UnlinkStep(owner: int -> nat, s: State, e: Event)
    requires UnlinkInv(owner, s) && Enabled(s, e) && Disciplined(owner, e)
    ensures UnlinkInv(owner, Step(s, e))
  {
    hide IndexInv, LevelsOk, RetiredOff, Step, MemOk, PcAt, PcPasses;
    var s' := Step(s, e);
    StepInv(owner, s, e);
    LevelsStep(owner, s, e);
    RetiredStep(owner, s, e);
    ThreadsOf(s, e);
    Knows(owner, s, e.thread);
    forall u | 0 <= u < |s'.threads|
      ensures PcPasses(s'.mem, s'.threads[u])
    {
      Knows(owner, s, u);
      if u == e.thread { OwnPasses(owner, s, e); } else { OtherPasses(s, e, u); }
    }
  }

  lemma InitUnlink(owner: int -> nat, threads: nat)
    ensures UnlinkInv(owner, Init(threads))
  {
    hide IndexInv, LevelsOk;
    InitInv(owner, threads);
    InitLevels(threads);
  }

  lemma {:induction false} RunKeepsUnlink(owner: int -> nat, states: seq<State>, events: seq<Event>, threads: nat,
                                          i: nat)
    requires IsOwnedRun(owner, states, events, threads) && i < |states|
    ensures UnlinkInv(owner, states[i])
  {
    hide UnlinkInv, Step, Enabled;
    if i == 0 {
      InitUnlink(owner, threads);
    } else {
      RunKeepsUnlink(owner, states, events, threads, i - 1);
      assert Enabled(states[i - 1], events[i - 1]);
      UnlinkStep(owner, states[i - 1], events[i - 1]);
    }
  }

  /** With owned keys, in every state of every run, a retired tower has been marked at all its levels and
      no walk from the header meets it at any level. */
  lemma RetiredOffEveryLevel(owner: int -> nat, states: seq<State>, events: seq<Event>, threads: nat, i: nat,
                             x: Ref, l: nat)
    requires IsOwnedRun(owner, states, events, threads) && i < |states| && x in states[i].retired && l < NUM_LEVELS
    ensures Gone(states[i].mem, x) && !O.OnWalk(LevelOf(states[i].mem, l), x)
  {
    RunKeepsUnlink(owner, states, events, threads, i);
  }
}
