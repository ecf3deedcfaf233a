/** The whole skip list and the epoch protocol as one machine: operations run inside epochs,
    removed towers are retired to the reclaim lists, and reclaimers free them. With owned keys
    no operation touches a tower that has been freed, at any level.
  */
module ReclaimedSkipList {
  import opened Refs
  import opened TaggedPointers
  import opened Epochs
  import opened IndexInvariant
  import opened IndexSteps
  import opened IndexRefinement
  import opened IndexLinearizability
  import opened IndexLevels
  import opened IndexUnlinking
  import opened ListChanges
  import opened ListRetirement
  import opened AtomicMap
  import opened Sums
  import L = IndexMachine
  import M = ListMemory
  import B = ListMachine
  import I = ListInvariant
  import O = ListOwnership
  import R = ListLinearizability
  import X = IndexLinearizability
  import E = EpochMachine
  import P = EpochReclamation

  datatype State = State(list: L.State, epoch: E.State)

  /** What the environment chooses for the skip list and for the epochs. */
  datatype Event = Event(thread: nat, listAction: L.Action, epochAction: E.Action)

  function Init(threads: nat): State {
    State(L.Init(threads), E.Init(threads))
  }

  function ListEvent(e: Event): L.Event {
    L.Event(e.thread, e.listAction)
  }

  function EpochEvent(e: Event): E.Event {
    E.Event(e.thread, e.epochAction)
  }

  /** The thread makes a step of its list operation: inside an epoch, or as it enters one. */
  predicate ListMoves(s: State, t: nat)
    requires t < |s.list.threads| == |s.epoch.threads|
  {
    s.epoch.threads[t].pc.Inside? || s.epoch.threads[t].pc.Enter?
  }

  /** It makes a step of the epoch protocol: outside of operations, and with the call, the return and the
      retirement. */
  predicate EpochMoves(s: State, t: nat)
    requires t < |s.list.threads| == |s.epoch.threads|
  {
    !s.epoch.threads[t].pc.Inside? || s.list.threads[t].pc.Return? || s.list.threads[t].pc.RetireTower?
  }

  predicate Enabled(s: State, e: Event) {
    var t := e.thread;
    && t < |s.list.threads| == |s.epoch.threads|
    && (ListMoves(s, t) ==> L.Enabled(s.list, ListEvent(e)))
    && (EpochMoves(s, t) ==> E.Enabled(s.epoch, EpochEvent(e)))
    && (s.epoch.threads[t].pc.Inside? ==>
          var pc := s.list.threads[t].pc;
          && (pc.Return? ==> e.epochAction.Finish?)
          && (pc.RetireTower? ==> e.epochAction.Retire? && e.epochAction.tower == pc.tower))
  }

  function Step(s: State, e: Event): State
    requires Enabled(s, e)
  {
    State(if ListMoves(s, e.thread) then L.Step(s.list, ListEvent(e)) else s.list,
          if EpochMoves(s, e.thread) then E.Step(s.epoch, EpochEvent(e)) else s.epoch)
  }

  /** Each key is used by one thread. */
  predicate Owned(owner: int -> nat, s: State, e: Event)
    requires Enabled(s, e)
  {
    ListMoves(s, e.thread) ==> Disciplined(owner, ListEvent(e))
  }

  ghost predicate IsRun(owner: int -> nat, states: seq<State>, events: seq<Event>, threads: nat) {
    && |states| == |events| + 1
    && states[0] == Init(threads)
    && forall i :: 0 <= i < |events| ==>
         && Enabled(states[i], events[i]) && Owned(owner, states[i], events[i])
         && states[i + 1] == Step(states[i], events[i])
  }

  // What an operation may look at or pass on, by the levels at which it may do so.

  function Only(c: bool, x: Ref): set<Ref> {
    if c then {x} else {}
  }

  function Tables(th: L.Thread, l: nat): set<Ref> {
    if l < |th.preds| && l < |th.succs| then {th.preds[l], th.succs[l]} else {}
  }

  function GoalHolds(th: L.Thread, goal: L.Goal, lvl: nat, l: nat): set<Ref> {
    match goal
    case Locate => if th.op.Insert? && l > lvl then Tables(th, l) else {}
    case Relocate(node, _) => Only(l == 0, node) + Tables(th, l)
    case Unlink(x) => Only(l == 0, x)
  }

  function HoldsAt(th: L.Thread, l: nat): set<Ref> {
    match th.pc
    case FillLoad(goal, lvl, cur) => Only(l <= lvl, cur) + GoalHolds(th, goal, lvl, l)
    case FillNext(goal, lvl, cur, next) => Only(l <= lvl, cur) + Only(l == lvl, next) + GoalHolds(th, goal, lvl, l)
    case FillCas(goal, lvl, cur, next, after) =>
      Only(l <= lvl, cur) + Only(l == lvl, next) + Only(l == lvl, after) + GoalHolds(th, goal, lvl, l)
    case UpdateStore(x) => Only(l == 0, x)
    case InsertAlloc => Tables(th, l)
    case InsertStore(node, _) => Only(l == 0, node) + Tables(th, l)
    case InsertCas(node, _) => Only(l == 0, node) + Tables(th, l)
    case MarkLevel(x) => Only(l == 0, x)
    case MarkLoad(x, _) => Only(l == 0, x)
    case MarkCas(x, _, _) => Only(l == 0, x)
    case RetireTower(x) => Only(l == 0, x)
    case SearchRead(x) => Only(l == 0, x)
    case _ => {}
  }

  lemma GoalHas(mem: L.Memory, th: L.Thread, goal: L.Goal, lvl: nat, l: nat, x: Ref)
    requires MemOk(mem) && |th.preds| == |th.succs| == NUM_LEVELS && GoalAt(mem, th, goal, lvl)
    requires goal.Unlink? ==> L.Has(mem, goal.tower, 0)
    requires x in GoalHolds(th, goal, lvl, l) && x != NIL
    ensures L.Has(mem, x, l)
  {
    if goal.Relocate? { assert TowerOk(mem, goal.node); }
    if goal.Relocate? || (goal.Locate? && th.op.Insert? && l > lvl) {
      if l < NUM_LEVELS { assert TableAt(mem, th, l); }
    }
  }

  /** A tower that is held at a level has that level. */
  lemma HeldHas(mem: L.Memory, th: L.Thread, l: nat, x: Ref)
    requires MemOk(mem) && PcAt(mem, th) && PcPasses(mem, th) && x in HoldsAt(th, l) && x != NIL
    ensures L.Has(mem, x, l)
  {
    hide PassesTo, TablesFrom, GoalHolds, GoalAt, O.WillPass, OffFrom;
    if th.pc.FillLoad? || th.pc.FillNext? || th.pc.FillCas? {
      LeadsOn(mem, th.pc.cur, th.pc.lvl);
      if x in GoalHolds(th, th.pc.goal, th.pc.lvl, l) { GoalHas(mem, th, th.pc.goal, th.pc.lvl, l, x); }
    } else if th.pc.InsertAlloc? || th.pc.InsertStore? || th.pc.InsertCas? {
      if l < NUM_LEVELS { TableKnown(mem, th, l); }
      if !th.pc.InsertAlloc? { assert TowerOk(mem, th.pc.node); }
    }
  }

  // What an operation finds off the walks as it begins.

  type Levels = seq<set<Ref>>

  ghost function OffWalks(mem: L.Memory): Levels {
    seq(NUM_LEVELS, l requires 0 <= l < NUM_LEVELS => OffWalk(LevelOf(mem, l)))
  }

  ghost predicate StaleOk(mem: L.Memory, stale: Levels) {
    && |stale| == NUM_LEVELS
    && forall l :: 0 <= l < NUM_LEVELS ==> IsStale(LevelOf(mem, l), stale[l]) && HEADER !in stale[l]
  }

  ghost predicate HoldsNone(th: L.Thread, stale: Levels) {
    |stale| == NUM_LEVELS && forall l :: 0 <= l < NUM_LEVELS ==> HoldsAt(th, l) !! stale[l]
  }

  lemma BeginsStale(s: L.State)
    requires LevelsOk(s)
    ensures StaleOk(s.mem, OffWalks(s.mem))
  {
    forall l | 0 <= l < NUM_LEVELS
      ensures IsStale(LevelOf(s.mem, l), OffWalks(s.mem)[l]) && HEADER !in OffWalks(s.mem)[l]
    { OffWalkIsStale(LevelOf(s.mem, l)); }
  }

  lemma StaysStale(s: L.State, e: L.Event, stale: Levels)
    requires L.Enabled(s, e) && MemOk(s.mem) && PcAt(s.mem, s.threads[e.thread]) && LevelsOk(s) && StaleOk(s.mem, stale)
    ensures StaleOk(L.Step(s, e).mem, stale)
  {
    hide L.Step, IsStale, MemOk, PcAt, PcKeys, HasWalk;
    forall l | 0 <= l < NUM_LEVELS
      ensures IsStale(LevelOf(L.Step(s, e).mem, l), stale[l])
    {
      LevelChange(s, e, l);
      StaleChange(LevelOf(s.mem, l), LevelOf(L.Step(s, e).mem, l), ChangeOf(s, e, l), stale[l]);
    }
  }

  /** What is not stale does not lead to what is; what is not marked is stale at no level from there down. */
  lemma FreshAt(s: L.State, stale: Levels, x: Ref, l: nat)
    requires MemOk(s.mem) && LevelsOk(s) && StaleOk(s.mem, stale) && l < NUM_LEVELS && At(s.mem, x, l)
    ensures x !in stale[l] ==> s.mem[x].forward[l].to !in stale[l]
    ensures !s.mem[x].forward[l].marked ==> forall m :: 0 <= m <= l ==> x !in stale[m]
  {
    hide O.OnWalk, HasWalk, PcKeys;
    LevelAt(s.mem, x, l);
    if !s.mem[x].forward[l].marked {
      forall m | 0 <= m <= l
        ensures x !in stale[m]
      {
        UnmarkedBelow(s.mem, x, l, m);
        WalkKnown(LevelOf(s.mem, m), x);
      }
    }
  }

  lemma NilFresh(mem: L.Memory, stale: Levels, x: Ref)
    requires StaleOk(mem, stale) && !(0 <= x < |mem|)
    ensures forall l :: 0 <= l < NUM_LEVELS ==> x !in stale[l]
  {
    forall l | 0 <= l < NUM_LEVELS
      ensures x !in stale[l]
    { LevelAt(mem, x, l); }
  }

  lemma DoneHolds(th: L.Thread, goal: L.Goal, lvl: nat, pred: Ref, succ: Ref, hit: bool, stale: Levels)
    requires |th.preds| == |th.succs| == NUM_LEVELS == |stale| && lvl < NUM_LEVELS && NIL !in stale[0]
    requires forall l :: 0 <= l <= lvl ==> pred !in stale[l]
    requires succ !in stale[lvl]
    requires forall l :: 0 <= l < NUM_LEVELS ==> GoalHolds(th, goal, lvl, l) !! stale[l]
    requires goal.Relocate? ==> goal.level <= lvl
    ensures HoldsNone(L.LevelDone(th, goal, lvl, pred, succ, hit), stale)
  {
  }

  lemma NextHolds(s: L.State, e: L.Event, stale: Levels)
    requires L.Enabled(s, e) && MemOk(s.mem) && PcAt(s.mem, s.threads[e.thread]) && LevelsOk(s) && StaleOk(s.mem, stale)
    requires s.threads[e.thread].pc.FillNext? && HoldsNone(s.threads[e.thread], stale)
    ensures e.thread < |L.Step(s, e).threads| && HoldsNone(L.Step(s, e).threads[e.thread], stale)
  {
    hide MemOk, LevelsOk, StaleOk, TablesFrom, IsStale;
    var me, mem := s.threads[e.thread], s.mem;
    var goal, lvl, cur, next := me.pc.goal, me.pc.lvl, me.pc.cur, me.pc.next;
    NilFresh(mem, stale, NIL);
    assert HoldsAt(me, lvl) !! stale[lvl] && next in HoldsAt(me, lvl);
    if next != NIL { FreshAt(s, stale, next, lvl); }
    if next == NIL || (!mem[next].forward[lvl].marked && mem[next].key >= me.op.key) {
      FillHolds(me, stale);
      DoneHolds(me, goal, lvl, cur, next, next != NIL && mem[next].key == me.op.key, stale);
    }
  }

  lemma FillHolds(th: L.Thread, stale: Levels)
    requires HoldsNone(th, stale) && (th.pc.FillLoad? || th.pc.FillNext? || th.pc.FillCas?)
    ensures forall l :: 0 <= l < NUM_LEVELS && l <= th.pc.lvl ==> th.pc.cur !in stale[l]
    ensures forall l :: 0 <= l < NUM_LEVELS ==> GoalHolds(th, th.pc.goal, th.pc.lvl, l) !! stale[l]
  {
    forall l | 0 <= l < NUM_LEVELS
      ensures l <= th.pc.lvl ==> th.pc.cur !in stale[l]
      ensures GoalHolds(th, th.pc.goal, th.pc.lvl, l) !! stale[l]
    { assert HoldsAt(th, l) !! stale[l]; }
  }

  lemma RestHolds(s: L.State, e: L.Event, stale: Levels)
    requires L.Enabled(s, e) && MemOk(s.mem) && PcAt(s.mem, s.threads[e.thread]) && LevelsOk(s) && StaleOk(s.mem, stale)
    requires var pc := s.threads[e.thread].pc; !pc.FillLoad? && !pc.FillNext? && !pc.FillCas? && !Inserts(pc)
    requires HoldsNone(s.threads[e.thread], stale)
    ensures e.thread < |L.Step(s, e).threads| && HoldsNone(L.Step(s, e).threads[e.thread], stale)
  {
    hide MemOk, LevelsOk, TablesFrom, IsStale, GoalAt;
    var me := s.threads[e.thread];
    forall l | 0 <= l < NUM_LEVELS
      ensures HoldsAt(L.Step(s, e).threads[e.thread], l) !! stale[l]
    { assert HoldsAt(me, l) !! stale[l]; }
  }

  predicate Inserts(pc: L.Pc) {
    pc.InsertAlloc? || pc.InsertStore? || pc.InsertCas?
  }

  lemma InsertHolds(s: L.State, e: L.Event, stale: Levels)
    requires L.Enabled(s, e) && MemOk(s.mem) && PcAt(s.mem, s.threads[e.thread]) && LevelsOk(s) && StaleOk(s.mem, stale)
    requires Inserts(s.threads[e.thread].pc) && HoldsNone(s.threads[e.thread], stale)
    ensures e.thread < |L.Step(s, e).threads| && HoldsNone(L.Step(s, e).threads[e.thread], stale)
  {
    hide MemOk, LevelsOk, TablesFrom, IsStale, GoalAt;
    var me := s.threads[e.thread];
    NilFresh(s.mem, stale, |s.mem|);
    forall l | 0 <= l < NUM_LEVELS
      ensures HoldsAt(L.Step(s, e).threads[e.thread], l) !! stale[l]
    { assert HoldsAt(me, l) !! stale[l]; }
  }

  lemma FillingHolds(s: L.State, e: L.Event, stale: Levels)
    requires L.Enabled(s, e) && MemOk(s.mem) && PcAt(s.mem, s.threads[e.thread]) && LevelsOk(s) && StaleOk(s.mem, stale)
    requires s.threads[e.thread].pc.FillLoad? || s.threads[e.thread].pc.FillCas?
    requires HoldsNone(s.threads[e.thread], stale)
    ensures e.thread < |L.Step(s, e).threads| && HoldsNone(L.Step(s, e).threads[e.thread], stale)
  {
    hide MemOk, LevelsOk, TablesFrom, IsStale;
    var me := s.threads[e.thread];
    if me.pc.FillLoad? { FreshAt(s, stale, me.pc.cur, me.pc.lvl); }
    forall l | 0 <= l < NUM_LEVELS
      ensures HoldsAt(L.Step(s, e).threads[e.thread], l) !! stale[l]
    { assert HoldsAt(me, l) !! stale[l]; }
  }

  /** An operation never gets hold of a stale tower. */
  lemma HoldsStep(s: L.State, e: L.Event, stale: Levels)
    requires L.Enabled(s, e) && MemOk(s.mem) && PcAt(s.mem, s.threads[e.thread]) && LevelsOk(s) && StaleOk(s.mem, stale)
    requires HoldsNone(s.threads[e.thread], stale)
    ensures e.thread < |L.Step(s, e).threads| && HoldsNone(L.Step(s, e).threads[e.thread], stale)
  {
    hide L.Step, MemOk, PcAt, LevelsOk, StaleOk, HoldsNone;
    var pc := s.threads[e.thread].pc;
    if pc.FillNext? {
      NextHolds(s, e, stale);
    } else if pc.FillLoad? || pc.FillCas? {
      FillingHolds(s, e, stale);
    } else if Inserts(pc) {
      InsertHolds(s, e, stale);
    } else {
      RestHolds(s, e, stale);
    }
  }

  /** `stale[t]` is what the running operation of thread t found off the walks as it began. */
  datatype History = History(epochs: P.History, stale: seq<Levels>)

  function InitHistory(threads: nat): History {
    History(P.InitHistory(threads), seq(threads, _ => []))
  }

  ghost function Track(s: State, h: History, e: Event): History
    requires Enabled(s, e) && |h.epochs.local| == MAX_THREADS && |h.epochs.known| == |s.epoch.threads| == |h.stale|
  {
    History(if EpochMoves(s, e.thread) then P.Track(s.epoch, h.epochs, EpochEvent(e)) else h.epochs,
            if s.epoch.threads[e.thread].pc.Enter? then h.stale[e.thread := OffWalks(s.list.mem)] else h.stale)
  }

  /** Stale at every level the tower has. */
  ghost predicate WhollyStale(mem: L.Memory, x: Ref, stale: Levels)
    requires |stale| == NUM_LEVELS
  {
    0 < x < |mem| && forall l :: 0 <= l < |mem[x].forward| && l < NUM_LEVELS ==> x in stale[l]
  }

  ghost predicate OperationOk(s: State, h: History, t: nat)
    requires t < |s.list.threads| == |s.epoch.threads| == |h.epochs.known| == |h.stale|
  {
    && StaleOk(s.list.mem, h.stale[t]) && HoldsNone(s.list.threads[t], h.stale[t])
    && (s.epoch.threads[t].marked ==> s.list.threads[t].pc.Return?)
    && forall x :: x in h.epochs.known[t] ==> WhollyStale(s.list.mem, x, h.stale[t])
  }

  ghost predicate Sized(s: State, h: History) {
    && |s.list.threads| == |s.epoch.threads| == |h.epochs.known| == |h.stale| <= MAX_THREADS
    && |h.epochs.local| == MAX_THREADS
  }

  /** Both machines agree on what has been retired. */
  ghost predicate SameRetired(s: State) {
    && (forall x :: x in s.list.retired ==> x >= 0 && x in s.epoch.retired)
    && (forall x :: x in s.epoch.retired ==> x in s.list.retired)
  }

  ghost predicate ThreadsAgree(s: State, h: History)
    requires Sized(s, h)
  {
    forall t :: 0 <= t < |s.list.threads| ==>
      && (s.list.threads[t].pc.Idle? <==> !s.epoch.threads[t].pc.Inside?)
      && (s.epoch.threads[t].pc.Inside? ==> OperationOk(s, h, t))
  }

  ghost predicate SafeInv(owner: int -> nat, s: State, h: History) {
    && UnlinkInv(owner, s.list) && P.Inv(s.epoch, h.epochs)
    && RetiredOnce(StateOf(s.list)) && SameRetired(s)
    && Sized(s, h) && ThreadsAgree(s, h)
  }

  lemma Parts(owner: int -> nat, s: State, h: History)
    requires SafeInv(owner, s, h)
    ensures UnlinkInv(owner, s.list) && P.Inv(s.epoch, h.epochs) && Sized(s, h)
    ensures RetiredOnce(StateOf(s.list)) && SameRetired(s)
  {
  }

  /** Where a thread is in both machines. */
  lemma PartsOf(owner: int -> nat, s: State, h: History, t: nat)
    requires SafeInv(owner, s, h) && t < |s.list.threads|
    ensures Sized(s, h) && (s.list.threads[t].pc.Idle? <==> !s.epoch.threads[t].pc.Inside?)
    ensures s.epoch.threads[t].pc.Inside? ==> OperationOk(s, h, t)
  {
  }

  lemma ListParts(owner: int -> nat, s: L.State, t: nat)
    requires UnlinkInv(owner, s) && t < |s.threads|
    ensures IndexInv(owner, s) && LevelsOk(s) && RetiredOff(s) && MemOk(s.mem)
    ensures PcAt(s.mem, s.threads[t]) && PcPasses(s.mem, s.threads[t])
  {
    hide LevelsOk, RetiredOff;
    Knows(owner, s, t);
  }

  /** A step of the skip list. */
  lemma ListStep(owner: int -> nat, s: L.State, e: L.Event)
    requires UnlinkInv(owner, s) && RetiredOnce(StateOf(s)) && L.Enabled(s, e) && Disciplined(owner, e)
    ensures var s' := L.Step(s, e);
      && UnlinkInv(owner, s') && RetiredOnce(StateOf(s')) && |s'.threads| == |s.threads|
      && s'.threads == s.threads[e.thread := s'.threads[e.thread]] && Grows(s.mem, s'.mem)
      && forall stale :: StaleOk(s.mem, stale) ==> StaleOk(s'.mem, stale)
  {
    hide UnlinkInv, RetiredOnce, L.Step, IndexInv, LevelsOk, MemOk, PcAt, StaleOk, Grows;
    ListParts(owner, s, e.thread);
    UnlinkStep(owner, s, e);
    ThreadsOf(s, e);
    MemoryStep(s, e);
    RetiredOnceStep(owner, s, e);
    forall stale | StaleOk(s.mem, stale)
      ensures StaleOk(L.Step(s, e).mem, stale)
    { StaysStale(s, e, stale); }
  }

  lemma RetiredOnceStep(owner: int -> nat, s: L.State, e: L.Event)
    requires IndexInv(owner, s) && RetiredOnce(StateOf(s)) && L.Enabled(s, e)
    ensures RetiredOnce(StateOf(L.Step(s, e)))
  {
    hide IndexInv, RetiredOnce, L.Step, Silent;
    Knows(owner, s, e.thread);
    if Silent(s, e) {
      SilentStep(s, e);
    } else {
      LoudStep(s, e);
      StepKeeps(StateOf(s), EventOf(s, e));
    }
  }

  lemma ListHalf(owner: int -> nat, s: State, h: History, e: Event)
    requires SafeInv(owner, s, h) && Enabled(s, e) && Owned(owner, s, e)
    ensures var list' := Step(s, e).list;
      && UnlinkInv(owner, list') && RetiredOnce(StateOf(list')) && |list'.threads| == |s.list.threads|
      && list'.threads == s.list.threads[e.thread := list'.threads[e.thread]] && Grows(s.list.mem, list'.mem)
      && forall stale :: StaleOk(s.list.mem, stale) ==> StaleOk(list'.mem, stale)
  {
    hide SafeInv, UnlinkInv, RetiredOnce, StaleOk, L.Step, L.Enabled, E.Step, E.Enabled, P.Inv;
    Parts(owner, s, h);
    if ListMoves(s, e.thread) { ListStep(owner, s.list, ListEvent(e)); }
  }

  lemma EpochHalf(owner: int -> nat, s: State, h: History, e: Event)
    requires SafeInv(owner, s, h) && Enabled(s, e)
    ensures Sized(s, h)
    ensures var epoch', h' := Step(s, e).epoch, Track(s, h, e).epochs;
      && P.Inv(epoch', h') && |epoch'.threads| == |s.epoch.threads| == |h'.known| && |h'.local| == MAX_THREADS
      && epoch'.threads == s.epoch.threads[e.thread := epoch'.threads[e.thread]]
      && forall u :: 0 <= u < |s.epoch.threads| && u != e.thread ==> h'.known[u] == h.epochs.known[u]
  {
    hide SafeInv, L.Step, L.Enabled, P.Inv, UnlinkInv;
    Parts(owner, s, h);
    if EpochMoves(s, e.thread) {
      P.StepInv(s.epoch, h.epochs, EpochEvent(e));
      EpochLocal(s.epoch, h.epochs, EpochEvent(e));
    }
  }

  lemma EpochLocal(s: E.State, h: P.History, e: E.Event)
    requires E.Enabled(s, e) && |h.local| == MAX_THREADS && |h.known| == |s.threads|
    ensures var s', h' := E.Step(s, e), P.Track(s, h, e);
      && |s'.threads| == |s.threads| == |h'.known| && |h'.local| == MAX_THREADS
      && s'.threads == s.threads[e.thread := s'.threads[e.thread]]
      && forall u :: 0 <= u < |s.threads| && u != e.thread ==> h'.known[u] == h.known[u]
  {
  }

  lemma RetiredHalf(owner: int -> nat, s: State, h: History, e: Event)
    requires SafeInv(owner, s, h) && Enabled(s, e)
    ensures SameRetired(Step(s, e))
  {
    hide SafeInv, UnlinkInv, P.Inv, RetiredOnce;
    Parts(owner, s, h);
    PartsOf(owner, s, h, e.thread);
    hide OperationOk;
    var t := e.thread;
    if ListMoves(s, t) { RetiredBy(s.list, ListEvent(e)); }
    if EpochMoves(s, t) { EpochRetires(s.epoch, EpochEvent(e)); }
  }

  lemma EpochRetires(s: E.State, e: E.Event)
    requires E.Enabled(s, e)
    ensures E.Step(s, e).retired
         == s.retired + if s.threads[e.thread].pc.Inside? && e.action.Retire? then {e.action.tower} else {}
  {
  }

  /** The operation of another thread. */
  lemma OtherOperation(owner: int -> nat, s: State, h: History, e: Event, u: nat)
    requires SafeInv(owner, s, h) && Enabled(s, e) && Owned(owner, s, e) && u < |s.list.threads| && u != e.thread
    ensures Sized(s, h) && Sized(Step(s, e), Track(s, h, e))
    ensures var s', h' := Step(s, e), Track(s, h, e);
      && (s'.list.threads[u].pc.Idle? <==> !s'.epoch.threads[u].pc.Inside?)
      && (s'.epoch.threads[u].pc.Inside? ==> OperationOk(s', h', u))
  {
    hide SafeInv, UnlinkInv, P.Inv, StaleOk, HoldsNone, P.Track, RetiredOnce, L.Step, L.Enabled, E.Step, E.Enabled;
    PartsOf(owner, s, h, u);
    ListHalf(owner, s, h, e);
    EpochHalf(owner, s, h, e);
    assert Step(s, e).list.threads[u] == s.list.threads[u] && Step(s, e).epoch.threads[u] == s.epoch.threads[u];
  }

  /** The operation of the thread itself, while it runs. */
  lemma OwnOperation(owner: int -> nat, s: State, h: History, e: Event)
    requires SafeInv(owner, s, h) && Enabled(s, e) && Owned(owner, s, e) && s.epoch.threads[e.thread].pc.Inside?
    ensures Sized(s, h) && Sized(Step(s, e), Track(s, h, e))
    ensures var s', h', t := Step(s, e), Track(s, h, e), e.thread;
      && (s'.list.threads[t].pc.Idle? <==> !s'.epoch.threads[t].pc.Inside?)
      && (s'.epoch.threads[t].pc.Inside? ==> OperationOk(s', h', t))
  {
    hide SafeInv, UnlinkInv, P.Inv, StaleOk, HoldsNone, RetiredOnce, L.Enabled, L.Step, E.Enabled, E.Step, P.Track;
    var t := e.thread;
    Parts(owner, s, h);
    PartsOf(owner, s, h, t);
    ListHalf(owner, s, h, e);
    EpochHalf(owner, s, h, e);
    ListParts(owner, s.list, t);
    HoldsStep(s.list, ListEvent(e), h.stale[t]);
    OneInside(s, h, e);
  }

  /** What the two machines do together inside an operation. */
  lemma OneInside(s: State, h: History, e: Event)
    requires Enabled(s, e) && Sized(s, h) && s.epoch.threads[e.thread].pc.Inside?
    requires !s.list.threads[e.thread].pc.Idle?
      && (s.epoch.threads[e.thread].marked ==> s.list.threads[e.thread].pc.Return?)
    ensures var s', h', t := Step(s, e), Track(s, h, e), e.thread;
      && t < |s'.list.threads| && t < |s'.epoch.threads| && t < |h'.epochs.known|
      && (s'.list.threads[t].pc.Idle? <==> !s'.epoch.threads[t].pc.Inside?)
      && (s'.epoch.threads[t].marked ==> s'.list.threads[t].pc.Return? || !s'.epoch.threads[t].pc.Inside?)
      && h'.epochs.known[t] == h.epochs.known[t]
  {
  }

  /** What has been retired when an operation begins is off all walks. */
  lemma RetiredIsStale(s: L.State, x: Ref)
    requires RetiredOff(s) && MemOk(s.mem) && x in s.retired
    ensures WhollyStale(s.mem, x, OffWalks(s.mem))
  {
    hide O.OnWalk, MemOk;
    assert Gone(s.mem, x) && OffFrom(s.mem, x, 0);
    forall l | 0 <= l < |s.mem[x].forward| && l < NUM_LEVELS
      ensures x in OffWalks(s.mem)[l]
    { LevelAt(s.mem, x, l); }
  }

  /** The steps of a thread outside of operations, the last of which begins one. */
  lemma OutsideStep(owner: int -> nat, s: State, h: History, e: Event)
    requires SafeInv(owner, s, h) && Enabled(s, e) && Owned(owner, s, e) && !s.epoch.threads[e.thread].pc.Inside?
    ensures Sized(s, h) && Sized(Step(s, e), Track(s, h, e))
    ensures var s', h', t := Step(s, e), Track(s, h, e), e.thread;
      && (s'.list.threads[t].pc.Idle? <==> !s'.epoch.threads[t].pc.Inside?)
      && (s'.epoch.threads[t].pc.Inside? ==> OperationOk(s', h', t))
  {
    hide SafeInv, UnlinkInv, P.Inv, StaleOk, RetiredOnce, MemOk, PcAt, LevelsOk, RetiredOff, WhollyStale;
    Parts(owner, s, h);
    PartsOf(owner, s, h, e.thread);
    ListHalf(owner, s, h, e);
    EpochHalf(owner, s, h, e);
    ListParts(owner, s.list, e.thread);
    BeginsStale(s.list);
    forall x | x in s.epoch.retired
      ensures WhollyStale(Step(s, e).list.mem, x, OffWalks(s.list.mem))
    {
      RetiredIsStale(s.list, x);
      StillStale(s.list.mem, Step(s, e).list.mem, x, OffWalks(s.list.mem));
    }
    if s.epoch.threads[e.thread].pc.Enter? { HoldsHeader(s, e, OffWalks(s.list.mem)); }
  }

  lemma StillStale(mem: L.Memory, mem': L.Memory, x: Ref, stale: Levels)
    requires |stale| == NUM_LEVELS && WhollyStale(mem, x, stale) && Grows(mem, mem')
    ensures WhollyStale(mem', x, stale)
  {
  }

  lemma HoldsHeader(s: State, e: Event, stale: Levels)
    requires Enabled(s, e) && s.epoch.threads[e.thread].pc.Enter? && StaleOk(s.list.mem, stale)
    requires s.list.threads[e.thread].pc.Idle?
    ensures e.thread < |Step(s, e).list.threads| && HoldsNone(Step(s, e).list.threads[e.thread], stale)
  {
  }

  lemma SafeStep(owner: int -> nat, s: State, h: History, e: Event)
    requires SafeInv(owner, s, h) && Enabled(s, e) && Owned(owner, s, e)
    ensures Sized(s, h) && SafeInv(owner, Step(s, e), Track(s, h, e))
  {
    hide UnlinkInv, P.Inv, RetiredOnce, SameRetired, OperationOk, L.Step, E.Step, L.Enabled, E.Enabled, Owned;
    ListHalf(owner, s, h, e);
    EpochHalf(owner, s, h, e);
    RetiredHalf(owner, s, h, e);
    forall t | 0 <= t < |s.list.threads|
      ensures Sized(Step(s, e), Track(s, h, e))
      ensures var s', h' := Step(s, e), Track(s, h, e);
        && (s'.list.threads[t].pc.Idle? <==> !s'.epoch.threads[t].pc.Inside?)
        && (s'.epoch.threads[t].pc.Inside? ==> OperationOk(s', h', t))
    {
      if t != e.thread {
        OtherOperation(owner, s, h, e, t);
      } else if s.epoch.threads[t].pc.Inside? {
        OwnOperation(owner, s, h, e);
      } else {
        OutsideStep(owner, s, h, e);
      }
    }
  }

  ghost function HistoryAt(states: seq<State>, events: seq<Event>, i: nat): History
    requires |states| == |events| + 1 && i < |states|
  {
    if i == 0 then InitHistory(|states[0].list.threads|)
    else
      var h := HistoryAt(states, events, i - 1);
      if Enabled(states[i - 1], events[i - 1]) && Sized(states[i - 1], h)
      then Track(states[i - 1], h, events[i - 1]) else h
  }

  lemma {:induction false} RunIsSafe(owner: int -> nat, states: seq<State>, events: seq<Event>, threads: nat, i: nat)
    requires IsRun(owner, states, events, threads) && threads <= MAX_THREADS && i < |states|
    ensures SafeInv(owner, states[i], HistoryAt(states, events, i)) && |states[i].list.threads| == threads
  {
    hide SafeInv, Enabled, Step, Track, Owned;
    if i == 0 {
      InitSafe(owner, threads);
    } else {
      RunIsSafe(owner, states, events, threads, i - 1);
      assert Enabled(states[i - 1], events[i - 1]) && Owned(owner, states[i - 1], events[i - 1]);
      SafeStep(owner, states[i - 1], HistoryAt(states, events, i - 1), events[i - 1]);
      ListHalf(owner, states[i - 1], HistoryAt(states, events, i - 1), events[i - 1]);
    }
  }

  lemma InitSafe(owner: int -> nat, threads: nat)
    requires threads <= MAX_THREADS
    ensures SafeInv(owner, Init(threads), InitHistory(threads))
  {
    hide UnlinkInv, P.Inv, RetiredOnce;
    var s := Init(threads);
    InitUnlink(owner, threads);
    InitInv(owner, threads);
    assert B.IsRun([B.Init(threads)], [], threads);
    RemovedAreRetiredOnce([B.Init(threads)], [], threads, 0);
    assert E.IsRun([s.epoch], [], threads);
    P.RunKeepsInv([s.epoch], [], threads, 0);
  }

  /** What a client sees of a step. */
  function Shows(s: State, e: Event): Visible
    requires Enabled(s, e)
  {
    if ListMoves(s, e.thread) then Visibly(s.list, ListEvent(e)) else Hidden
  }

  lemma Refines(owner: int -> nat, s: State, h: History, e: Event)
    requires SafeInv(owner, s, h) && Enabled(s, e) && Owned(owner, s, e)
    ensures O.Unique(MemOf(s.list.mem)) && O.Unique(MemOf(Step(s, e).list.mem))
    ensures AtomicStep(Abstraction(s.list), Abstraction(Step(s, e).list), e.thread, Shows(s, e))
  {
    hide SafeInv, IndexInv, L.Step, L.Enabled, E.Step, E.Enabled, P.Inv, LevelsOk, RetiredOff, Commits, O.Unique;
    Parts(owner, s, h);
    ListParts(owner, s.list, e.thread);
    UniqueKnown(owner, s.list);
    if ListMoves(s, e.thread) { X.Refines(owner, s.list, ListEvent(e)); }
  }

  lemma UniqueKnown(owner: int -> nat, s: L.State)
    requires IndexInv(owner, s)
    ensures O.Unique(MemOf(s.mem))
  {
  }

  ghost function AtomAt(s: State): Atomic {
    if O.Unique(MemOf(s.list.mem)) then Abstraction(s.list) else AtomicInit(0)
  }

  ghost function Atoms(states: seq<State>): seq<Atomic> {
    seq(|states|, i requires 0 <= i < |states| => AtomAt(states[i]))
  }

  function Trace(states: seq<State>, events: seq<Event>): seq<(nat, Visible)>
    requires |states| == |events| + 1
    requires forall i :: 0 <= i < |events| ==> Enabled(states[i], events[i])
  {
    seq(|events|, i requires 0 <= i < |events| => (events[i].thread, Shows(states[i], events[i])))
  }

  /** While towers are being retired and freed all the time, every run still is, with the same calls and the
      same results, a run of the atomic map. */
  lemma Linearizable(owner: int -> nat, states: seq<State>, events: seq<Event>, threads: nat)
    requires IsRun(owner, states, events, threads) && threads <= MAX_THREADS
    ensures IsAtomicRun(Atoms(states), Trace(states, events), threads)
  {
    hide SafeInv, Enabled, Step, Track, Owned, Shows, Abstraction, AtomicStep;
    forall i | 0 <= i < |events|
      ensures AtomicStep(Atoms(states)[i], Atoms(states)[i + 1], events[i].thread, Shows(states[i], events[i]))
    {
      RunIsSafe(owner, states, events, threads, i);
      assert Enabled(states[i], events[i]) && Owned(owner, states[i], events[i]);
      Refines(owner, states[i], HistoryAt(states, events, i), events[i]);
    }
    BeginsEmpty(owner, threads);
  }

  lemma BeginsEmpty(owner: int -> nat, threads: nat)
    ensures AtomAt(Init(threads)) == AtomicInit(threads)
  {
    InitInv(owner, threads);
    assert R.Contents(MemOf(Init(threads).list.mem)) == map[];
  }

  /** End to end: what an operation may look at or pass on, at whatever level, has not been freed, in any
      state of any run, whatever the other threads insert, remove, retire and reclaim meanwhile. */
  lemma NoUseAfterFree(owner: int -> nat, states: seq<State>, events: seq<Event>, threads: nat, i: nat, t: nat,
                       l: nat, x: Ref)
    requires IsRun(owner, states, events, threads) && threads <= MAX_THREADS && i < |states| && t < threads
    requires l < NUM_LEVELS
    ensures |states[i].list.threads| == threads
    ensures x in HoldsAt(states[i].list.threads[t], l) && x != NIL ==>
      L.Has(states[i].list.mem, x, l) && x !in states[i].epoch.freed
  {
    hide SafeInv, UnlinkInv, P.Inv, StaleOk, Enabled, Step, Track, MemOk, PcAt, PcPasses, LevelsOk, RetiredOff, HoldsAt;
    RunIsSafe(owner, states, events, threads, i);
    var s, h := states[i], HistoryAt(states, events, i);
    Parts(owner, s, h);
    PartsOf(owner, s, h, t);
    ListParts(owner, s.list, t);
    P.InvAt(s.epoch, h.epochs, t);
    if s.list.threads[t].pc.Idle? {
      IdleHoldsNothing(s.list.threads[t], l);
    } else if x in HoldsAt(s.list.threads[t], l) && x != NIL {
      HeldHas(s.list.mem, s.list.threads[t], l, x);
      assert HoldsAt(s.list.threads[t], l) !! h.stale[t][l];
    }
  }

  lemma IdleHoldsNothing(th: L.Thread, l: nat)
    requires th.pc.Idle?
    ensures HoldsAt(th, l) == {}
  {
  }

  lemma NotYetRetired(s: L.State, t: nat)
    requires RetiredOnce(StateOf(s)) && t < |s.threads| && s.threads[t].pc.RetireTower?
    requires Gone(s.mem, s.threads[t].pc.tower)
    ensures s.threads[t].pc.tower !in s.retired
  {
    var x := s.threads[t].pc.tower;
    var removers := Removers(StateOf(s), x);
    assert StateOf(s).threads[t] == ThreadOf(s.threads[t]);
    assert removers[t] == 1;
    SumAtLeast(removers, t);
    assert multiset(StateOf(s).retired)[x] + Sum(removers) <= 1;
  }

  /** A thread that has marked and unlinked a tower can always retire it. */
  lemma RetireIsPossible(owner: int -> nat, states: seq<State>, events: seq<Event>, threads: nat, i: nat, t: nat)
    requires IsRun(owner, states, events, threads) && threads <= MAX_THREADS && i < |states| && t < threads
    requires t < |states[i].list.threads| && states[i].list.threads[t].pc.RetireTower?
    ensures states[i].list.threads[t].pc.tower >= 0
    ensures Enabled(states[i], Event(t, L.Tau, E.Retire(states[i].list.threads[t].pc.tower)))
  {
    hide SafeInv, UnlinkInv, P.Inv, StaleOk, Step, Track, MemOk, PcAt, LevelsOk, RetiredOff, RetiredOnce, IndexInv;
    RunIsSafe(owner, states, events, threads, i);
    var s, h := states[i], HistoryAt(states, events, i);
    Parts(owner, s, h);
    PartsOf(owner, s, h, t);
    ListParts(owner, s.list, t);
    AlwaysInBounds(owner, s.list, t);
    NotYetRetired(s.list, t);
    P.InvAt(s.epoch, h.epochs, t);
  }

  /** No thread is ever stuck: in every reachable state it can make a step, and when it begins an operation it
      may choose any on a key of its own. */
  lemma NeverStuck(owner: int -> nat, states: seq<State>, events: seq<Event>, threads: nat, i: nat, t: nat, op: B.Op)
    requires IsRun(owner, states, events, threads) && threads <= MAX_THREADS && i < |states| && t < threads
    requires owner(op.key) == t
    ensures exists listAction, epochAction :: var e := Event(t, listAction, epochAction);
      && Enabled(states[i], e) && Owned(owner, states[i], e)
      && (states[i].epoch.threads[t].pc.Enter? ==> listAction.Call? && listAction.op == op)
  {
    hide SafeInv, UnlinkInv, P.Inv, StaleOk, Step, Track, MemOk, PcAt, LevelsOk, RetiredOff, RetiredOnce, IndexInv;
    RunIsSafe(owner, states, events, threads, i);
    var s, h := states[i], HistoryAt(states, events, i);
    Parts(owner, s, h);
    PartsOf(owner, s, h, t);
    ListParts(owner, s.list, t);
    AlwaysInBounds(owner, s.list, t);
    P.InvAt(s.epoch, h.epochs, t);
    var list, epoch := s.list.threads[t].pc, s.epoch.threads[t].pc;
    if list.RetireTower? { RetireIsPossible(owner, states, events, threads, i, t); }
    var listAction :=
      if list.Idle? then L.Call(op, NUM_LEVELS - 1) else if list.InsertAlloc? then L.Malloc([]) else L.Tau;
    var epochAction := EpochAction(epoch, list);
    assert Enabled(s, Event(t, listAction, epochAction));
  }

  ghost function EpochAction(epoch: E.Pc, list: L.Pc): E.Action {
    match epoch
    case Outside => E.Begin
    case Inside => if list.RetireTower? && list.tower >= 0 then E.Retire(list.tower) else E.Finish
    case Free(_, batch) =>
      if batch == {} then E.Tau
      else
        var x :| x in batch;
        E.FreeOne(x)
    case _ => E.Tau
  }
}
