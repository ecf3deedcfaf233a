/** The whole skip list under concurrency as a labelled transition system: all levels
    of all towers, one access to shared memory per step of a thread.

    As in `ListMachine` towers are never freed and an address is a number given out
    once.
  */
module IndexMachine {
  import opened Refs
  import opened TaggedPointers
  import L = ListMachine

  /** `reached` is the number of levels at which the tower has been linked so far; the header counts
      as one. The height of the tower is the length of `forward`. */
  datatype Tower = Tower(key: int, value: int, forward: seq<Link>, reached: nat)

  type Memory = seq<Tower>

  /** What `fill_tables` is called for; a new tower is searched again from one level on. */
  datatype Goal = Locate | Relocate(node: Ref, level: nat) | Unlink(tower: Ref)

  datatype Pc =
    | Idle
      // fill_tables
    | FillLoad(goal: Goal, lvl: nat, cur: Ref)
    | FillNext(goal: Goal, lvl: nat, cur: Ref, next: Ref)
    | FillCas(goal: Goal, lvl: nat, cur: Ref, next: Ref, after: Ref)
      // skiplist_insert
    | UpdateStore(tower: Ref)
    | InsertAlloc
    | InsertStore(node: Ref, lvl: nat)
    | InsertCas(node: Ref, lvl: nat)
      // skiplist_remove
    | MarkLevel(tower: Ref)
    | MarkLoad(tower: Ref, lvl: nat)
    | MarkCas(tower: Ref, lvl: nat, link: Link)
    | RetireTower(tower: Ref)
      // skiplist_search
    | SearchRead(tower: Ref)
    | Return(result: L.Result)

  /** `start` is the level at which the first search begins, `preds` and `succs` are the tables. */
  datatype Thread = Thread(pc: Pc, op: L.Op, start: nat, preds: seq<Ref>, succs: seq<Ref>)

  datatype State = State(mem: Memory, threads: seq<Thread>, retired: seq<Ref>)

  /** What the environment chooses: the operation called and, for a search, the level it begins at
      (what `max_level` holds); how high a new tower is and what is in its memory above the bottom. */
  datatype Action = Call(op: L.Op, start: nat) | Malloc(garbage: seq<Link>) | Tau

  datatype Event = Event(thread: nat, action: Action)

  function Init(threads: nat): State {
    State([Tower(0, 0, seq(NUM_LEVELS, _ => Link(NIL, false)), 1)],
          seq(threads, _ => Thread(Idle, L.Search(0), 0, seq(NUM_LEVELS, _ => HEADER), seq(NUM_LEVELS, _ => NIL))), [])
  }

  /** The tower has this level. */
  predicate Has(mem: Memory, x: Ref, l: nat) {
    0 <= x < |mem| && l < |mem[x].forward|
  }

  function SetForward(mem: Memory, x: Ref, l: nat, link: Link): Memory
    requires Has(mem, x, l)
  {
    mem[x := mem[x].(forward := mem[x].forward[l := link])]
  }

  /** The CAS that links a tower at one more level. */
  function LinkTower(mem: Memory, pred: Ref, l: nat, node: Ref): Memory
    requires Has(mem, pred, l) && Has(mem, node, l)
  {
    var mem1 := SetForward(mem, pred, l, Link(node, false));
    mem1[node := mem1[node].(reached := l + 1)]
  }

  /** The pointers a thread is about to use. */
  predicate RefsOk(mem: Memory, th: Thread) {
    |th.preds| == |th.succs| == NUM_LEVELS &&
    match th.pc
    case FillLoad(_, lvl, cur) => lvl < NUM_LEVELS && Has(mem, cur, lvl)
    case FillNext(_, lvl, cur, next) => lvl < NUM_LEVELS && Has(mem, cur, lvl) && (next == NIL || Has(mem, next, lvl))
    case FillCas(_, lvl, cur, next, _) => lvl < NUM_LEVELS && Has(mem, cur, lvl) && Has(mem, next, lvl)
    case UpdateStore(x) => Has(mem, x, 0)
    case InsertStore(node, lvl) => Has(mem, node, 0) && lvl <= |mem[node].forward| <= NUM_LEVELS
    case InsertCas(node, lvl) => lvl < NUM_LEVELS && Has(mem, node, lvl) && Has(mem, th.preds[lvl], lvl)
    case MarkLevel(x) => Has(mem, x, 0)
    case MarkLoad(x, lvl) => Has(mem, x, lvl)
    case MarkCas(x, lvl, _) => Has(mem, x, lvl)
    case SearchRead(x) => Has(mem, x, 0)
    case _ => true
  }

  predicate ActionOk(pc: Pc, action: Action) {
    match pc
    case Idle =>
      action.Call? && action.start < NUM_LEVELS && (action.op.Search? || action.start == NUM_LEVELS - 1)
    case InsertAlloc => action.Malloc? && |action.garbage| < NUM_LEVELS
    case _ => action.Tau?
  }

  predicate Enabled(s: State, e: Event) {
    && e.thread < |s.threads|
    && RefsOk(s.mem, s.threads[e.thread])
    && ActionOk(s.threads[e.thread].pc, e.action)
  }

  function Goto(s: State, t: nat, pc: Pc): State
    requires t < |s.threads|
  {
    s.(threads := s.threads[t := s.threads[t].(pc := pc)])
  }

  function Top(th: Thread, goal: Goal): nat {
    if goal.Locate? then th.start else NUM_LEVELS - 1
  }

  function Bottom(goal: Goal): nat {
    if goal.Relocate? then goal.level else 0
  }

  /** The search has found these neighbours at the lowest level it was asked for. */
  function AfterFill(op: L.Op, goal: Goal, succ: Ref, hit: bool): Pc {
    match goal
    case Relocate(node, l) => InsertStore(node, l)
    case Unlink(x) => RetireTower(x)
    case Locate =>
      match op
      case Insert(_, _) => if hit then UpdateStore(succ) else InsertAlloc
      case Remove(_) => if hit then MarkLevel(succ) else Return(L.Done)
      case Search(_) => if hit then SearchRead(succ) else Return(L.Missing)
  }

  /** The walk of one level has stopped: the tables are filled and the next level begins, if any. */
  function LevelDone(th: Thread, goal: Goal, lvl: nat, pred: Ref, succ: Ref, hit: bool): Thread
    requires lvl < NUM_LEVELS == |th.preds| == |th.succs|
  {
    th.(preds := th.preds[lvl := pred], succs := th.succs[lvl := succ],
        pc := if lvl > Bottom(goal) then FillLoad(goal, lvl - 1, pred) else AfterFill(th.op, goal, succ, hit))
  }

  function Step(s: State, e: Event): State
    requires Enabled(s, e)
  {
    var t, me := e.thread, s.threads[e.thread];
    match me.pc
    case Idle =>
      s.(threads := s.threads[t := me.(pc := FillLoad(Locate, e.action.start, HEADER),
                                       op := e.action.op, start := e.action.start)])

    case FillLoad(goal, lvl, cur) => Goto(s, t, FillNext(goal, lvl, cur, s.mem[cur].forward[lvl].to))
    case FillNext(goal, lvl, cur, next) =>
      if next == NIL then s.(threads := s.threads[t := LevelDone(me, goal, lvl, cur, NIL, false)])
      else
        var after := s.mem[next].forward[lvl];
        if after.marked then Goto(s, t, FillCas(goal, lvl, cur, next, after.to))
        else if s.mem[next].key < me.op.key then Goto(s, t, FillNext(goal, lvl, next, after.to))
        else s.(threads := s.threads[t := LevelDone(me, goal, lvl, cur, next, s.mem[next].key == me.op.key)])
    case FillCas(goal, lvl, cur, next, after) =>
      if s.mem[cur].forward[lvl] == Link(next, false) then
        Goto(s.(mem := SetForward(s.mem, cur, lvl, Link(after, false))), t, FillLoad(goal, lvl, cur))
      else Goto(s, t, FillLoad(goal, Top(me, goal), HEADER))

    case UpdateStore(x) =>
      var value := if me.op.Insert? then me.op.value else 0;
      Goto(s.(mem := s.mem[x := s.mem[x].(value := value)]), t, Return(L.Done))
    case InsertAlloc =>
      var value := if me.op.Insert? then me.op.value else 0;
      Goto(s.(mem := s.mem + [Tower(me.op.key, value, [Link(NIL, false)] + e.action.garbage, 0)]), t,
           InsertStore(|s.mem|, 0))
    case InsertStore(node, lvl) =>
      if lvl < |s.mem[node].forward| then
        Goto(s.(mem := SetForward(s.mem, node, lvl, Link(me.succs[lvl], false))), t, InsertCas(node, lvl))
      else Goto(s, t, Return(L.Done))
    case InsertCas(node, lvl) =>
      if s.mem[me.preds[lvl]].forward[lvl] == Link(me.succs[lvl], false) then
        Goto(s.(mem := LinkTower(s.mem, me.preds[lvl], lvl, node)), t, InsertStore(node, lvl + 1))
      else Goto(s, t, FillLoad(Relocate(node, lvl), NUM_LEVELS - 1, HEADER))

    case MarkLevel(x) => Goto(s, t, MarkLoad(x, |s.mem[x].forward| - 1))
    case MarkLoad(x, lvl) =>
      var next := s.mem[x].forward[lvl];
      Goto(s, t, MarkCas(x, lvl, if lvl == 0 then Link(next.to, false) else next))
    case MarkCas(x, lvl, link) =>
      if s.mem[x].forward[lvl] == link then
        Goto(s.(mem := SetForward(s.mem, x, lvl, Link(link.to, true))), t,
             if lvl > 0 then MarkLoad(x, lvl - 1) else FillLoad(Unlink(x), NUM_LEVELS - 1, HEADER))
      else if lvl == 0 && s.mem[x].forward[0].marked then Goto(s, t, Return(L.Done))
      else Goto(s, t, MarkLoad(x, lvl))
    case RetireTower(x) => Goto(s.(retired := s.retired + [x]), t, Return(L.Done))

    case SearchRead(x) => Goto(s, t, Return(L.Found(s.mem[x].value)))
    case Return(_) => Goto(s, t, Idle)
  }

  ghost predicate IsRun(states: seq<State>, events: seq<Event>, threads: nat) {
    && |states| == |events| + 1
    && states[0] == Init(threads)
    && forall i :: 0 <= i < |events| ==> Enabled(states[i], events[i]) && states[i + 1] == Step(states[i], events[i])
  }
}
