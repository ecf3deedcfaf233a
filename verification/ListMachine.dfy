/** The skip list's operations on the bottom level as a labelled transition system.

    One step of one thread is one access to shared memory. Towers are never freed
    here, so an address is a number given out once. The index levels are abstracted
    to what they do for the bottom one: before it loads its first pointer a search
    can move to any tower with a smaller key that has been linked, an insertion may go on to
    link its tower at the index levels and a removal marks it there first.
  */
module ListMachine {
  import opened Refs
  import opened ListMemory

  datatype Op = Insert(key: int, value: int) | Remove(key: int) | Search(key: int)

  datatype Result = Done | Found(value: int) | Missing

  /** What `fill_tables` is called for: the first search, the refill after a failed insertion CAS, or
      the unlinking of a tower this thread has marked. */
  datatype Goal = Locate | Relocate(node: Ref) | Unlink(tower: Ref)

  datatype Pc =
    | Idle
      // fill_tables
    | FillLoad(goal: Goal, cur: Ref)
    | FillNext(goal: Goal, cur: Ref, next: Ref)
    | FillCas(goal: Goal, cur: Ref, next: Ref, after: Ref)
      // skiplist_insert
    | UpdateStore(tower: Ref)
    | InsertAlloc(pred: Ref, succ: Ref)
    | InsertStore(node: Ref, pred: Ref, succ: Ref)
    | InsertCas(node: Ref, pred: Ref, succ: Ref)
    | IndexLink(tower: Ref)
      // skiplist_remove
    | IndexMark(tower: Ref)
    | MarkLoad(tower: Ref)
    | MarkCas(tower: Ref, next: Ref)
    | RetireTower(tower: Ref)
      // skiplist_search
    | SearchRead(tower: Ref)
    | Return(result: Result)

  datatype Thread = Thread(pc: Pc, op: Op)

  /** `retired` is what has been given to the reclaim lists, in order. */
  datatype State = State(mem: Memory, threads: seq<Thread>, retired: seq<Ref>)

  /** What the environment chooses: the operation called, the tower a search comes down from, whether
      the tower inserted has index levels. */
  datatype Action = Call(op: Op) | Enter(tower: Ref) | Raise | Tau

  datatype Event = Event(thread: nat, action: Action)

  function Init(threads: nat): State {
    State([Tower(0, 0, NIL, false, true, false)], seq(threads, _ => Thread(Idle, Search(0))), [])
  }

  function SetOpen(mem: Memory, x: Ref, open: bool): Memory
    requires 0 <= x < |mem|
  {
    mem[x := mem[x].(open := open)]
  }

  predicate InMemory(s: State, x: Ref) {
    0 <= x < |s.mem|
  }

  /** The references a thread is about to use. */
  predicate RefsOk(s: State, pc: Pc) {
    match pc
    case FillLoad(_, cur) => InMemory(s, cur)
    case FillNext(_, cur, next) => InMemory(s, cur) && (next == NIL || InMemory(s, next))
    case FillCas(_, cur, next, _) => InMemory(s, cur) && InMemory(s, next)
    case UpdateStore(x) => InMemory(s, x)
    case InsertAlloc(_, _) => true
    case InsertStore(node, _, _) => InMemory(s, node)
    case InsertCas(node, pred, _) => InMemory(s, node) && InMemory(s, pred)
    case IndexLink(x) => InMemory(s, x)
    case IndexMark(x) => InMemory(s, x)
    case MarkLoad(x) => InMemory(s, x)
    case MarkCas(x, _) => InMemory(s, x)
    case SearchRead(x) => InMemory(s, x)
    case _ => true
  }

  predicate Enabled(s: State, e: Event) {
    && e.thread < |s.threads|
    && var me := s.threads[e.thread];
       && RefsOk(s, me.pc)
       && if me.pc.Idle? then e.action.Call?
          else match e.action
               case Enter(a) =>
                 me.pc.FillLoad? && (a == HEADER || (IsLinked(s.mem, a) && s.mem[a].key < me.op.key))
               case Raise => me.pc.IndexLink?
               case _ => e.action.Tau?
  }

  function Goto(s: State, t: nat, pc: Pc): State
    requires t < |s.threads|
  {
    s.(threads := s.threads[t := s.threads[t].(pc := pc)])
  }

  /** `fill_tables` has found these neighbours; `hit` says the successor has the key. */
  function AfterFill(op: Op, goal: Goal, pred: Ref, succ: Ref, hit: bool): Pc {
    match goal
    case Relocate(node) => InsertStore(node, pred, succ)
    case Unlink(x) => RetireTower(x)
    case Locate =>
      match op
      case Insert(_, _) => if hit then UpdateStore(succ) else InsertAlloc(pred, succ)
      case Remove(_) => if hit then IndexMark(succ) else Return(Done)
      case Search(_) => if hit then SearchRead(succ) else Return(Missing)
  }

  function Step(s: State, e: Event): State
    requires Enabled(s, e)
  {
    var t, me := e.thread, s.threads[e.thread];
    match me.pc
    case Idle => s.(threads := s.threads[t := Thread(FillLoad(Locate, HEADER), e.action.op)])

    case FillLoad(goal, cur) =>
      if e.action.Enter? then Goto(s, t, FillLoad(goal, e.action.tower))
      else Goto(s, t, FillNext(goal, cur, s.mem[cur].next))
    case FillNext(goal, cur, next) =>
      if next == NIL then Goto(s, t, AfterFill(me.op, goal, cur, NIL, false))
      else if s.mem[next].marked then Goto(s, t, FillCas(goal, cur, next, s.mem[next].next))
      else if s.mem[next].key < me.op.key then Goto(s, t, FillNext(goal, next, s.mem[next].next))
      else Goto(s, t, AfterFill(me.op, goal, cur, next, s.mem[next].key == me.op.key))
    case FillCas(goal, cur, next, after) =>
      if s.mem[cur].next == next && !s.mem[cur].marked then
        Goto(s.(mem := SetNext(s.mem, cur, after)), t, FillLoad(goal, cur))
      else Goto(s, t, FillLoad(goal, HEADER))

    case UpdateStore(x) =>
      var value := if me.op.Insert? then me.op.value else 0;
      Goto(s.(mem := s.mem[x := s.mem[x].(value := value)]), t, Return(Done))
    case InsertAlloc(pred, succ) =>
      var value := if me.op.Insert? then me.op.value else 0;
      Goto(s.(mem := s.mem + [Tower(me.op.key, value, NIL, false, false, false)]), t, InsertStore(|s.mem|, pred, succ))
    case InsertStore(node, pred, succ) =>
      Goto(s.(mem := SetNext(s.mem, node, succ)), t, InsertCas(node, pred, succ))
    case InsertCas(node, pred, succ) =>
      if s.mem[pred].next == succ && !s.mem[pred].marked then
        Goto(s.(mem := Link(s.mem, pred, node)), t, IndexLink(node))
      else Goto(s, t, FillLoad(Relocate(node), HEADER))
    case IndexLink(x) => Goto(if e.action.Raise? then s.(mem := SetOpen(s.mem, x, true)) else s, t, Return(Done))

    case IndexMark(x) => Goto(s.(mem := SetOpen(s.mem, x, false)), t, MarkLoad(x))
    case MarkLoad(x) => Goto(s, t, MarkCas(x, s.mem[x].next))
    case MarkCas(x, next) =>
      if s.mem[x].next == next && !s.mem[x].marked then
        Goto(s.(mem := Mark(s.mem, x)), t, FillLoad(Unlink(x), HEADER))
      else if s.mem[x].marked then Goto(s, t, Return(Done))
      else Goto(s, t, MarkLoad(x))
    case RetireTower(x) => Goto(s.(retired := s.retired + [x]), t, Return(Done))

    case SearchRead(x) => Goto(s, t, Return(Found(s.mem[x].value)))
    case Return(_) => Goto(s, t, Idle)
  }

  ghost predicate IsRun(states: seq<State>, events: seq<Event>, threads: nat) {
    && |states| == |events| + 1
    && states[0] == Init(threads)
    && forall i :: 0 <= i < |events| ==> Enabled(states[i], events[i]) && states[i + 1] == Step(states[i], events[i])
  }
}
