/** The lock-free stack as a labelled transition system.

    One step of one thread is one access to shared memory, so a run of the
    machine is an interleaving of the threads under sequential consistency.
    Addresses freed by one thread can be handed out again by a later `malloc`.
    Undefined behaviour (touching memory that is not allocated, freeing it
    twice, using a missing hazard slot) raises `fault`.
  */
module StackMachine {
  import opened Cells

  type Ptr = nat

  const NULL: Ptr := 0
  const MAX_HAZARD_POINTERS: nat := 64
  const RECLAIM_THRESHOLD: nat := 2 * MAX_HAZARD_POINTERS

  datatype Node = Node(next: Ptr, data: nat)

  datatype Op = Push(value: nat) | Pop

  /** Where `add_to_reclaim_list` returns to: `stack_pop`, or the reclaim pass with this `next`. */
  datatype Caller = FromPop | FromPass(rest: Ptr)

  datatype Pc =
    | Idle
    | Exited
      // stack_push
    | PushAlloc(value: nat)
    | PushData(value: nat, node: Ptr)
    | PushLoad(node: Ptr)
    | PushLink(node: Ptr, top: Ptr)
    | PushCas(node: Ptr, top: Ptr)
    | PushReturn
      // hazard_pointer_init
    | Claim(index: nat)
      // stack_pop
    | PopLoad
    | PopPublish(oldHead: Ptr)
    | PopValidate(oldHead: Ptr)
    | PopNext(oldHead: Ptr)
    | PopCas(oldHead: Ptr, next: Ptr)
    | PopClear(node: Ptr)
    | PopData(node: Ptr)
    | Count
    | Reset
    | PopReturn(found: bool)
      // add_to_reclaim_list
    | RetireLoad(node: Ptr, caller: Caller)
    | RetireLink(node: Ptr, top: Ptr, caller: Caller)
    | RetireCas(node: Ptr, caller: Caller)
      // delete_nodes_with_no_hazards
    | PassTake
    | PassNext(current: Ptr)
    | PassScan(current: Ptr, rest: Ptr, index: nat)
    | PassFree(current: Ptr, rest: Ptr)
      // hazard_pointer_cleanup
    | ExitClear
    | ExitRelease

  /** `slot` is the hazard slot this thread has claimed at some time (-1 before),
      `registered` says it owns that slot now, `out` is `*place_to_pop`. */
  datatype Thread = Thread(pc: Pc, slot: int, registered: bool, out: nat)

  datatype State = State(
    heap: map<Ptr, Node>,
    head: Ptr,
    toReclaim: Ptr,
    hazards: seq<Ptr>,
    ids: seq<nat>,
    counter: nat,
    threads: seq<Thread>,
    fault: bool)

  /** What the environment chooses in a step: the operation called, the address
      and the garbage a `malloc` returns, a spurious failure of the weak CAS. */
  datatype Action = Call(op: Op) | Quit | Malloc(addr: Ptr, garbage: Node) | Spurious | Tau

  datatype Event = Event(thread: nat, action: Action)

  function InitialThread(): Thread {
    Thread(Idle, -1, false, 0)
  }

  function Init(threads: nat): State {
    State(map[], NULL, NULL,
          seq(MAX_HAZARD_POINTERS, _ => NULL), seq(MAX_HAZARD_POINTERS, _ => 0), 0,
          seq(threads, _ => InitialThread()), false)
  }

  /** `slot` and the two hazard arrays fit together well enough to index them. */
  predicate Shaped(s: State) {
    |s.hazards| == MAX_HAZARD_POINTERS && |s.ids| == MAX_HAZARD_POINTERS
  }

  predicate Enabled(s: State, e: Event) {
    && Shaped(s)
    && !s.fault
    && e.thread < |s.threads|
    && match s.threads[e.thread].pc
       case Idle => e.action.Call? || e.action.Quit?
       case Exited => false
       case PushAlloc(_) => e.action.Malloc? && e.action.addr != NULL && e.action.addr !in s.heap
       case RetireCas(_, _) => e.action.Tau? || e.action.Spurious?
       case _ => e.action.Tau?
  }

  function Goto(s: State, t: nat, pc: Pc): State
    requires t < |s.threads|
  {
    s.(threads := s.threads[t := s.threads[t].(pc := pc)])
  }

  function Fault(s: State): State {
    s.(fault := true)
  }

  /** Store to the hazard slot of thread t; without a slot this dereferences NULL. */
  function StoreHazard(s: State, t: nat, p: Ptr): State
    requires Shaped(s) && t < |s.threads|
  {
    var i := s.threads[t].slot;
    if 0 <= i < MAX_HAZARD_POINTERS then s.(hazards := s.hazards[i := p]) else Fault(s)
  }

  function StoreNext(s: State, n: Ptr, next: Ptr): State {
    if n in s.heap then s.(heap := s.heap[n := s.heap[n].(next := next)]) else Fault(s)
  }

  function PassLoop(next: Ptr): Pc {
    if next == NULL then PopReturn(true) else PassNext(next)
  }

  function AfterRetire(caller: Caller): Pc {
    match caller
    case FromPop => Count
    case FromPass(rest) => PassLoop(rest)
  }

  function Step(s: State, e: Event): State
    requires Enabled(s, e)
  {
    var t := e.thread;
    var me := s.threads[t];
    match me.pc
    case Idle =>
      (match e.action
       case Call(Push(value)) => Goto(s, t, PushAlloc(value))
       case Call(Pop) => Goto(s, t, if me.registered then PopLoad else Claim(0))
       case _ => Goto(s, t, if me.registered then ExitClear else Exited))
    case Exited => s

    case PushAlloc(value) =>
      Goto(s.(heap := s.heap[e.action.addr := e.action.garbage]), t, PushData(value, e.action.addr))
    case PushData(value, n) =>
      if n !in s.heap then Fault(s)
      else Goto(s.(heap := s.heap[n := s.heap[n].(data := value)]), t, PushLoad(n))
    case PushLoad(n) => Goto(s, t, PushLink(n, s.head))
    case PushLink(n, top) => Goto(StoreNext(s, n, top), t, PushCas(n, top))
    case PushCas(n, top) =>
      if s.head == top then Goto(s.(head := n), t, PushReturn) else Goto(s, t, PushLoad(n))
    case PushReturn => Goto(s, t, Idle)

    case Claim(i) =>
      if i >= MAX_HAZARD_POINTERS then Fault(s)
      else if s.ids[i] == 0 then
        s.(ids := s.ids[i := t + 1],
           threads := s.threads[t := me.(pc := PopLoad, slot := i, registered := true)])
      else Goto(s, t, Claim(i + 1))

    case PopLoad => Goto(s, t, PopPublish(s.head))
    case PopPublish(h) => Goto(StoreHazard(s, t, h), t, PopValidate(h))
    case PopValidate(h) =>
      if s.head != h then Goto(s, t, PopPublish(s.head))
      else if h == NULL then Goto(s, t, PopClear(NULL))
      else Goto(s, t, PopNext(h))
    case PopNext(h) => if h !in s.heap then Fault(s) else Goto(s, t, PopCas(h, s.heap[h].next))
    case PopCas(h, next) =>
      if s.head == h then Goto(s.(head := next), t, PopClear(h)) else Goto(s, t, PopLoad)
    case PopClear(h) =>
      Goto(StoreHazard(s, t, NULL), t, if h == NULL then PopReturn(false) else PopData(h))
    case PopData(h) =>
      if h !in s.heap then Fault(s)
      else s.(threads := s.threads[t := me.(pc := RetireLoad(h, FromPop), out := s.heap[h].data)])
    case Count =>
      var c := (s.counter + 1) % UNSIGNED_RANGE;
      Goto(s.(counter := c), t, if c >= RECLAIM_THRESHOLD then Reset else PopReturn(true))
    case Reset => Goto(s.(counter := 0), t, PassTake)
    case PopReturn(_) => Goto(s, t, Idle)

    case RetireLoad(n, k) => Goto(s, t, RetireLink(n, s.toReclaim, k))
    case RetireLink(n, top, k) => Goto(StoreNext(s, n, top), t, RetireCas(n, k))
    case RetireCas(n, k) =>
      // The expected value is read from, and on failure written back to, node->next.
      if n !in s.heap then Fault(s)
      else if s.heap[n].next == s.toReclaim && e.action.Tau? then
        Goto(s.(toReclaim := n), t, AfterRetire(k))
      else Goto(StoreNext(s, n, s.toReclaim), t, RetireLoad(n, k))

    case PassTake => Goto(s.(toReclaim := NULL), t, PassLoop(s.toReclaim))
    case PassNext(c) => if c !in s.heap then Fault(s) else Goto(s, t, PassScan(c, s.heap[c].next, 0))
    case PassScan(c, rest, i) =>
      if i >= MAX_HAZARD_POINTERS then Goto(s, t, PassFree(c, rest))
      else if s.hazards[i] == c then Goto(s, t, RetireLoad(c, FromPass(rest)))
      else Goto(s, t, PassScan(c, rest, i + 1))
    case PassFree(c, rest) =>
      if c !in s.heap then Fault(s) else Goto(s.(heap := s.heap - {c}), t, PassLoop(rest))

    case ExitClear => Goto(StoreHazard(s, t, NULL), t, ExitRelease)
    case ExitRelease =>
      if 0 <= me.slot < MAX_HAZARD_POINTERS then
        s.(ids := s.ids[me.slot := 0], threads := s.threads[t := me.(pc := Exited, registered := false)])
      else Fault(s)
  }

  /** A run: `states[i+1]` is `states[i]` after event i; any thread may move at any time. */
  ghost predicate IsRun(states: seq<State>, events: seq<Event>, threads: nat) {
    && |states| == |events| + 1
    && states[0] == Init(threads)
    && forall i :: 0 <= i < |events| ==> Enabled(states[i], events[i]) && states[i + 1] == Step(states[i], events[i])
  }
}
