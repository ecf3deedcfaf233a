/** The three spin locks and the counter benchmark that uses them, as a labelled
    transition system: one step is one access to the lock or to the counter.
  */
module SpinLocks {

  const SHORT_RANGE: nat := 0x1_0000
  const ULONG_RANGE: nat := 0x1_0000_0000_0000_0000
  const TTAS_CYCLES_TO_SPIN: nat := 10

  datatype Kind = TAS | TTAS | Ticket

  /** Which lock, how often each thread takes it, how often it increments each time. */
  datatype Config = Config(kind: Kind, acquisitions: nat, cycles: nat)

  datatype Pc =
    | Start
    | TasTry
    | TtasSpin(spins: nat)
    | TtasCheck
    | TtasTry
    | TicketDraw
    | TicketSpin(ticket: int, spins: nat)
    | TicketPoll(ticket: int)
      // critical section: the increment is a read and a write
    | Read(cycle: nat)
    | Write(cycle: nat, value: nat)
    | Release
    | Finished

  /** `acquired` is the loop variable of `one_thread_job`. */
  datatype Thread = Thread(pc: Pc, acquired: nat)

  datatype State = State(taken: bool, nextTicket: int, nowServing: int, counter: nat, threads: seq<Thread>)

  /** The value a `short` holds after the machine computed x. */
  function ToShort(x: int): int {
    (x + 0x8000) % SHORT_RANGE - 0x8000
  }

  function Init(threads: nat): State {
    State(false, 0, 0, 0, seq(threads, _ => Thread(Start, 0)))
  }

  predicate Enabled(s: State, t: nat) {
    t < |s.threads| && !s.threads[t].pc.Finished?
  }

  function Goto(s: State, t: nat, pc: Pc): State
    requires t < |s.threads|
  {
    s.(threads := s.threads[t := s.threads[t].(pc := pc)])
  }

  function Acquire(kind: Kind): Pc {
    match kind
    case TAS => TasTry
    case TTAS => TtasSpin(0)
    case Ticket => TicketDraw
  }

  function Cycle(cfg: Config, cycle: nat): Pc {
    if cycle < cfg.cycles then Read(cycle) else Release
  }

  function Step(cfg: Config, s: State, t: nat): State
    requires Enabled(s, t)
  {
    var me := s.threads[t];
    match me.pc
    case Start => Goto(s, t, if me.acquired < cfg.acquisitions then Acquire(cfg.kind) else Finished)

    case TasTry => if s.taken then s else Goto(s.(taken := true), t, Cycle(cfg, 0))

    case TtasSpin(n) =>
      if s.taken && n < TTAS_CYCLES_TO_SPIN then Goto(s, t, TtasSpin(n + 1)) else Goto(s, t, TtasCheck)
    case TtasCheck => if s.taken then s else Goto(s, t, TtasTry)
    case TtasTry => if s.taken then Goto(s, t, TtasCheck) else Goto(s.(taken := true), t, Cycle(cfg, 0))

    case TicketDraw => Goto(s.(nextTicket := ToShort(s.nextTicket + 1)), t, TicketSpin(s.nextTicket, 0))
    case TicketSpin(ticket, n) =>
      if s.nowServing != ticket && n < TTAS_CYCLES_TO_SPIN then Goto(s, t, TicketSpin(ticket, n + 1))
      else Goto(s, t, TicketPoll(ticket))
    case TicketPoll(ticket) => if s.nowServing != ticket then s else Goto(s, t, Cycle(cfg, 0))

    case Read(cycle) => Goto(s, t, Write(cycle, s.counter))
    case Write(cycle, value) => Goto(s.(counter := (value + 1) % ULONG_RANGE), t, Cycle(cfg, cycle + 1))
    case Release =>
      var s' := if cfg.kind.Ticket? then s.(nowServing := ToShort(s.nowServing + 1)) else s.(taken := false);
      s'.(threads := s.threads[t := Thread(Start, me.acquired + 1)])
    case Finished => s
  }

  /** `schedule[i]` is the thread that makes step i. */
  ghost predicate IsRun(cfg: Config, states: seq<State>, schedule: seq<nat>, threads: nat) {
    && |states| == |schedule| + 1
    && states[0] == Init(threads)
    && forall i :: 0 <= i < |schedule| ==>
         Enabled(states[i], schedule[i]) && states[i + 1] == Step(cfg, states[i], schedule[i])
  }

  predicate InSection(pc: Pc) {
    pc.Read? || pc.Write? || pc.Release?
  }

  ghost predicate Exclusive(s: State) {
    forall t, u ::
      0 <= t < |s.threads| && 0 <= u < |s.threads| && InSection(s.threads[t].pc) && InSection(s.threads[u].pc) ==>
        t == u
  }
}
