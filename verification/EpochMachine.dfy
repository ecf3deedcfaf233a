/** The numbers of epochs and threads of the skip list. */
module Epochs {
  const MAX_THREADS: nat := 256
  const NUM_EPOCHS: nat := 4
  const UNCLAIMED: int := -1
}

/** Epoch-based reclamation of the skip list as a labelled transition system.

    Towers are abstract identities and the reclaim lists are sets. Thread t owns
    cell t of `local_epochs`, and every cell starts unclaimed (-1).
  */
module EpochMachine {
  import opened Epochs

  type Tower = nat

  datatype Pc =
    | Outside
      // epoch_init
    | InitLoad
    | InitClaim(global: int)
      // an operation, from enter_epoch to leave_epoch
    | Enter
    | Inside
    | LeaveLoad
    | LeaveStore(global: int)
      // reclaim_nodes
    | TryLock
    | LoadGlobal
    | Scan(global: int, cell: nat)
    | Exchange(global: int)
    | Free(global: int, batch: set<Tower>)
    | Advance(global: int)
    | Unlock

  /** `epoch` is what `enter_epoch` returned, `marked` says the operation retired a tower. */
  datatype Thread = Thread(pc: Pc, epoch: int, marked: bool)

  /** `retired` and `freed` record what has been retired and freed so far. */
  datatype State = State(
    locked: bool,
    globalEpoch: int,
    localEpochs: seq<int>,
    lists: seq<set<Tower>>,
    threads: seq<Thread>,
    retired: set<Tower>,
    freed: set<Tower>)

  /** In an operation a thread may retire the one tower it unlinked; a reclaimer frees its batch in
      any order. */
  datatype Action = Begin | Retire(tower: Tower) | Finish | FreeOne(tower: Tower) | Tau

  datatype Event = Event(thread: nat, action: Action)

  function Init(threads: nat): State {
    State(false, 0, seq(MAX_THREADS, _ => UNCLAIMED), seq(NUM_EPOCHS, _ => {}),
          seq(threads, _ => Thread(Outside, 0, false)), {}, {})
  }

  predicate Shaped(s: State) {
    |s.localEpochs| == MAX_THREADS && |s.lists| == NUM_EPOCHS && |s.threads| <= MAX_THREADS
  }

  predicate Enabled(s: State, e: Event) {
    && Shaped(s)
    && e.thread < |s.threads|
    && match s.threads[e.thread].pc
       case Outside => e.action.Begin?
       case Inside =>
         || e.action.Finish?
         || (e.action.Retire? && !s.threads[e.thread].marked && e.action.tower !in s.retired
             && 0 <= s.threads[e.thread].epoch < NUM_EPOCHS)
       case Free(_, batch) => if batch == {} then e.action.Tau? else e.action.FreeOne? && e.action.tower in batch
       case _ => e.action.Tau?
  }

  function Goto(s: State, t: nat, pc: Pc): State
    requires t < |s.threads|
  {
    s.(threads := s.threads[t := s.threads[t].(pc := pc)])
  }

  function Step(s: State, e: Event): State
    requires Enabled(s, e)
  {
    var t, me := e.thread, s.threads[e.thread];
    match me.pc
    case Outside => Goto(s, t, if s.localEpochs[t] == UNCLAIMED then InitLoad else Enter)

    case InitLoad => Goto(s, t, InitClaim(s.globalEpoch))
    case InitClaim(global) => Goto(s.(localEpochs := s.localEpochs[t := global]), t, Enter)

    case Enter =>
      s.(threads := s.threads[t := Thread(Inside, s.localEpochs[t], false)])
    case Inside =>
      (match e.action
       case Retire(x) =>
         s.(lists := s.lists[me.epoch := s.lists[me.epoch] + {x}],
            retired := s.retired + {x},
            threads := s.threads[t := me.(marked := true)])
       case _ => Goto(s, t, LeaveLoad))
    case LeaveLoad => Goto(s, t, LeaveStore(s.globalEpoch))
    case LeaveStore(global) =>
      var s' := if s.localEpochs[t] != global
                then s.(localEpochs := s.localEpochs[t := (s.localEpochs[t] + 1) % NUM_EPOCHS]) else s;
      Goto(s', t, if me.marked then TryLock else Outside)

    case TryLock => if s.locked then Goto(s, t, Outside) else Goto(s.(locked := true), t, LoadGlobal)
    case LoadGlobal => Goto(s, t, Scan(s.globalEpoch, 0))
    case Scan(global, i) =>
      if i >= MAX_THREADS then Goto(s, t, Exchange(global))
      else if s.localEpochs[i] != global then Goto(s, t, Unlock)
      else Goto(s, t, Scan(global, i + 1))
    case Exchange(global) =>
      var k := (global + NUM_EPOCHS - 2) % NUM_EPOCHS;
      Goto(s.(lists := s.lists[k := {}]), t, Free(global, s.lists[k]))
    case Free(global, batch) =>
      if batch == {} then Goto(s, t, Advance(global))
      else Goto(s.(freed := s.freed + {e.action.tower}), t, Free(global, batch - {e.action.tower}))
    case Advance(global) => Goto(s.(globalEpoch := (global + 1) % NUM_EPOCHS), t, Unlock)
    case Unlock => Goto(s.(locked := false), t, Outside)
  }

  ghost predicate IsRun(states: seq<State>, events: seq<Event>, threads: nat) {
    && |states| == |events| + 1
    && states[0] == Init(threads)
    && forall i :: 0 <= i < |events| ==> Enabled(states[i], events[i]) && states[i + 1] == Step(states[i], events[i])
  }

  /** Between `enter_epoch` and the end of `leave_epoch`. */
  predicate Running(pc: Pc) {
    pc.Inside? || pc.LeaveLoad? || pc.LeaveStore?
  }

  predicate Reclaiming(pc: Pc) {
    pc.LoadGlobal? || pc.Scan? || pc.Exchange? || pc.Free? || pc.Advance? || pc.Unlock?
  }
}
