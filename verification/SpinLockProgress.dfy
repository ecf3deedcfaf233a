/** No deadlock: wherever a run of the counter benchmark has got to, it can go on until every
    thread is done. In particular every lock that is free can be taken.
  */
module SpinLockProgress {
  import opened SpinLocks
  import opened SpinLockProofs
  import opened SpinLockBenchmark
  import opened Sums

  /** The steps a thread has left, at most, if it need not wait. */
  function Left(cfg: Config, th: Thread): nat {
    var more: nat := if th.acquired < cfg.acquisitions then cfg.acquisitions - th.acquired else 0;
    match th.pc
    case Start => Rounds(cfg, more) + 1
    case Finished => 0
    case _ => (if more == 0 then 0 else Rounds(cfg, more - 1)) + InRound(cfg, th.pc)
  }

  function Rounds(cfg: Config, n: nat): nat {
    n * (2 * cfg.cycles + 20)
  }

  /** The same within one round of the loop, after its beginning. */
  function InRound(cfg: Config, pc: Pc): nat {
    match pc
    case Read(cycle) => 2 * (if cycle < cfg.cycles then cfg.cycles - cycle else 0) + 3
    case Write(cycle, _) => 2 * (if cycle < cfg.cycles then cfg.cycles - cycle else 0) + 2
    case TasTry => 2 * cfg.cycles + 10
    case TtasTry => 2 * cfg.cycles + 10
    case TtasCheck => 2 * cfg.cycles + 11
    case TtasSpin(_) => 2 * cfg.cycles + 12
    case TicketPoll(_) => 2 * cfg.cycles + 10
    case TicketSpin(_, _) => 2 * cfg.cycles + 11
    case TicketDraw => 2 * cfg.cycles + 12
    case _ => 2
  }

  /** The thread does not have to wait for another one. */
  predicate Free(s: State, t: nat)
    requires t < |s.threads|
  {
    match s.threads[t].pc
    case TasTry => !s.taken
    case TtasSpin(_) => !s.taken
    case TtasCheck => !s.taken
    case TtasTry => !s.taken
    case TicketSpin(ticket, _) => ticket == s.nowServing
    case TicketPoll(ticket) => ticket == s.nowServing
    case Finished => false
    case _ => true
  }

  /** A step of a thread that does not have to wait brings it nearer to its end. */
  lemma FreeAdvances(cfg: Config, s: State, t: nat)
    requires Enabled(s, t) && Free(s, t) && LoopOk(cfg, s, t)
    ensures var s' := Step(cfg, s, t);
      && |s'.threads| == |s.threads| && s'.threads == s.threads[t := s'.threads[t]]
      && Left(cfg, s'.threads[t]) < Left(cfg, s.threads[t])
  {
    hide Rounds;
    var more := cfg.acquisitions - s.threads[t].acquired;
    if more > 0 { OneRound(cfg, more); }
  }

  lemma OneRound(cfg: Config, n: nat)
    requires n > 0
    ensures Rounds(cfg, n) == Rounds(cfg, n - 1) + 2 * cfg.cycles + 20
  {
  }

  /** Every ticket that has been drawn and not been served is in somebody's hand. */
  ghost predicate AllHeld(s: State, h: History)
    requires |h.ticket| == |s.threads|
  {
    forall k :: h.served <= k < h.drawn ==> InHand(s, h, k)
  }

  ghost predicate InHand(s: State, h: History, k: nat)
    requires |h.ticket| == |s.threads|
  {
    exists t :: 0 <= t < |s.threads| && Holding(s.threads[t].pc) && h.ticket[t] == k
  }

  lemma AllHeldStep(cfg: Config, s: State, h: History, t: nat)
    requires cfg.kind.Ticket? && TicketInv(s, h) && AllHeld(s, h) && Enabled(s, t)
    ensures |Step(cfg, s, t).threads| == |Track(s, h, t).ticket| && AllHeld(Step(cfg, s, t), Track(s, h, t))
  {
    hide ToShort, Sum;
    var s', h' := Step(cfg, s, t), Track(s, h, t);
    assert TicketOk(s, h, t);
    forall k | h'.served <= k < h'.drawn
      ensures InHand(s', h', k)
    {
      if k == h.drawn {
        assert Holding(s'.threads[t].pc) && h'.ticket[t] == k;
      } else {
        assert InHand(s, h, k);
        var u :| 0 <= u < |s.threads| && Holding(s.threads[u].pc) && h.ticket[u] == k;
        assert Holding(s'.threads[u].pc) && h'.ticket[u] == k;
      }
    }
  }

  lemma {:induction false} RunKeepsHeld(cfg: Config, states: seq<State>, schedule: seq<nat>, threads: nat, i: nat)
    requires IsRun(cfg, states, schedule, threads) && i < |states| && cfg.kind.Ticket? && threads <= SHORT_RANGE
    ensures |HistoryAt(states, schedule, i).ticket| == |states[i].threads|
    ensures AllHeld(states[i], HistoryAt(states, schedule, i))
  {
    if i > 0 {
      RunKeepsInv(cfg, states, schedule, threads, i - 1);
      RunKeepsHeld(cfg, states, schedule, threads, i - 1);
      assert Enabled(states[i - 1], schedule[i - 1]);
      AllHeldStep(cfg, states[i - 1], HistoryAt(states, schedule, i - 1), schedule[i - 1]);
    }
  }

  /** The holder of a lock never waits, and if there is none somebody else need not. */
  lemma FlagSomeFree(s: State, h: History)
    requires FlagInv(s, h) && exists t :: 0 <= t < |s.threads| && !s.threads[t].pc.Finished?
    ensures exists t :: 0 <= t < |s.threads| && Free(s, t)
  {
    if h.holder >= 0 {
      assert Free(s, h.holder);
    } else {
      var t :| 0 <= t < |s.threads| && !s.threads[t].pc.Finished?;
      assert Free(s, t);
    }
  }

  lemma TicketSomeFree(s: State, h: History)
    requires TicketInv(s, h) && AllHeld(s, h) && exists t :: 0 <= t < |s.threads| && !s.threads[t].pc.Finished?
    ensures exists t :: 0 <= t < |s.threads| && Free(s, t)
  {
    var t :| 0 <= t < |s.threads| && !s.threads[t].pc.Finished?;
    assert TicketOk(s, h, t);
    if Waiting(s.threads[t].pc) {
      assert InHand(s, h, h.served);
      var u :| 0 <= u < |s.threads| && Holding(s.threads[u].pc) && h.ticket[u] == h.served;
      assert TicketOk(s, h, u);
      assert Free(s, u);
    } else {
      assert Free(s, t);
    }
  }

  lemma SomeFree(cfg: Config, states: seq<State>, schedule: seq<nat>, threads: nat) returns (t: nat)
    requires IsRun(cfg, states, schedule, threads) && (cfg.kind.Ticket? ==> threads <= SHORT_RANGE)
    requires var s := states[|schedule|]; exists t :: 0 <= t < |s.threads| && !s.threads[t].pc.Finished?
    ensures Enabled(states[|schedule|], t) && Free(states[|schedule|], t)
  {
    hide TicketInv, FlagInv, AllHeld;
    var i := |schedule|;
    RunKeepsInv(cfg, states, schedule, threads, i);
    if cfg.kind.Ticket? {
      RunKeepsHeld(cfg, states, schedule, threads, i);
      TicketSomeFree(states[i], HistoryAt(states, schedule, i));
    } else {
      FlagSomeFree(states[i], HistoryAt(states, schedule, i));
    }
    t :| 0 <= t < |states[i].threads| && Free(states[i], t);
  }

  function AllLeft(cfg: Config, s: State): seq<nat> {
    seq(|s.threads|, t requires 0 <= t < |s.threads| => Left(cfg, s.threads[t]))
  }

  ghost predicate AllDone(s: State) {
    forall t :: 0 <= t < |s.threads| ==> s.threads[t].pc.Finished?
  }

  /** From every reachable state the run can go on until all threads are done, for each lock. */
  lemma {:induction false} CanAlwaysFinish(cfg: Config, states: seq<State>, schedule: seq<nat>, threads: nat)
    returns (states': seq<State>, schedule': seq<nat>)
    requires IsRun(cfg, states, schedule, threads) && (cfg.kind.Ticket? ==> threads <= 65536)
    ensures IsRun(cfg, states', schedule', threads) && states <= states' && schedule <= schedule'
    ensures AllDone(states'[|schedule'|])
    decreases Sum(AllLeft(cfg, states[|schedule|]))
  {
    hide Left, Step, Sum, LockInv;
    var s := states[|schedule|];
    RunKeepsInv(cfg, states, schedule, threads, |schedule|);
    RunCounts(cfg, states, schedule, threads, |schedule|);
    if exists t :: 0 <= t < |s.threads| && !s.threads[t].pc.Finished? {
      var t := SomeFree(cfg, states, schedule, threads);
      assert LoopOk(cfg, s, t);
      FreeAdvances(cfg, s, t);
      var s' := Step(cfg, s, t);
      Extend(cfg, states, schedule, threads, t);
      SumUpdate(AllLeft(cfg, s), t, Left(cfg, s'.threads[t]));
      assert AllLeft(cfg, s') == AllLeft(cfg, s)[t := Left(cfg, s'.threads[t])];
      states', schedule' := CanAlwaysFinish(cfg, states + [s'], schedule + [t], threads);
    } else {
      states', schedule' := states, schedule;
    }
  }

  /** A finished run exists, and its counter is exact. */
  lemma BenchmarkFinishes(cfg: Config, threads: nat) returns (states: seq<State>, schedule: seq<nat>)
    requires cfg.kind.Ticket? ==> threads <= 65536
    ensures IsRun(cfg, states, schedule, threads)
    ensures states[|schedule|].counter == (threads * cfg.acquisitions * cfg.cycles) % 0x1_0000_0000_0000_0000
  {
    states, schedule := CanAlwaysFinish(cfg, [Init(threads)], [], threads);
    RunKeepsInv(cfg, states, schedule, threads, |schedule|);
    CounterExact(cfg, states, schedule, threads, |schedule|);
  }

  /** How often a waiting thread has polled before it begins to sleep. */
  function Spins(pc: Pc): nat {
    match pc
    case TtasSpin(n) => n
    case TicketSpin(_, n) => n
    case _ => 0
  }

  predicate Spinning(pc: Pc) {
    pc.TtasSpin? || pc.TicketSpin?
  }

  /** A thread that finds the lock taken polls it ten times without sleeping in between, not more and not less. */
  lemma {:induction false} SpinsTenTimes(cfg: Config, states: seq<State>, schedule: seq<nat>, threads: nat, i: nat,
                                         t: nat)
    requires IsRun(cfg, states, schedule, threads) && i < |states| && t < |states[i].threads|
    ensures Spins(states[i].threads[t].pc) <= 10
    ensures i < |schedule| && schedule[i] == t && Spinning(states[i].threads[t].pc) && !Free(states[i], t) ==>
      t < |states[i + 1].threads|
      && if Spins(states[i].threads[t].pc) < 10
         then Spinning(states[i + 1].threads[t].pc)
              && Spins(states[i + 1].threads[t].pc) == Spins(states[i].threads[t].pc) + 1
         else !Spinning(states[i + 1].threads[t].pc)
  {
    if i > 0 {
      assert Enabled(states[i - 1], schedule[i - 1]);
      SpinsTenTimes(cfg, states, schedule, threads, i - 1, t);
    }
    if i < |schedule| { assert Enabled(states[i], schedule[i]); }
  }
}
