/** The counter benchmark: the locks make its unprotected increments exact. */
module SpinLockBenchmark {
  import opened SpinLocks
  import opened SpinLockProofs
  import opened Sums

  function Increments(cfg: Config, th: Thread): nat {
    th.acquired * cfg.cycles +
    match th.pc
    case Read(cycle) => cycle
    case Write(cycle, _) => cycle
    case Release => cfg.cycles
    case _ => 0
  }

  function Work(cfg: Config, s: State): seq<nat> {
    seq(|s.threads|, t requires 0 <= t < |s.threads| => Increments(cfg, s.threads[t]))
  }

  /** The loop counters of thread t, and the value it has read of the counter. */
  ghost predicate LoopOk(cfg: Config, s: State, t: nat)
    requires t < |s.threads|
  {
    var th := s.threads[t];
    && th.acquired <= cfg.acquisitions
    && (th.pc.Finished? ==> th.acquired == cfg.acquisitions)
    && (!th.pc.Finished? && !th.pc.Start? ==> th.acquired < cfg.acquisitions)
    && (th.pc.Read? ==> th.pc.cycle < cfg.cycles)
    && (th.pc.Write? ==> th.pc.cycle < cfg.cycles && th.pc.value == s.counter)
  }

  ghost predicate CountInv(cfg: Config, s: State) {
    && s.counter == Sum(Work(cfg, s)) % ULONG_RANGE
    && forall t :: 0 <= t < |s.threads| ==> LoopOk(cfg, s, t)
  }

  lemma IncrementsStep(cfg: Config, s: State, t: nat)
    requires Enabled(s, t) && LoopOk(cfg, s, t)
    ensures t < |Step(cfg, s, t).threads|
    ensures Increments(cfg, Step(cfg, s, t).threads[t])
         == Increments(cfg, s.threads[t]) + if s.threads[t].pc.Write? then 1 else 0
  {
    var a := s.threads[t].acquired;
    assert (a + 1) * cfg.cycles == a * cfg.cycles + cfg.cycles;
  }

  lemma CountStep(cfg: Config, s: State, t: nat)
    requires CountInv(cfg, s) && Exclusive(s) && Enabled(s, t)
    ensures CountInv(cfg, Step(cfg, s, t))
  {
    hide Increments, Sum;
    var s' := Step(cfg, s, t);
    assert LoopOk(cfg, s, t);
    IncrementsStep(cfg, s, t);
    SumUpdate(Work(cfg, s), t, Increments(cfg, s'.threads[t]));
    assert Work(cfg, s') == Work(cfg, s)[t := Increments(cfg, s'.threads[t])];
    forall u | 0 <= u < |s'.threads|
      ensures LoopOk(cfg, s', u)
    { assert LoopOk(cfg, s, u); }
  }

  lemma {:induction false} RunCounts(cfg: Config, states: seq<State>, schedule: seq<nat>, threads: nat, i: nat)
    requires IsRun(cfg, states, schedule, threads) && i < |states|
    requires cfg.kind.Ticket? ==> threads <= SHORT_RANGE
    ensures CountInv(cfg, states[i]) && |states[i].threads| == threads
  {
    RunKeepsInv(cfg, states, schedule, threads, i);
    if i == 0 {
      SumConstant(Work(cfg, states[0]), 0);
    } else {
      RunCounts(cfg, states, schedule, threads, i - 1);
      MutualExclusion(cfg, states, schedule, threads, i - 1);
      assert Enabled(states[i - 1], schedule[i - 1]);
      CountStep(cfg, states[i - 1], schedule[i - 1]);
    }
  }

  /** A finished thread has made all its increments. */
  lemma AllWork(cfg: Config, s: State, each: nat)
    requires CountInv(cfg, s) && each == cfg.acquisitions * cfg.cycles
    requires forall t :: 0 <= t < |s.threads| ==> s.threads[t].pc.Finished?
    ensures s.counter == (|s.threads| * each) % ULONG_RANGE
  {
    forall t | 0 <= t < |s.threads|
      ensures Work(cfg, s)[t] == each
    { assert LoopOk(cfg, s, t); }
    SumConstant(Work(cfg, s), each);
  }

  lemma ProductOfThree(a: nat, b: nat, c: nat)
    ensures a * (b * c) == a * b * c
  {
  }

  /** When every thread is done, no increment has been lost: the counter is the product itself, unless
      that does not fit into 64 bits, and the printed result is CORRECT. */
  lemma CounterExact(cfg: Config, states: seq<State>, schedule: seq<nat>, threads: nat, i: nat)
    requires IsRun(cfg, states, schedule, threads) && i < |states|
    requires cfg.kind.Ticket? ==> threads <= SHORT_RANGE
    requires forall t :: 0 <= t < |states[i].threads| ==> states[i].threads[t].pc.Finished?
    ensures states[i].counter == (threads * cfg.acquisitions * cfg.cycles) % ULONG_RANGE
    ensures threads * cfg.acquisitions * cfg.cycles < 0x1_0000_0000_0000_0000 ==>
      states[i].counter == threads * cfg.acquisitions * cfg.cycles
  {
    hide CountInv, Enabled, Step;
    RunCounts(cfg, states, schedule, threads, i);
    AllWork(cfg, states[i], cfg.acquisitions * cfg.cycles);
    ProductOfThree(threads, cfg.acquisitions, cfg.cycles);
  }
}
