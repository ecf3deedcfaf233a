/** Mutual exclusion of the three locks, first-come first-served order of the
    ticket lock however often its 16-bit tickets wrap, and the exact count.
  */
module SpinLockProofs {
  import opened SpinLocks
  import opened Sums

  /** Unbounded counters behind the 16-bit ones. `ticket[t]` is the number thread t last drew,
      `drawnAt[t]` how many releases there had been by then, `entered` the tickets in the order in
      which their holders got past the wait loop, `holder` the thread inside (-1 for none). */
  datatype History = History(drawn: nat, served: nat, ticket: seq<nat>, drawnAt: seq<nat>, entered: seq<nat>,
                             holder: int)

  function InitHistory(threads: nat): History {
    History(0, 0, seq(threads, _ => 0), seq(threads, _ => 0), [], -1)
  }

  predicate Waiting(pc: Pc) {
    pc.TicketSpin? || pc.TicketPoll?
  }

  predicate Holding(pc: Pc) {
    Waiting(pc) || InSection(pc)
  }

  function Track(s: State, h: History, t: nat): History
    requires Enabled(s, t) && |h.ticket| == |h.drawnAt| == |s.threads|
  {
    match s.threads[t].pc
    case TasTry => if s.taken then h else h.(holder := t)
    case TtasTry => if s.taken then h else h.(holder := t)
    case TicketDraw => h.(drawn := h.drawn + 1, ticket := h.ticket[t := h.drawn], drawnAt := h.drawnAt[t := h.served])
    case TicketPoll(ticket) =>
      if s.nowServing == ticket then h.(entered := h.entered + [h.ticket[t]], holder := t) else h
    case Release => h.(served := h.served + 1, holder := -1)
    case _ => h
  }

  function Holders(s: State): seq<nat> {
    seq(|s.threads|, t requires 0 <= t < |s.threads| => if Holding(s.threads[t].pc) then 1 else 0)
  }

  ghost predicate TicketOk(s: State, h: History, t: nat)
    requires t < |s.threads| == |h.ticket| == |h.drawnAt|
  {
    var pc := s.threads[t].pc;
    && !IsFlagPc(pc)
    && (Holding(pc) ==>
          && h.served <= h.ticket[t] < h.drawn
          && h.drawnAt[t] <= h.served
          && h.ticket[t] < h.drawnAt[t] + |s.threads|)
    && (Waiting(pc) ==> pc.ticket == ToShort(h.ticket[t]))
    && (InSection(pc) ==> h.ticket[t] == h.served)
  }

  /** Nobody but the holder is inside. */
  ghost predicate HolderInv(s: State, h: History) {
    && |h.ticket| == |h.drawnAt| == |s.threads|
    && -1 <= h.holder < |s.threads|
    && (h.holder >= 0 ==> InSection(s.threads[h.holder].pc))
    && (forall t :: 0 <= t < |s.threads| && InSection(s.threads[t].pc) ==> t == h.holder)
  }

  predicate IsTicketPc(pc: Pc) {
    pc.TicketDraw? || Waiting(pc)
  }

  predicate IsFlagPc(pc: Pc) {
    pc.TasTry? || pc.TtasSpin? || pc.TtasCheck? || pc.TtasTry?
  }

  ghost predicate FlagInv(s: State, h: History) {
    && HolderInv(s, h)
    && (s.taken <==> h.holder >= 0)
    && (forall t :: 0 <= t < |s.threads| ==> !IsTicketPc(s.threads[t].pc))
  }

  ghost predicate TicketsDistinct(s: State, h: History)
    requires |h.ticket| == |s.threads|
  {
    forall t, u ::
      0 <= t < u < |s.threads| && Holding(s.threads[t].pc) && Holding(s.threads[u].pc) ==> h.ticket[t] != h.ticket[u]
  }

  ghost predicate TicketInv(s: State, h: History) {
    && HolderInv(s, h)
    && |s.threads| <= SHORT_RANGE
    && s.nextTicket == ToShort(h.drawn)
    && s.nowServing == ToShort(h.served)
    && h.served + Sum(Holders(s)) == h.drawn
    && (forall t :: 0 <= t < |s.threads| ==> TicketOk(s, h, t))
    && TicketsDistinct(s, h)
    && (forall i :: 0 <= i < |h.entered| ==> h.entered[i] == i)
    && |h.entered| == h.served + if h.holder >= 0 then 1 else 0
  }

  /** Tickets closer than 65536 apart are told apart by their 16-bit values. */
  lemma ShortsDiffer(a: nat, b: nat)
    requires a <= b < a + SHORT_RANGE
    ensures ToShort(a) == ToShort(b) <==> a == b
  {
  }

  lemma ToShortNext(x: nat)
    ensures ToShort(ToShort(x) + 1) == ToShort(x + 1)
  {
  }

  lemma {:induction false} SumAtMost(xs: seq<nat>)
    requires forall i :: 0 <= i < |xs| ==> xs[i] <= 1
    ensures Sum(xs) <= |xs|
  {
    if xs != [] { SumAtMost(xs[1..]); }
  }

  lemma HoldersStep(s: State, s': State, t: nat)
    requires t < |s.threads| == |s'.threads| && s'.threads == s.threads[t := s'.threads[t]]
    ensures Sum(Holders(s')) + (if Holding(s.threads[t].pc) then 1 else 0)
         == Sum(Holders(s)) + (if Holding(s'.threads[t].pc) then 1 else 0)
    ensures Sum(Holders(s')) <= |s.threads|
  {
    var x: nat := if Holding(s'.threads[t].pc) then 1 else 0;
    SumUpdate(Holders(s), t, x);
    assert Holders(s') == Holders(s)[t := x];
    SumAtMost(Holders(s'));
  }

  lemma FlagStep(cfg: Config, s: State, h: History, t: nat)
    requires !cfg.kind.Ticket? && FlagInv(s, h) && Enabled(s, t)
    ensures FlagInv(Step(cfg, s, t), Track(s, h, t))
  {
  }

  /** The wait loop lets a thread through exactly when its unbounded ticket is served. */
  lemma PollExact(s: State, h: History, t: nat)
    requires TicketInv(s, h) && t < |s.threads| && Waiting(s.threads[t].pc)
    ensures s.nowServing == s.threads[t].pc.ticket <==> h.ticket[t] == h.served
  {
    assert TicketOk(s, h, t);
    SumAtMost(Holders(s));
    ShortsDiffer(h.served, h.ticket[t]);
  }

  lemma TicketOkStep(cfg: Config, s: State, h: History, t: nat, u: nat)
    requires cfg.kind.Ticket? && TicketInv(s, h) && Enabled(s, t) && u < |s.threads|
    ensures |Step(cfg, s, t).threads| == |s.threads| && TicketOk(Step(cfg, s, t), Track(s, h, t), u)
  {
    assert TicketOk(s, h, t) && TicketOk(s, h, u);
    if Waiting(s.threads[t].pc) { PollExact(s, h, t); }
    HoldersStep(s, Step(cfg, s, t), t);
    hide ToShort, Sum;
  }

  lemma DistinctStep(cfg: Config, s: State, h: History, t: nat)
    requires cfg.kind.Ticket? && TicketInv(s, h) && Enabled(s, t)
    ensures TicketsDistinct(Step(cfg, s, t), Track(s, h, t))
  {
    hide Sum, ToShort;
    assert TicketOk(s, h, t);
    forall u | 0 <= u < |s.threads| && Holding(s.threads[u].pc)
      ensures h.ticket[u] < h.drawn
    { assert TicketOk(s, h, u); }
  }

  lemma HolderStep(cfg: Config, s: State, h: History, t: nat)
    requires cfg.kind.Ticket? && TicketInv(s, h) && Enabled(s, t)
    ensures HolderInv(Step(cfg, s, t), Track(s, h, t))
  {
    assert TicketOk(s, h, t);
    if s.threads[t].pc.TicketPoll? {
      PollExact(s, h, t);
      if h.holder >= 0 { assert TicketOk(s, h, h.holder); }
    }
  }

  /** What a thread of a ticket lock is not doing, and how many tickets it holds. */
  lemma ThreadKnown(s: State, h: History, t: nat)
    requires TicketInv(s, h) && t < |s.threads|
    ensures !IsFlagPc(s.threads[t].pc)
    ensures |h.ticket| == |h.drawnAt| == |s.threads|
    ensures InSection(s.threads[t].pc) <==> h.holder == t
    ensures InSection(s.threads[t].pc) ==> h.ticket[t] == h.served
  {
    assert TicketOk(s, h, t);
  }

  lemma TicketStep(cfg: Config, s: State, h: History, t: nat)
    requires cfg.kind.Ticket? && TicketInv(s, h) && Enabled(s, t)
    ensures TicketInv(Step(cfg, s, t), Track(s, h, t))
  {
    hide TicketsDistinct, TicketOk, ToShort, Sum, Holders, HolderInv;
    ThreadKnown(s, h, t);
    var s', h' := Step(cfg, s, t), Track(s, h, t);
    HolderStep(cfg, s, h, t);
    DistinctStep(cfg, s, h, t);
    HoldersStep(s, s', t);
    ToShortNext(h.drawn);
    ToShortNext(h.served);
    if s.threads[t].pc.TicketPoll? && s.nowServing == s.threads[t].pc.ticket { Enters(s, h, t); }
    forall u | 0 <= u < |s'.threads|
      ensures TicketOk(s', h', u)
    { TicketOkStep(cfg, s, h, t, u); }
  }

  /** First come, first served: the k-th thread to enter is the one that drew ticket k. */
  lemma Enters(s: State, h: History, t: nat)
    requires TicketInv(s, h) && t < |s.threads| && s.threads[t].pc.TicketPoll?
    requires s.nowServing == s.threads[t].pc.ticket
    ensures h.holder == -1 && h.ticket[t] == h.served == |h.entered|
  {
    PollExact(s, h, t);
    assert TicketOk(s, h, t);
    assert h.holder >= 0 ==> TicketOk(s, h, h.holder);
  }

  ghost predicate LockInv(kind: Kind, s: State, h: History) {
    if kind.Ticket? then TicketInv(s, h) else FlagInv(s, h)
  }

  ghost function HistoryAt(states: seq<State>, schedule: seq<nat>, i: nat): History
    requires |states| == |schedule| + 1 && i < |states|
  {
    if i == 0 then InitHistory(|states[0].threads|)
    else
      var h, s := HistoryAt(states, schedule, i - 1), states[i - 1];
      if Enabled(s, schedule[i - 1]) && |h.ticket| == |h.drawnAt| == |s.threads|
      then Track(s, h, schedule[i - 1]) else h
  }

  lemma InitInv(kind: Kind, threads: nat)
    requires kind.Ticket? ==> threads <= SHORT_RANGE
    ensures LockInv(kind, Init(threads), InitHistory(threads))
  {
    SumConstant(Holders(Init(threads)), 0);
  }

  lemma {:induction false} RunKeepsInv(cfg: Config, states: seq<State>, schedule: seq<nat>, threads: nat, i: nat)
    requires IsRun(cfg, states, schedule, threads) && i < |states|
    requires cfg.kind.Ticket? ==> threads <= SHORT_RANGE
    ensures LockInv(cfg.kind, states[i], HistoryAt(states, schedule, i)) && |states[i].threads| == threads
  {
    if i == 0 {
      InitInv(cfg.kind, threads);
    } else {
      RunKeepsInv(cfg, states, schedule, threads, i - 1);
      var s, h, t := states[i - 1], HistoryAt(states, schedule, i - 1), schedule[i - 1];
      assert Enabled(s, t) && states[i] == Step(cfg, s, t);
      if cfg.kind.Ticket? { TicketStep(cfg, s, h, t); } else { FlagStep(cfg, s, h, t); }
    }
  }

  /** At most one thread is past the acquisition of any of the locks; for the ticket lock as long as
      there are no more threads than ticket values. */
  lemma MutualExclusion(cfg: Config, states: seq<State>, schedule: seq<nat>, threads: nat, i: nat)
    requires IsRun(cfg, states, schedule, threads) && i < |states|
    requires cfg.kind.Ticket? ==> threads <= SHORT_RANGE
    ensures Exclusive(states[i])
  {
    RunKeepsInv(cfg, states, schedule, threads, i);
  }

  /** First come, first served: in every state the critical sections entered so far are those of
      tickets 0, 1, 2, ... in this order; and a thread that enters has seen as many releases since it
      drew its ticket as tickets were outstanding then, `ticket - drawnAt`, fewer than there are
      threads. */
  lemma FirstComeFirstServed(cfg: Config, states: seq<State>, schedule: seq<nat>, threads: nat, i: nat)
    requires IsRun(cfg, states, schedule, threads) && i < |schedule|
    requires cfg.kind.Ticket? && threads <= SHORT_RANGE
    ensures schedule[i] < threads == |states[i].threads| == |HistoryAt(states, schedule, i).ticket|
         == |HistoryAt(states, schedule, i).drawnAt|
    ensures var h, h', t := HistoryAt(states, schedule, i), HistoryAt(states, schedule, i + 1), schedule[i];
      && (forall k :: 0 <= k < |h.entered| ==> h.entered[k] == k)
      && (states[i].threads[t].pc.TicketPoll? && states[i].nowServing == states[i].threads[t].pc.ticket ==>
            && h'.entered == h.entered + [h.ticket[t]]
            && h.served == h.ticket[t]
            && h.drawnAt[t] <= h.ticket[t] < h.drawnAt[t] + threads)
  {
    RunKeepsInv(cfg, states, schedule, threads, i);
    var h, s, t := HistoryAt(states, schedule, i), states[i], schedule[i];
    assert Enabled(s, t) && TicketOk(s, h, t);
    if s.threads[t].pc.TicketPoll? && s.nowServing == s.threads[t].pc.ticket { Enters(s, h, t); }
  }

  /** Threads 0 to k-1 have drawn, the others have not started. */
  function AllDrawn(threads: nat, k: nat): State
    requires k <= threads
  {
    State(false, ToShort(k), 0, 0,
          seq(threads, i requires 0 <= i < threads => Thread(if i < k then TicketSpin(ToShort(i), 0) else Start, 0)))
  }

  lemma Extend(cfg: Config, states: seq<State>, schedule: seq<nat>, threads: nat, t: nat)
    requires IsRun(cfg, states, schedule, threads) && Enabled(states[|states| - 1], t)
    ensures IsRun(cfg, states + [Step(cfg, states[|states| - 1], t)], schedule + [t], threads)
  {
  }

  lemma {:induction false} DrawAll(cfg: Config, threads: nat, k: nat) returns (states: seq<State>, schedule: seq<nat>)
    requires cfg.kind.Ticket? && cfg.acquisitions > 0 && k <= threads
    ensures IsRun(cfg, states, schedule, threads) && states[|states| - 1] == AllDrawn(threads, k)
  {
    if k == 0 {
      states, schedule := [Init(threads)], [];
    } else {
      states, schedule := DrawAll(cfg, threads, k - 1);
      var s0 := states[|states| - 1];
      Extend(cfg, states, schedule, threads, k - 1);
      var s1 := Step(cfg, s0, k - 1);
      Extend(cfg, states + [s1], schedule + [k - 1], threads, k - 1);
      ToShortNext(k - 1);
      assert Step(cfg, s1, k - 1) == AllDrawn(threads, k);
      states, schedule := states + [s1] + [Step(cfg, s1, k - 1)], schedule + [k - 1] + [k - 1];
    }
  }

  /** With one thread more than there are ticket values two threads share one and both get in. */
  lemma TooManyThreads(cfg: Config, threads: nat) returns (states: seq<State>, schedule: seq<nat>)
    requires cfg.kind.Ticket? && cfg.acquisitions > 0 && threads > SHORT_RANGE
    ensures IsRun(cfg, states, schedule, threads) && !Exclusive(states[|states| - 1])
  {
    states, schedule := DrawAll(cfg, threads, SHORT_RANGE + 1);
    var s0 := states[|states| - 1];
    var twins := [0, 0, SHORT_RANGE, SHORT_RANGE];
    for i := 0 to 4
      invariant IsRun(cfg, states, schedule, threads)
      invariant var s := states[|states| - 1];
        && |s.threads| == threads && s.nowServing == 0
        && s.threads[0].pc == (if i == 0 then TicketSpin(0, 0) else if i == 1 then TicketPoll(0) else Cycle(cfg, 0))
        && s.threads[SHORT_RANGE].pc
           == (if i <= 2 then TicketSpin(0, 0) else if i == 3 then TicketPoll(0) else Cycle(cfg, 0))
    {
      Extend(cfg, states, schedule, threads, twins[i]);
      states, schedule := states + [Step(cfg, states[|states| - 1], twins[i])], schedule + [twins[i]];
    }
  }

  ghost predicate AlwaysExclusive(cfg: Config, threads: nat) {
    forall states: seq<State>, schedule: seq<nat> ::
      IsRun(cfg, states, schedule, threads) ==> forall i :: 0 <= i < |states| ==> Exclusive(states[i])
  }

  /** The ticket lock excludes in all runs if and only if there are no more threads than 16-bit values. */
  lemma TicketLockExact(cfg: Config, threads: nat)
    requires cfg.kind.Ticket? && cfg.acquisitions > 0
    ensures AlwaysExclusive(cfg, threads) <==> threads <= 65536
  {
    if threads <= SHORT_RANGE {
      forall states: seq<State>, schedule: seq<nat>, i | IsRun(cfg, states, schedule, threads) && 0 <= i < |states|
        ensures Exclusive(states[i])
      { MutualExclusion(cfg, states, schedule, threads, i); }
    } else {
      var states, schedule := TooManyThreads(cfg, threads);
      assert !Exclusive(states[|states| - 1]);
    }
  }
}
