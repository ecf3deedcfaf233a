/** Why a retired tower outlives every operation that may still reach it. */
module EpochReclamation {
  import opened Epochs
  import opened EpochMachine

  /** Unbounded epochs behind the values modulo 4: the global one, the local one of each cell, and the
      label under which a tower was retired. `known[t]` are the towers retired before the running
      operation of thread t began, `holder` the thread that has the reclaim lock (-1 for none). */
  datatype History = History(global: nat, local: seq<nat>, labels: map<Tower, nat>, known: seq<set<Tower>>, holder: int)

  function InitHistory(threads: nat): History {
    History(0, seq(MAX_THREADS, _ => 0), map[], seq(threads, _ => {}), -1)
  }

  function Track(s: State, h: History, e: Event): History
    requires Enabled(s, e) && |h.local| == MAX_THREADS && |h.known| == |s.threads|
  {
    var t := e.thread;
    match s.threads[t].pc
    case InitClaim(_) => h.(local := h.local[t := h.global])
    case Enter => h.(known := h.known[t := s.retired])
    case Inside => if e.action.Retire? then h.(labels := h.labels[e.action.tower := h.local[t]]) else h
    case LeaveStore(global) => if s.localEpochs[t] != global then h.(local := h.local[t := h.local[t] + 1]) else h
    case TryLock => if s.locked then h else h.(holder := t)
    case Advance(_) => h.(global := h.global + 1)
    case Unlock => h.(holder := -1)
    case _ => h
  }

  /** A claimed cell holds the global epoch or the one before. */
  ghost predicate CellOk(s: State, h: History, i: nat)
    requires i < |s.localEpochs| == |h.local|
  {
    s.localEpochs[i] == UNCLAIMED
    || (s.localEpochs[i] == h.local[i] % NUM_EPOCHS && h.local[i] <= h.global <= h.local[i] + 1)
  }

  /** The scan saw the global epoch in this cell, so it still is there. */
  predicate UpToDate(s: State, h: History, i: nat)
    requires i < |s.localEpochs| == |h.local|
  {
    s.localEpochs[i] == h.local[i] % NUM_EPOCHS && h.local[i] == h.global
  }

  ghost predicate Sized(s: State, h: History) {
    && Shaped(s)
    && |h.local| == MAX_THREADS && |h.known| == |s.threads|
    && h.labels.Keys == s.retired
  }

  ghost predicate ThreadOk(s: State, h: History, t: nat)
    requires Sized(s, h) && t < |s.threads|
  {
    var pc := s.threads[t].pc;
    && (pc.InitLoad? || pc.InitClaim? ==> s.localEpochs[t] == UNCLAIMED)
    && (pc.InitClaim? ==> pc.global == s.globalEpoch)
    && (!pc.InitLoad? && !pc.InitClaim? && !pc.Outside? ==> s.localEpochs[t] != UNCLAIMED)
    && (Running(pc) ==> s.threads[t].epoch == s.localEpochs[t])
    && (pc.LeaveStore? && pc.global != s.localEpochs[t] ==> h.local[t] + 1 == h.global)
    && (Reclaiming(pc) ==> t == h.holder)
    && (pc.Scan? || pc.Exchange? || pc.Free? || pc.Advance? ==> pc.global == s.globalEpoch)
    && (pc.Scan? ==> pc.cell <= MAX_THREADS && forall i :: 0 <= i < pc.cell ==> UpToDate(s, h, i))
    && (Draining(pc) ==> forall i :: 0 <= i < MAX_THREADS ==> UpToDate(s, h, i))
  }

  /** What a running operation may still touch has not been freed. */
  ghost predicate SafeFor(s: State, h: History, t: nat)
    requires Sized(s, h) && t < |s.threads|
  {
    Running(s.threads[t].pc) ==>
      && s.freed <= h.known[t]
      && forall x :: x in s.retired && x !in h.known[t] ==> h.local[t] <= h.labels[x] + 1
  }

  /** The towers a reclaimer has taken off a list and not yet freed. */
  function Batch(s: State, h: History): set<Tower> {
    if 0 <= h.holder < |s.threads| && s.threads[h.holder].pc.Free? then s.threads[h.holder].pc.batch else {}
  }

  predicate Drained(s: State, h: History) {
    0 <= h.holder < |s.threads| && (s.threads[h.holder].pc.Free? || s.threads[h.holder].pc.Advance?)
  }

  /** A retired tower is in the list of its label, in the batch under reclamation, or freed; it stays
      on its list while its label is at most two epochs old. */
  ghost predicate TowerOk(s: State, h: History, x: Tower)
    requires Sized(s, h) && x in s.retired
  {
    var e := h.labels[x];
    && e <= h.global
    && (forall k :: 0 <= k < NUM_EPOCHS && x in s.lists[k] ==>
          && k == e % NUM_EPOCHS && x !in s.freed && x !in Batch(s, h)
          && h.global <= e + if Drained(s, h) then 1 else 2)
    && (x in Batch(s, h) ==> x !in s.freed && e + 2 == h.global)
    && (x in s.freed || x in Batch(s, h) || x in s.lists[e % NUM_EPOCHS])
  }

  ghost predicate Inv(s: State, h: History) {
    && Sized(s, h)
    && s.globalEpoch == h.global % NUM_EPOCHS
    && -1 <= h.holder < |s.threads|
    && (s.locked <==> h.holder >= 0)
    && (h.holder >= 0 ==> Reclaiming(s.threads[h.holder].pc))
    && (forall i :: 0 <= i < MAX_THREADS ==> CellOk(s, h, i) && (i >= |s.threads| ==> s.localEpochs[i] == UNCLAIMED))
    && (forall t :: 0 <= t < |s.threads| ==> ThreadOk(s, h, t))
    && (forall t :: 0 <= t < |s.threads| ==> SafeFor(s, h, t))
    && (forall x :: x in s.retired ==> TowerOk(s, h, x))
    && s.freed <= s.retired && Batch(s, h) <= s.retired
    && (forall k :: 0 <= k < NUM_EPOCHS ==> s.lists[k] <= s.retired)
  }

  lemma InvAt(s: State, h: History, t: nat)
    requires Inv(s, h) && t < |s.threads|
    ensures t < MAX_THREADS && Sized(s, h) && ThreadOk(s, h, t) && SafeFor(s, h, t) && CellOk(s, h, t)
    ensures s.globalEpoch == h.global % NUM_EPOCHS && -1 <= h.holder < |s.threads| && (s.locked <==> h.holder >= 0)
    ensures s.freed <= s.retired
  {
  }

  lemma InvCell(s: State, h: History, i: nat)
    requires Inv(s, h) && i < MAX_THREADS
    ensures CellOk(s, h, i)
  {
  }

  /** When the epoch advances every cell is up to date. */
  lemma AdvanceKnown(s: State, h: History, e: Event, i: nat)
    requires Inv(s, h) && Enabled(s, e) && i < MAX_THREADS
    ensures s.threads[e.thread].pc.Advance? ==> UpToDate(s, h, i)
    ensures i >= |s.threads| ==> s.localEpochs[i] == UNCLAIMED
  {
    assert ThreadOk(s, h, e.thread);
  }

  /** Only `leave_epoch`, `epoch_init` and the advance change an epoch, and none of them a cell a
      scan has passed while the global epoch stands. */
  lemma CellStep(s: State, h: History, e: Event, i: nat)
    requires Inv(s, h) && Enabled(s, e) && i < MAX_THREADS
    ensures Sized(Step(s, e), Track(s, h, e)) && |Step(s, e).threads| == |s.threads|
    ensures CellOk(Step(s, e), Track(s, h, e), i)
    ensures i >= |s.threads| ==> Step(s, e).localEpochs[i] == UNCLAIMED
    ensures UpToDate(s, h, i) && !s.threads[e.thread].pc.Advance? ==> UpToDate(Step(s, e), Track(s, h, e), i)
  {
    hide Inv, SafeFor, TowerOk;
    InvCell(s, h, i);
    InvAt(s, h, e.thread);
    AdvanceKnown(s, h, e, i);
  }

  /** A claimed cell that differs from the global epoch is exactly one behind. */
  lemma LagKnown(s: State, h: History, i: nat)
    requires Inv(s, h) && i < MAX_THREADS
    ensures Sized(s, h)
    ensures s.localEpochs[i] != UNCLAIMED ==>
      if s.localEpochs[i] == s.globalEpoch then UpToDate(s, h, i) else h.local[i] + 1 == h.global
  {
    hide SafeFor, TowerOk, ThreadOk;
    assert CellOk(s, h, i);
  }

  lemma OwnThreadStep(s: State, h: History, e: Event)
    requires Inv(s, h) && Enabled(s, e)
    ensures |Step(s, e).threads| == |s.threads| && Sized(Step(s, e), Track(s, h, e))
    ensures ThreadOk(Step(s, e), Track(s, h, e), e.thread)
  {
    hide Inv, SafeFor, TowerOk, CellOk;
    InvAt(s, h, e.thread);
    LagKnown(s, h, e.thread);
    var pc := s.threads[e.thread].pc;
    if pc.Scan? && pc.cell < MAX_THREADS { LagKnown(s, h, pc.cell); }
    CellStep(s, h, e, e.thread);
    forall i | 0 <= i < MAX_THREADS
      ensures UpToDate(s, h, i) && !s.threads[e.thread].pc.Advance? ==> UpToDate(Step(s, e), Track(s, h, e), i)
    { CellStep(s, h, e, i); }
  }

  /** A step leaves alone the cell of every other thread; only the holder of the lock moves the global
      epoch, and then no other thread is about to claim or to catch up. */
  lemma OthersUntouched(s: State, h: History, e: Event, u: nat)
    requires Inv(s, h) && Enabled(s, e) && u < |s.threads| && u != e.thread
    ensures var s', h' := Step(s, e), Track(s, h, e);
      && |s'.threads| == |s.threads| && Sized(s', h')
      && s'.threads[u] == s.threads[u] && s'.localEpochs[u] == s.localEpochs[u] && h'.local[u] == h.local[u]
      && (Reclaiming(s.threads[u].pc) ==> h'.holder == u && !s.threads[e.thread].pc.Advance?)
      && (s.threads[e.thread].pc.Advance? ==> UpToDate(s, h, u))
      && (!s.threads[e.thread].pc.Advance? ==> s'.globalEpoch == s.globalEpoch && h'.global == h.global)
  {
    hide SafeFor, TowerOk, CellOk;
    assert ThreadOk(s, h, u) && ThreadOk(s, h, e.thread);
  }

  lemma OtherThreadStep(s: State, h: History, e: Event, u: nat)
    requires Inv(s, h) && Enabled(s, e) && u < |s.threads| && u != e.thread
    ensures |Step(s, e).threads| == |s.threads| && Sized(Step(s, e), Track(s, h, e))
    ensures ThreadOk(Step(s, e), Track(s, h, e), u)
  {
    OthersUntouched(s, h, e, u);
    forall i | 0 <= i < MAX_THREADS
      ensures UpToDate(s, h, i) && !s.threads[e.thread].pc.Advance? ==> UpToDate(Step(s, e), Track(s, h, e), i)
    { CellStep(s, h, e, i); }
    assert ThreadOk(s, h, u);
    hide Inv, Step, Track;
  }

  /** A tower that is freed was known as retired when each running operation began: every cell is up
      to date, so an operation that was in flight at the retirement is over. */
  lemma FreeIsSafe(s: State, h: History, e: Event, u: nat)
    requires Inv(s, h) && Enabled(s, e) && u < |s.threads| && Running(s.threads[u].pc)
    requires s.threads[e.thread].pc.Free? && e.action.FreeOne?
    ensures e.action.tower in h.known[u]
  {
    assert ThreadOk(s, h, e.thread) && ThreadOk(s, h, u) && UpToDate(s, h, u);
    assert SafeFor(s, h, u) && TowerOk(s, h, e.action.tower);
  }

  lemma FreedBy(s: State, e: Event)
    requires Enabled(s, e)
    ensures var pc := s.threads[e.thread].pc;
      && (pc.Free? && e.action.FreeOne? ==> Step(s, e).freed == s.freed + {e.action.tower})
      && (!pc.Free? || !e.action.FreeOne? ==> Step(s, e).freed == s.freed)
  {
  }

  /** A thread knows what was retired when its operation began. */
  lemma KnownBy(s: State, h: History, e: Event, u: nat)
    requires Enabled(s, e) && |h.local| == MAX_THREADS && |h.known| == |s.threads|
    requires u < |s.threads| == |Step(s, e).threads| && Running(Step(s, e).threads[u].pc)
    ensures |Track(s, h, e).known| == |s.threads|
    ensures if s.threads[e.thread].pc.Enter? && u == e.thread then Track(s, h, e).known[u] == s.retired
            else Running(s.threads[u].pc) && Track(s, h, e).known[u] == h.known[u]
  {
  }

  lemma FreedStep(s: State, h: History, e: Event, u: nat)
    requires Inv(s, h) && Enabled(s, e) && u < |s.threads| == |Step(s, e).threads|
    requires Running(Step(s, e).threads[u].pc)
    ensures |Track(s, h, e).known| == |s.threads| && Step(s, e).freed <= Track(s, h, e).known[u]
  {
    hide Inv, TowerOk, ThreadOk, CellOk, Step, Track;
    InvAt(s, h, u);
    FreedBy(s, e);
    KnownBy(s, h, e, u);
    if s.threads[e.thread].pc.Free? && e.action.FreeOne? && Running(s.threads[u].pc) { FreeIsSafe(s, h, e, u); }
  }

  lemma LabelStep(s: State, h: History, e: Event, u: nat, x: Tower)
    requires Inv(s, h) && Enabled(s, e) && u < |s.threads| == |Step(s, e).threads|
    requires Running(Step(s, e).threads[u].pc) && Sized(Step(s, e), Track(s, h, e))
    requires x in Step(s, e).retired && x !in Track(s, h, e).known[u]
    ensures Track(s, h, e).local[u] <= Track(s, h, e).labels[x] + 1
  {
    hide Inv, TowerOk, UpToDate;
    InvAt(s, h, u);
    InvAt(s, h, e.thread);
    if x in s.retired { assert Running(s.threads[u].pc) && x !in h.known[u] ==> h.local[u] <= h.labels[x] + 1; }
  }

  lemma SafeStep(s: State, h: History, e: Event, u: nat)
    requires Inv(s, h) && Enabled(s, e) && u < |s.threads|
    ensures |Step(s, e).threads| == |s.threads| && Sized(Step(s, e), Track(s, h, e))
    ensures SafeFor(Step(s, e), Track(s, h, e), u)
  {
    hide Inv;
    StepSized(s, h, e);
    var s', h' := Step(s, e), Track(s, h, e);
    hide Step, Track;
    if Running(s'.threads[u].pc) {
      FreedStep(s, h, e, u);
      forall x | x in s'.retired && x !in h'.known[u]
        ensures h'.local[u] <= h'.labels[x] + 1
      { LabelStep(s, h, e, u, x); }
    }
  }

  lemma StepSized(s: State, h: History, e: Event)
    requires Inv(s, h) && Enabled(s, e)
    ensures Sized(s, h) && |Step(s, e).threads| == |s.threads| && Sized(Step(s, e), Track(s, h, e))
  {
    hide SafeFor, TowerOk, ThreadOk, CellOk;
  }

  /** The steps that neither retire nor reclaim. */
  lemma TowerStays(s: State, h: History, e: Event, x: Tower)
    requires Inv(s, h) && Enabled(s, e) && x in s.retired
    requires !Reclaiming(s.threads[e.thread].pc) && !e.action.Retire?
    ensures Sized(Step(s, e), Track(s, h, e)) && x in Step(s, e).retired
    ensures TowerOk(Step(s, e), Track(s, h, e), x)
  {
    hide SafeFor, CellOk;
    assert TowerOk(s, h, x);
  }

  lemma TowerRetired(s: State, h: History, e: Event, x: Tower)
    requires Inv(s, h) && Enabled(s, e) && s.threads[e.thread].pc.Inside? && e.action.Retire?
    requires x in Step(s, e).retired
    ensures Sized(Step(s, e), Track(s, h, e))
    ensures TowerOk(Step(s, e), Track(s, h, e), x)
  {
    hide SafeFor;
    assert ThreadOk(s, h, e.thread) && CellOk(s, h, e.thread);
    assert Drained(s, h) ==> ThreadOk(s, h, h.holder) && UpToDate(s, h, e.thread);
    if x in s.retired { assert TowerOk(s, h, x); }
  }

  lemma TowerKnown(s: State, h: History, e: Event, x: Tower)
    requires Inv(s, h) && Enabled(s, e) && x in s.retired
    ensures Sized(s, h) && ThreadOk(s, h, e.thread) && TowerOk(s, h, x) && -1 <= h.holder < |s.threads|
    ensures h.holder >= 0 ==> Reclaiming(s.threads[h.holder].pc)
    ensures s.globalEpoch == h.global % NUM_EPOCHS
  {
  }

  lemma TowerTaken(s: State, h: History, e: Event, x: Tower)
    requires Inv(s, h) && Enabled(s, e) && x in s.retired && s.threads[e.thread].pc.Exchange?
    ensures Sized(Step(s, e), Track(s, h, e)) && x in Step(s, e).retired
    ensures TowerOk(Step(s, e), Track(s, h, e), x)
  {
    hide Inv, SafeFor, CellOk, UpToDate;
    TowerKnown(s, h, e, x);
  }

  lemma TowerFreed(s: State, h: History, e: Event, x: Tower)
    requires Inv(s, h) && Enabled(s, e) && x in s.retired && s.threads[e.thread].pc.Free?
    ensures Sized(Step(s, e), Track(s, h, e)) && x in Step(s, e).retired
    ensures TowerOk(Step(s, e), Track(s, h, e), x)
  {
    hide Inv, SafeFor, CellOk, UpToDate;
    TowerKnown(s, h, e, x);
  }

  lemma TowerWaits(s: State, h: History, e: Event, x: Tower)
    requires Inv(s, h) && Enabled(s, e) && x in s.retired
    requires var pc := s.threads[e.thread].pc; Reclaiming(pc) && !pc.Exchange? && !pc.Free?
    ensures Sized(Step(s, e), Track(s, h, e)) && x in Step(s, e).retired
    ensures TowerOk(Step(s, e), Track(s, h, e), x)
  {
    hide Inv, SafeFor, CellOk, UpToDate;
    TowerKnown(s, h, e, x);
  }

  lemma TowerReclaimed(s: State, h: History, e: Event, x: Tower)
    requires Inv(s, h) && Enabled(s, e) && x in s.retired
    requires Reclaiming(s.threads[e.thread].pc)
    ensures Sized(Step(s, e), Track(s, h, e)) && x in Step(s, e).retired
    ensures TowerOk(Step(s, e), Track(s, h, e), x)
  {
    hide Inv, SafeFor, CellOk, UpToDate, TowerOk;
    if s.threads[e.thread].pc.Exchange? {
      TowerTaken(s, h, e, x);
    } else if s.threads[e.thread].pc.Free? {
      TowerFreed(s, h, e, x);
    } else {
      TowerWaits(s, h, e, x);
    }
  }

  lemma TowerStep(s: State, h: History, e: Event, x: Tower)
    requires Inv(s, h) && Enabled(s, e) && x in Step(s, e).retired
    ensures Sized(Step(s, e), Track(s, h, e))
    ensures TowerOk(Step(s, e), Track(s, h, e), x)
  {
    hide SafeFor, TowerOk, ThreadOk, CellOk;
    if s.threads[e.thread].pc.Inside? && e.action.Retire? {
      TowerRetired(s, h, e, x);
    } else if Reclaiming(s.threads[e.thread].pc) {
      TowerReclaimed(s, h, e, x);
    } else {
      TowerStays(s, h, e, x);
    }
  }

  /** What the invariant says of the lock and of the thread that moves. */
  lemma HolderKnown(s: State, h: History, e: Event)
    requires Inv(s, h) && Enabled(s, e)
    ensures Sized(s, h) && s.globalEpoch == h.global % NUM_EPOCHS && -1 <= h.holder < |s.threads|
    ensures (s.locked <==> h.holder >= 0) && (h.holder >= 0 ==> Reclaiming(s.threads[h.holder].pc))
    ensures var pc := s.threads[e.thread].pc;
      (Reclaiming(pc) ==> e.thread == h.holder) && (pc.Advance? ==> pc.global == s.globalEpoch)
  {
    assert ThreadOk(s, h, e.thread);
  }

  lemma HolderStep(s: State, h: History, e: Event)
    requires Inv(s, h) && Enabled(s, e)
    ensures var s', h' := Step(s, e), Track(s, h, e);
      && Sized(s', h') && s'.globalEpoch == h'.global % NUM_EPOCHS
      && -1 <= h'.holder < |s'.threads|
      && (s'.locked <==> h'.holder >= 0)
      && (h'.holder >= 0 ==> Reclaiming(s'.threads[h'.holder].pc))
  {
    hide Inv, ThreadOk;
    HolderKnown(s, h, e);
  }

  lemma SetsStep(s: State, h: History, e: Event)
    requires Inv(s, h) && Enabled(s, e)
    ensures var s', h' := Step(s, e), Track(s, h, e);
      && s'.freed <= s'.retired && Batch(s', h') <= s'.retired
      && |s'.lists| == NUM_EPOCHS && forall k :: 0 <= k < NUM_EPOCHS ==> s'.lists[k] <= s'.retired
  {
    hide SafeFor, TowerOk, CellOk;
    assert ThreadOk(s, h, e.thread);
  }

  lemma StepInv(s: State, h: History, e: Event)
    requires Inv(s, h) && Enabled(s, e)
    ensures Inv(Step(s, e), Track(s, h, e))
  {
    hide SafeFor, TowerOk, ThreadOk, CellOk;
    var s', h' := Step(s, e), Track(s, h, e);
    HolderStep(s, h, e);
    SetsStep(s, h, e);
    forall i | 0 <= i < MAX_THREADS
      ensures CellOk(s', h', i) && (i >= |s'.threads| ==> s'.localEpochs[i] == UNCLAIMED)
    { CellStep(s, h, e, i); }
    forall u | 0 <= u < |s'.threads|
      ensures ThreadOk(s', h', u) && SafeFor(s', h', u)
    {
      if u == e.thread { OwnThreadStep(s, h, e); } else { OtherThreadStep(s, h, e, u); }
      SafeStep(s, h, e, u);
    }
    forall x | x in s'.retired
      ensures TowerOk(s', h', x)
    { TowerStep(s, h, e, x); }
  }

  ghost function HistoryAt(states: seq<State>, events: seq<Event>, i: nat): History
    requires |states| == |events| + 1 && i < |states|
  {
    if i == 0 then InitHistory(|states[0].threads|)
    else
      var h, s := HistoryAt(states, events, i - 1), states[i - 1];
      if Enabled(s, events[i - 1]) && |h.local| == MAX_THREADS && |h.known| == |s.threads|
      then Track(s, h, events[i - 1]) else h
  }

  lemma {:induction false} RunKeepsInv(states: seq<State>, events: seq<Event>, threads: nat, i: nat)
    requires IsRun(states, events, threads) && threads <= MAX_THREADS && i < |states|
    ensures Inv(states[i], HistoryAt(states, events, i)) && |states[i].threads| == threads
  {
    if i == 0 {
    } else {
      RunKeepsInv(states, events, threads, i - 1);
      assert Enabled(states[i - 1], events[i - 1]);
      hide Inv;
      StepInv(states[i - 1], HistoryAt(states, events, i - 1), events[i - 1]);
    }
  }

  /** Reclamation is safe: while an operation runs, no tower that was still in use when it began, that
      is retired only during it, gets freed. */
  lemma {:induction false} NoUseAfterFree(states: seq<State>, events: seq<Event>, threads: nat, u: nat, i: nat, j: nat,
                                          x: Tower)
    requires IsRun(states, events, threads) && threads <= MAX_THREADS && i <= j < |states| && u < threads
    requires forall k :: i <= k <= j ==> |states[k].threads| == threads && Running(states[k].threads[u].pc)
    requires x !in states[i].retired
    ensures x !in states[j].freed
    ensures |HistoryAt(states, events, j).known| == threads && x !in HistoryAt(states, events, j).known[u]
    decreases j
  {
    hide Inv, Step, Track;
    RunKeepsInv(states, events, threads, j);
    InvAt(states[j], HistoryAt(states, events, j), u);
    if i == j {
      KnownRetired(states, events, threads, u, i);
    } else {
      NoUseAfterFree(states, events, threads, u, i, j - 1, x);
      RunKeepsInv(states, events, threads, j - 1);
      assert Enabled(states[j - 1], events[j - 1]);
      KnownKept(states[j - 1], HistoryAt(states, events, j - 1), events[j - 1], u);
    }
  }

  /** What an operation knew as retired when it began stays so until it ends. */
  lemma KnownKept(s: State, h: History, e: Event, u: nat)
    requires Inv(s, h) && Enabled(s, e) && u < |s.threads| == |Step(s, e).threads|
    requires Running(s.threads[u].pc) && Running(Step(s, e).threads[u].pc)
    ensures |h.known| == |Track(s, h, e).known| == |s.threads| && Track(s, h, e).known[u] == h.known[u]
  {
  }

  lemma {:induction false} KnownRetired(states: seq<State>, events: seq<Event>, threads: nat, u: nat, i: nat)
    requires IsRun(states, events, threads) && threads <= MAX_THREADS && i < |states| && u < threads
    ensures |HistoryAt(states, events, i).known| == threads
    ensures HistoryAt(states, events, i).known[u] <= states[i].retired
  {
    RunKeepsInv(states, events, threads, i);
    if i > 0 {
      KnownRetired(states, events, threads, u, i - 1);
      RunKeepsInv(states, events, threads, i - 1);
      assert Enabled(states[i - 1], events[i - 1]);
    }
  }

  /** The epoch before this one, as the code computes it. */
  function Before(epoch: int): int {
    (epoch + NUM_EPOCHS - 1) % NUM_EPOCHS
  }

  /** Past the look at the cells, a reclaimer takes a list, frees it and moves the epoch. */
  predicate Draining(pc: Pc) {
    pc.Exchange? || pc.Free? || pc.Advance?
  }

  /** Every claimed cell holds the global epoch or the one before, and while the batch of a reclaimer is
      freed all 256 cells hold the global one. */
  lemma EpochSkew(states: seq<State>, events: seq<Event>, threads: nat, i: nat, t: nat)
    requires IsRun(states, events, threads) && threads <= 256 && i < |states| && t < 256
    ensures |states[i].localEpochs| == 256 && |states[i].threads| == threads
    ensures var s := states[i];
      && 0 <= s.globalEpoch < 4 && s.localEpochs[t] in {-1, s.globalEpoch, (s.globalEpoch + 3) % 4}
      && (forall u :: 0 <= u < threads && Draining(s.threads[u].pc) ==> s.localEpochs[t] == s.globalEpoch)
  {
    hide Inv, Step, Track, SafeFor;
    RunKeepsInv(states, events, threads, i);
    var s, h := states[i], HistoryAt(states, events, i);
    SkewAt(s, h, t);
    forall u | 0 <= u < threads && Draining(s.threads[u].pc)
      ensures s.localEpochs[t] == s.globalEpoch
    {
      InvAt(s, h, u);
      assert UpToDate(s, h, t);
    }
  }

  lemma InvSized(s: State, h: History)
    requires Inv(s, h)
    ensures Sized(s, h) && s.globalEpoch == h.global % NUM_EPOCHS
    ensures forall k :: 0 <= k < NUM_EPOCHS ==> s.lists[k] <= s.retired
  {
  }

  lemma EpochBefore(e: nat)
    ensures Before((e + 1) % NUM_EPOCHS) == e % NUM_EPOCHS
  {
  }

  lemma SkewAt(s: State, h: History, t: nat)
    requires Inv(s, h) && t < MAX_THREADS
    ensures |s.localEpochs| == MAX_THREADS && s.localEpochs[t] in {UNCLAIMED, s.globalEpoch, Before(s.globalEpoch)}
    ensures |h.local| == MAX_THREADS && s.globalEpoch == h.global % NUM_EPOCHS
  {
    hide Inv, SafeFor, TowerOk, ThreadOk, Before;
    InvSized(s, h);
    InvCell(s, h, t);
    EpochBefore(h.local[t]);
  }

  /** Epochs less than four apart are told apart modulo 4. */
  lemma EpochsDiffer(e: nat, g: nat)
    requires e <= g <= e + 2
    ensures e % NUM_EPOCHS != (g % NUM_EPOCHS + 1) % NUM_EPOCHS
    ensures g <= e + 1 ==> e % NUM_EPOCHS != (g % NUM_EPOCHS + NUM_EPOCHS - 2) % NUM_EPOCHS
  {
  }

  /** The list of the next epoch is empty. */
  lemma NotOnNext(s: State, h: History, x: Tower)
    requires Inv(s, h) && x in s.retired
    ensures |s.lists| == NUM_EPOCHS && x !in s.lists[(s.globalEpoch + 1) % NUM_EPOCHS]
  {
    hide SafeFor, ThreadOk, CellOk;
    assert TowerOk(s, h, x);
    if h.global <= h.labels[x] + 2 { EpochsDiffer(h.labels[x], h.global); }
  }

  lemma NextListEmpty(states: seq<State>, events: seq<Event>, threads: nat, i: nat)
    requires IsRun(states, events, threads) && threads <= MAX_THREADS && i < |states|
    ensures |states[i].lists| == 4 && states[i].lists[(states[i].globalEpoch + 1) % 4] == {}
  {
    hide Inv, TowerOk, SafeFor, ThreadOk, CellOk;
    RunKeepsInv(states, events, threads, i);
    var s, h := states[i], HistoryAt(states, events, i);
    InvSized(s, h);
    forall x | x in s.retired
      ensures x !in s.lists[(s.globalEpoch + 1) % NUM_EPOCHS]
    { NotOnNext(s, h, x); }
  }

  /** A tower is retired to a list that exists, never to the one a reclaimer is draining, and it is
      freed only once. */
  lemma RetireAndFreeOnce(states: seq<State>, events: seq<Event>, threads: nat, i: nat)
    requires IsRun(states, events, threads) && threads <= MAX_THREADS && i < |events|
    ensures |states[i].threads| == threads && events[i].thread < threads
    ensures var s, t := states[i], events[i].thread;
      && (Running(s.threads[t].pc) ==> 0 <= s.threads[t].epoch < NUM_EPOCHS)
      && (Running(s.threads[t].pc) ==>
            forall u :: 0 <= u < threads && (s.threads[u].pc.Free? || s.threads[u].pc.Advance?) ==>
              s.threads[t].epoch != (s.threads[u].pc.global + NUM_EPOCHS - 2) % NUM_EPOCHS)
      && (events[i].action.FreeOne? ==> events[i].action.tower in s.retired - s.freed)
  {
    RunKeepsInv(states, events, threads, i);
    var s, h, t := states[i], HistoryAt(states, events, i), events[i].thread;
    assert Enabled(s, events[i]);
    OneRetirement(s, h, events[i]);
    forall u | 0 <= u < threads && (s.threads[u].pc.Free? || s.threads[u].pc.Advance?) && Running(s.threads[t].pc)
      ensures s.threads[t].epoch != (s.threads[u].pc.global + NUM_EPOCHS - 2) % NUM_EPOCHS
    { NotDrained(s, h, t, u); }
  }

  lemma OneRetirement(s: State, h: History, e: Event)
    requires Inv(s, h) && Enabled(s, e)
    ensures Running(s.threads[e.thread].pc) ==> 0 <= s.threads[e.thread].epoch < NUM_EPOCHS
    ensures e.action.FreeOne? ==> e.action.tower in s.retired - s.freed
  {
    hide SafeFor;
    assert ThreadOk(s, h, e.thread) && CellOk(s, h, e.thread);
    if e.action.FreeOne? { assert TowerOk(s, h, e.action.tower); }
  }

  lemma NotDrained(s: State, h: History, t: nat, u: nat)
    requires Inv(s, h) && t < |s.threads| && u < |s.threads| && Running(s.threads[t].pc)
    requires s.threads[u].pc.Free? || s.threads[u].pc.Advance?
    ensures s.threads[t].epoch != (s.threads[u].pc.global + NUM_EPOCHS - 2) % NUM_EPOCHS
  {
    hide SafeFor, TowerOk;
    assert ThreadOk(s, h, t) && ThreadOk(s, h, u) && UpToDate(s, h, t);
    EpochsDiffer(h.global, h.global);
  }
}
