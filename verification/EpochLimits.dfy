/** When the epoch protocol frees anything at all: exactly when all 256 cells are claimed. */
module EpochLimits {
  import opened Epochs
  import opened EpochMachine
  import opened EpochReclamation

  /** As long as one cell is unclaimed the epoch stands still and nothing is freed. */
  lemma {:induction false} NeedsAllCells(states: seq<State>, events: seq<Event>, threads: nat, i: nat, c: nat)
    requires IsRun(states, events, threads) && threads <= MAX_THREADS && i < |states| && c < MAX_THREADS
    requires c < |states[i].localEpochs| && states[i].localEpochs[c] == UNCLAIMED
    ensures states[i].freed == {} && states[i].globalEpoch == 0
  {
    hide Inv, Step, Track;
    if i > 0 {
      RunKeepsInv(states, events, threads, i - 1);
      var s, h, e := states[i - 1], HistoryAt(states, events, i - 1), events[i - 1];
      assert Enabled(s, e);
      StaysClaimed(s, h, e, c);
      NeedsAllCells(states, events, threads, i - 1, c);
      UnclaimedStep(s, h, e, c);
    }
  }

  /** A claimed cell is never given back. */
  lemma StaysClaimed(s: State, h: History, e: Event, c: nat)
    requires Inv(s, h) && Enabled(s, e) && c < MAX_THREADS
    ensures |Step(s, e).localEpochs| == MAX_THREADS
    ensures s.localEpochs[c] != UNCLAIMED ==> Step(s, e).localEpochs[c] != UNCLAIMED
  {
    hide SafeFor, TowerOk;
    assert ThreadOk(s, h, e.thread) && CellOk(s, h, e.thread);
  }

  lemma UnclaimedStep(s: State, h: History, e: Event, c: nat)
    requires Inv(s, h) && Enabled(s, e) && c < MAX_THREADS && s.localEpochs[c] == UNCLAIMED
    ensures Step(s, e).freed == s.freed && Step(s, e).globalEpoch == s.globalEpoch
  {
    hide Inv, SafeFor, TowerOk;
    InvAt(s, h, e.thread);
    InvCell(s, h, c);
    assert !UpToDate(s, h, c);
  }

  // With all 256 threads.

  ghost predicate Reachable(s: State) {
    exists states: seq<State>, events: seq<Event> :: IsRun(states, events, MAX_THREADS) && states[|events|] == s
  }

  lemma Then(s: State, e: Event) returns (s': State)
    requires Reachable(s) && Enabled(s, e)
    ensures s' == Step(s, e) && Reachable(s')
  {
    var states: seq<State>, events: seq<Event> :| IsRun(states, events, MAX_THREADS) && states[|events|] == s;
    s' := Step(s, e);
    var states', events' := states + [s'], events + [e];
    assert IsRun(states', events', MAX_THREADS) && states'[|events'|] == s';
  }

  /** No thread is inside an operation or reclaiming. */
  ghost predicate Calm(s: State) {
    && Reachable(s) && Shaped(s) && |s.threads| == MAX_THREADS && !s.locked && 0 <= s.globalEpoch < NUM_EPOCHS
    && forall t :: 0 <= t < MAX_THREADS ==> s.threads[t].pc.Outside?
  }

  /** The cell of a thread after an operation that retires nothing. */
  function Visited(cell: int, global: int): int {
    if cell == UNCLAIMED || cell == global then global else (cell + 1) % NUM_EPOCHS
  }

  ghost predicate OnlyCells(s: State, s': State) {
    && Calm(s') && s'.globalEpoch == s.globalEpoch && |s'.localEpochs| == |s.localEpochs|
    && s'.lists == s.lists && s'.retired == s.retired && s'.freed == s.freed
  }

  /** Up to the place inside the operation. */
  lemma GoIn(s: State, t: nat) returns (s': State)
    requires Calm(s) && t < MAX_THREADS
    ensures Reachable(s')
    ensures var cell := if s.localEpochs[t] == UNCLAIMED then s.globalEpoch else s.localEpochs[t];
      s' == s.(threads := s.threads[t := Thread(Inside, cell, false)], localEpochs := s.localEpochs[t := cell])
  {
    s' := Then(s, Event(t, Begin));
    if s.localEpochs[t] == UNCLAIMED {
      s' := Then(s', Event(t, Tau));
      s' := Then(s', Event(t, Tau));
    }
    s' := Then(s', Event(t, Tau));
    assert s'.threads == s.threads[t := s'.threads[t]];
  }

  /** From there to the end of `leave_epoch`. */
  lemma GoOut(s: State, t: nat) returns (s': State)
    requires Reachable(s) && Shaped(s) && t < |s.threads| && s.threads[t].pc.Inside?
    ensures Reachable(s')
    ensures var me := s.threads[t];
      s' == s.(threads := s.threads[t := me.(pc := if me.marked then TryLock else Outside)],
               localEpochs := s.localEpochs[t :=
                 if s.localEpochs[t] == s.globalEpoch then s.globalEpoch else (s.localEpochs[t] + 1) % NUM_EPOCHS])
  {
    s' := Then(s, Event(t, Finish));
    s' := Then(s', Event(t, Tau));
    s' := Then(s', Event(t, Tau));
    assert s'.threads == s.threads[t := s'.threads[t]];
  }

  lemma Visit(s: State, t: nat) returns (s': State)
    requires Calm(s) && t < MAX_THREADS
    ensures OnlyCells(s, s') && s'.localEpochs == s.localEpochs[t := Visited(s.localEpochs[t], s.globalEpoch)]
  {
    s' := GoIn(s, t);
    s' := GoOut(s', t);
  }

  lemma {:induction false} VisitAll(s: State, k: nat) returns (s': State)
    requires Calm(s) && k <= MAX_THREADS
    ensures OnlyCells(s, s')
    ensures forall c :: 0 <= c < MAX_THREADS ==>
      s'.localEpochs[c] == if c < k then Visited(s.localEpochs[c], s.globalEpoch) else s.localEpochs[c]
  {
    if k == 0 {
      s' := s;
    } else {
      s' := VisitAll(s, k - 1);
      s' := Visit(s', k - 1);
    }
  }

  ghost predicate AllCurrent(s: State) {
    Calm(s) && forall c :: 0 <= c < MAX_THREADS ==> s.localEpochs[c] == s.globalEpoch
  }

  /** Every thread comes by once. */
  lemma CatchUp(s: State) returns (s': State)
    requires Calm(s)
    requires forall c :: 0 <= c < MAX_THREADS ==> s.localEpochs[c] in {UNCLAIMED, s.globalEpoch, Before(s.globalEpoch)}
    ensures AllCurrent(s') && OnlyCells(s, s')
  {
    s' := VisitAll(s, MAX_THREADS);
    forall c | 0 <= c < MAX_THREADS
      ensures s'.localEpochs[c] == s'.globalEpoch
    { assert s.localEpochs[c] in {UNCLAIMED, s.globalEpoch, Before(s.globalEpoch)}; }
  }

  lemma {:induction false} ScanTo(s: State, k: nat) returns (s': State)
    requires Reachable(s) && Shaped(s) && |s.threads| == MAX_THREADS && s.threads[0].pc == Scan(s.globalEpoch, 0)
      && k <= MAX_THREADS
    requires forall c :: 0 <= c < MAX_THREADS ==> s.localEpochs[c] == s.globalEpoch
    ensures Reachable(s') && s' == Goto(s, 0, Scan(s.globalEpoch, k))
  {
    if k == 0 {
      s' := s;
    } else {
      s' := ScanTo(s, k - 1);
      s' := Then(s', Event(0, Tau));
    }
  }

  /** Thread 0 retires a tower. */
  lemma RetireFirst(s: State, x: Tower) returns (s': State)
    requires AllCurrent(s) && x !in s.retired
    ensures Reachable(s')
    ensures var g := s.globalEpoch;
      s' == s.(lists := s.lists[g := s.lists[g] + {x}], retired := s.retired + {x},
               threads := s.threads[0 := Thread(TryLock, g, true)])
  {
    s' := GoIn(s, 0);
    assert s'.localEpochs == s.localEpochs;
    s' := Then(s', Event(0, Retire(x)));
    s' := GoOut(s', 0);
    assert s'.localEpochs == s.localEpochs;
    assert s'.threads == s.threads[0 := s'.threads[0]];
  }

  /** It takes the lock and begins to look at the cells. */
  lemma StartScan(s: State) returns (s': State)
    requires Reachable(s) && Shaped(s) && |s.threads| == MAX_THREADS && !s.locked && s.threads[0].pc.TryLock?
    ensures Reachable(s') && s' == Goto(s.(locked := true), 0, Scan(s.globalEpoch, 0))
  {
    s' := Then(s, Event(0, Tau));
    s' := Then(s', Event(0, Tau));
  }

  lemma EndScan(s: State) returns (s': State)
    requires Reachable(s) && Shaped(s) && |s.threads| == MAX_THREADS && 0 <= s.globalEpoch < NUM_EPOCHS
    requires s.threads[0].pc == Scan(s.globalEpoch, MAX_THREADS)
    ensures Reachable(s')
    ensures var g, k := s.globalEpoch, (s.globalEpoch + 2) % NUM_EPOCHS;
      s' == Goto(s.(lists := s.lists[k := {}]), 0, Free(g, s.lists[k]))
  {
    s' := Then(s, Event(0, Tau));
    s' := Then(s', Event(0, Tau));
  }

  /** It finds no cell behind and takes the list of two epochs ago. */
  lemma TakeOldest(s: State) returns (s': State)
    requires Reachable(s) && Shaped(s) && |s.threads| == MAX_THREADS && !s.locked && 0 <= s.globalEpoch < NUM_EPOCHS
    requires s.threads[0].pc.TryLock? && forall c :: 0 <= c < MAX_THREADS ==> s.localEpochs[c] == s.globalEpoch
    ensures Reachable(s')
    ensures var g, k := s.globalEpoch, (s.globalEpoch + 2) % NUM_EPOCHS;
      s' == s.(locked := true, lists := s.lists[k := {}],
               threads := s.threads[0 := s.threads[0].(pc := Free(g, s.lists[k]))])
  {
    hide Reachable;
    s' := StartScan(s);
    s' := ScanTo(s', MAX_THREADS);
    s' := EndScan(s');
    assert s'.threads == s.threads[0 := s'.threads[0]];
  }

  lemma RetireAndTake(s: State, x: Tower) returns (s': State)
    requires AllCurrent(s) && x !in s.retired
    ensures Reachable(s')
    ensures var g, k := s.globalEpoch, (s.globalEpoch + 2) % NUM_EPOCHS;
      s' == s.(locked := true, lists := s.lists[g := s.lists[g] + {x}][k := {}], retired := s.retired + {x},
               threads := s.threads[0 := Thread(Free(g, s.lists[k]), g, true)])
  {
    hide Reachable;
    s' := RetireFirst(s, x);
    s' := TakeOldest(s');
    assert s'.threads == s.threads[0 := s'.threads[0]];
  }

  /** With nothing to free it moves the epoch and gives the lock back. */
  lemma MoveEpoch(s: State) returns (s': State)
    requires Reachable(s) && Shaped(s) && |s.threads| == MAX_THREADS && s.threads[0].pc == Free(s.globalEpoch, {})
    ensures Reachable(s')
    ensures s' == s.(locked := false, globalEpoch := (s.globalEpoch + 1) % NUM_EPOCHS,
                     threads := s.threads[0 := s.threads[0].(pc := Outside)])
  {
    s' := Then(s, Event(0, Tau));
    s' := Then(s', Event(0, Tau));
    s' := Then(s', Event(0, Tau));
    assert s'.threads == s.threads[0 := s'.threads[0]];
  }

  /** A round in which that list is empty moves the epoch. */
  lemma Round(s: State, x: Tower) returns (s': State)
    requires AllCurrent(s) && x !in s.retired && s.lists[(s.globalEpoch + 2) % NUM_EPOCHS] == {}
    ensures AllCurrent(s') && s'.globalEpoch == (s.globalEpoch + 1) % NUM_EPOCHS
    ensures s'.lists == s.lists[s.globalEpoch := s.lists[s.globalEpoch] + {x}]
    ensures s'.retired == s.retired + {x} && s'.freed == s.freed
  {
    hide Reachable;
    s' := RetireAndTake(s, x);
    s' := MoveEpoch(s');
    assert s'.lists == s.lists[s.globalEpoch := s.lists[s.globalEpoch] + {x}];
    s' := CatchUp(s');
  }

  /** After two rounds the tower that the first one retired waits on the list of epoch 0. */
  lemma TwoRounds() returns (s: State)
    ensures AllCurrent(s) && s.globalEpoch == 2 && s.lists[0] == {1} && s.retired == {1, 2} && s.freed == {}
  {
    hide AllCurrent, OnlyCells;
    s := FirstCells();
    s := Round(s, 1);
    s := Round(s, 2);
  }

  /** Every thread has claimed its cell. */
  lemma FirstCells() returns (s: State)
    ensures AllCurrent(s) && s.globalEpoch == 0 && s.retired == {} && s.freed == {}
      && s.lists == Init(MAX_THREADS).lists
  {
    s := Init(MAX_THREADS);
    assert IsRun([s], [], MAX_THREADS) && [s][0] == s;
    s := CatchUp(s);
  }

  /** The third round frees the tower that the first one retired. */
  lemma SomethingFreed() returns (s: State)
    ensures Reachable(s) && s.freed == {1}
  {
    s := TwoRounds();
    s := RetireAndTake(s, 3);
    s := Then(s, Event(0, FreeOne(1)));
  }

  ghost predicate NothingEverFreed(threads: nat) {
    forall states: seq<State>, events: seq<Event>, i: nat ::
      IsRun(states, events, threads) && i < |states| ==> states[i].freed == {}
  }

  /** Memory is ever freed if and only if there are as many threads as cells. */
  lemma FreesExactly(threads: nat)
    requires threads <= 256
    ensures NothingEverFreed(threads) <==> threads < 256
  {
    if threads < MAX_THREADS {
      forall states: seq<State>, events: seq<Event>, i: nat | IsRun(states, events, threads) && i < |states|
        ensures states[i].freed == {}
      {
        RunKeepsInv(states, events, threads, i);
        NeedsAllCells(states, events, threads, i, threads);
      }
    } else {
      var s := SomethingFreed();
      var states: seq<State>, events: seq<Event> :| IsRun(states, events, MAX_THREADS) && states[|events|] == s;
      assert states[|events|].freed != {};
    }
  }
}
