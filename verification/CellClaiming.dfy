/** The walk of `epoch_init` over the cells of the local epochs.

    A failing strong CAS writes the value it found into `previous`, and the walk
    does not reset it, so the next CAS expects that value instead of -1. The cells
    are taken to be all unclaimed at the start; claimed cells may change at any time.
  */
module CellClaiming {
  import opened Epochs
  import opened EpochMachine

  datatype Walker =
    | Loading
    | Walking(cell: nat, previous: int, global: int)
    | Owning(cell: nat)
    | NoCell

  datatype Cells = Cells(cells: seq<int>, walkers: seq<Walker>)

  function Empty(threads: nat): Cells {
    Cells(seq(MAX_THREADS, _ => UNCLAIMED), seq(threads, _ => Loading))
  }

  /** `value` is the global epoch a thread loads, or the new local epoch an owner stores. */
  predicate Ready(s: Cells, t: nat, value: int) {
    |s.cells| == MAX_THREADS && t < |s.walkers| && 0 <= value < NUM_EPOCHS
    && (s.walkers[t].Owning? ==> s.walkers[t].cell < MAX_THREADS)
  }

  function Claim(s: Cells, t: nat, value: int): Cells
    requires Ready(s, t, value)
  {
    match s.walkers[t]
    case Loading => s.(walkers := s.walkers[t := Walking(0, UNCLAIMED, value)])
    case Walking(i, previous, global) =>
      if i >= MAX_THREADS then s.(walkers := s.walkers[t := NoCell])
      else if s.cells[i] == previous then
        Cells(s.cells[i := global], s.walkers[t := Owning(i)])
      else s.(walkers := s.walkers[t := Walking(i + 1, s.cells[i], global)])
    case Owning(i) => s.(cells := s.cells[i := value])
    case NoCell => s
  }

  ghost predicate IsClaimRun(states: seq<Cells>, moves: seq<(nat, int)>, threads: nat) {
    && |states| == |moves| + 1
    && states[0] == Empty(threads)
    && forall i :: 0 <= i < |moves| ==>
         Ready(states[i], moves[i].0, moves[i].1) && states[i + 1] == Claim(states[i], moves[i].0, moves[i].1)
  }

  ghost predicate WalkerOk(s: Cells, t: nat)
    requires t < |s.walkers| && |s.cells| == MAX_THREADS
  {
    match s.walkers[t]
    case Walking(i, previous, global) =>
      && 0 <= global < NUM_EPOCHS && (if i % 2 == 0 then previous == UNCLAIMED else previous != UNCLAIMED)
      && i <= MAX_THREADS && Passed(s, i)
    case Owning(i) => i < MAX_THREADS && i % 2 == 0 && s.cells[i] != UNCLAIMED
    case NoCell => Passed(s, MAX_THREADS)
    case Loading => true
  }

  /** The even cells before this one have been claimed. */
  ghost predicate Passed(s: Cells, i: nat)
    requires |s.cells| == MAX_THREADS
  {
    forall c :: 0 <= c < i && c < MAX_THREADS && c % 2 == 0 ==> s.cells[c] != UNCLAIMED
  }

  predicate IsOwned(walkers: seq<Walker>, cell: nat) {
    Owning(cell) in walkers
  }

  ghost predicate Alternates(s: Cells) {
    && |s.cells| == MAX_THREADS
    && (forall i :: 0 <= i < MAX_THREADS && i % 2 == 1 ==> s.cells[i] == UNCLAIMED)
    && (forall i :: 0 <= i < MAX_THREADS && s.cells[i] != UNCLAIMED ==> IsOwned(s.walkers, i))
    && (forall t :: 0 <= t < |s.walkers| ==> WalkerOk(s, t))
    && (forall t, u :: 0 <= t < u < |s.walkers| && s.walkers[t].Owning? && s.walkers[u].Owning? ==>
          s.walkers[t].cell != s.walkers[u].cell)
  }

  lemma ClaimAlternates(s: Cells, t: nat, value: int)
    requires Alternates(s) && Ready(s, t, value)
    ensures Alternates(Claim(s, t, value))
  {
    var s' := Claim(s, t, value);
    assert WalkerOk(s, t);
    forall c | 0 <= c < MAX_THREADS
      ensures s.cells[c] != UNCLAIMED ==> s'.cells[c] != UNCLAIMED
      ensures s'.cells[c] != UNCLAIMED ==> IsOwned(s'.walkers, c)
    {
      if s.cells[c] != UNCLAIMED {
        var u :| 0 <= u < |s.walkers| && s.walkers[u] == Owning(c);
        assert s'.walkers[u] == Owning(c);
      } else if s'.cells[c] != UNCLAIMED {
        assert s'.walkers[t] == Owning(c);
      }
    }
    forall u | 0 <= u < |s'.walkers|
      ensures WalkerOk(s', u)
    { assert WalkerOk(s, u); }
    forall u | 0 <= u < |s'.walkers| && u != t && s'.walkers[t].Owning? && s'.walkers[u].Owning?
      ensures s'.walkers[u].cell != s'.walkers[t].cell
    { assert WalkerOk(s, u); }
  }

  /** No two threads share a cell, but cells with an odd number are never claimed. */
  lemma {:induction false} OddCellsStayUnclaimed(states: seq<Cells>, moves: seq<(nat, int)>, threads: nat, i: nat)
    requires IsClaimRun(states, moves, threads) && i < |states|
    ensures Alternates(states[i]) && |states[i].walkers| == threads
  {
    if i > 0 {
      OddCellsStayUnclaimed(states, moves, threads, i - 1);
      assert Ready(states[i - 1], moves[i - 1].0, moves[i - 1].1);
      ClaimAlternates(states[i - 1], moves[i - 1].0, moves[i - 1].1);
    }
  }

  /** `reclaim_nodes` wants the global epoch in all 256 cells. Whenever it reads each of them, and whatever
      the global epoch is, some cell holds something else: the epoch never advances, nothing is freed. */
  lemma ScanNeverPasses(states: seq<Cells>, moves: seq<(nat, int)>, threads: nat, readAt: seq<nat>, global: nat)
    requires IsClaimRun(states, moves, threads) && |readAt| == MAX_THREADS
    requires forall c :: 0 <= c < MAX_THREADS ==> readAt[c] < |states|
    ensures exists c :: 0 <= c < MAX_THREADS && c < |states[readAt[c]].cells| && states[readAt[c]].cells[c] != global
  {
    OddCellsStayUnclaimed(states, moves, threads, readAt[1]);
    assert states[readAt[1]].cells[1] == UNCLAIMED;
  }

  lemma {:induction false} OwnersCount(walkers: seq<Walker>, k: nat)
    requires forall j: nat :: j < k ==> IsOwned(walkers, 2 * j)
    ensures k <= |walkers|
  {
    if k > 0 {
      assert IsOwned(walkers, 2 * (k - 1));
      var t :| 0 <= t < |walkers| && walkers[t] == Owning(2 * (k - 1));
      var rest := walkers[..t] + walkers[t + 1..];
      forall j: nat | j < k - 1
        ensures IsOwned(rest, 2 * j)
      { StillOwned(walkers, t, 2 * j); }
      OwnersCount(rest, k - 1);
    }
  }

  lemma StillOwned(walkers: seq<Walker>, t: nat, cell: nat)
    requires t < |walkers| && walkers[t] != Owning(cell) && IsOwned(walkers, cell)
    ensures IsOwned(walkers[..t] + walkers[t + 1..], cell)
  {
    assert walkers == walkers[..t] + [walkers[t]] + walkers[t + 1..];
  }

  /** Only half of the cells can be claimed: a thread that finds none has seen 128 others own one. */
  lemma NoCellNeedsMany(s: Cells, t: nat)
    requires Alternates(s) && t < |s.walkers| && s.walkers[t].NoCell?
    ensures |s.walkers| > MAX_THREADS / 2
  {
    assert WalkerOk(s, t);
    var rest := s.walkers[..t] + s.walkers[t + 1..];
    forall j: nat | j < MAX_THREADS / 2
      ensures IsOwned(rest, 2 * j)
    {
      assert s.cells[2 * j] != UNCLAIMED;
      StillOwned(s.walkers, t, 2 * j);
    }
    OwnersCount(rest, MAX_THREADS / 2);
  }

  /** Threads 0 to k-1 own cells 0, 2, 4, ... and the others have not started. */
  function Taken(threads: nat, k: nat): Cells
    requires k <= threads
  {
    Cells(seq(MAX_THREADS, c => if c % 2 == 0 && c < 2 * k then 0 else UNCLAIMED),
          seq(threads, t requires 0 <= t < threads => if t < k then Owning(2 * t) else Loading))
  }

  lemma Extend(states: seq<Cells>, moves: seq<(nat, int)>, threads: nat, t: nat)
    requires IsClaimRun(states, moves, threads) && Ready(states[|moves|], t, 0)
    ensures IsClaimRun(states + [Claim(states[|moves|], t, 0)], moves + [(t, 0)], threads)
  {
  }

  /** Thread k walks over what the others have left: each taken cell makes it skip the free one after. */
  lemma {:induction false} Walk(threads: nat, k: nat, i: nat) returns (states: seq<Cells>, moves: seq<(nat, int)>)
    requires k < threads && k <= MAX_THREADS / 2 && i <= 2 * k
    ensures IsClaimRun(states, moves, threads)
    ensures states[|moves|] == Taken(threads, k).(walkers :=
      Taken(threads, k).walkers[k := Walking(i, if i % 2 == 0 then UNCLAIMED else 0, 0)])
    decreases k, i + 1
  {
    if i == 0 {
      states, moves := TakeAll(threads, k);
    } else {
      states, moves := Walk(threads, k, i - 1);
    }
    var s := states[|moves|];
    assert s.walkers[k] == Loading || s.walkers[k].Walking?;
    Extend(states, moves, threads, k);
    states, moves := states + [Claim(s, k, 0)], moves + [(k, 0)];
  }

  lemma {:induction false} TakeAll(threads: nat, k: nat) returns (states: seq<Cells>, moves: seq<(nat, int)>)
    requires k <= threads && k <= MAX_THREADS / 2
    ensures IsClaimRun(states, moves, threads) && states[|moves|] == Taken(threads, k)
    decreases k, 0
  {
    if k == 0 {
      states, moves := [Empty(threads)], [];
      assert Taken(threads, 0) == Empty(threads);
    } else {
      states, moves := Walk(threads, k - 1, 2 * (k - 1));
      var s := states[|moves|];
      Extend(states, moves, threads, k - 1);
      states, moves := states + [Claim(s, k - 1, 0)], moves + [(k - 1, 0)];
      assert Claim(s, k - 1, 0).cells == Taken(threads, k).cells;
    }
  }

  /** `epoch_init` never comes back empty-handed. */
  ghost predicate NeverRunsOut(threads: nat) {
    forall states: seq<Cells>, moves: seq<(nat, int)>, i: nat ::
      IsClaimRun(states, moves, threads) && i < |states| ==> NoCell !in states[i].walkers
  }

  /** As the walk is written there are cells for 128 threads and no more. */
  lemma CapacityExact(threads: nat)
    ensures NeverRunsOut(threads) <==> threads <= 128
  {
    if threads <= MAX_THREADS / 2 {
      forall states: seq<Cells>, moves: seq<(nat, int)>, i: nat | IsClaimRun(states, moves, threads) && i < |states|
        ensures NoCell !in states[i].walkers
      {
        OddCellsStayUnclaimed(states, moves, threads, i);
        if t :| 0 <= t < |states[i].walkers| && states[i].walkers[t] == NoCell { NoCellNeedsMany(states[i], t); }
      }
    } else {
      var k := MAX_THREADS / 2;
      var states, moves := Walk(threads, k, MAX_THREADS);
      var s := states[|moves|];
      Extend(states, moves, threads, k);
      states, moves := states + [Claim(s, k, 0)], moves + [(k, 0)];
      assert states[|moves|].walkers[k] == NoCell;
    }
  }
}
