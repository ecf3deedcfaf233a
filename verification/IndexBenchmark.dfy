/** The correctness benchmark on the whole skip list: nothing is assumed but what the code
    of the list and of the benchmark does.
  */
module IndexBenchmark {
  import opened Refs
  import opened IndexMachine
  import opened IndexInvariant
  import opened IndexRefinement
  import opened IndexLinearizability
  import opened AtomicMap
  import B = ListBenchmark
  import O = ListOwnership
  import R = ListLinearizability

  ghost predicate IsSystemRun(states: seq<State>, events: seq<Event>, benches: seq<B.Bench>, n: nat, p: nat) {
    IsRun(states, events, p) && B.IsBenchRun(benches, Trace(states, events), n, p)
  }

  /** The key scheme is the discipline the skip list needs. */
  lemma BenchIsOwned(states: seq<State>, events: seq<Event>, benches: seq<B.Bench>, n: nat, p: nat)
    requires IsSystemRun(states, events, benches, n, p) && B.KeysDisjoint(p, n)
    ensures IsOwnedRun(x => B.Owner(p, n, x), states, events, p)
  {
    var owner := x => B.Owner(p, n, x);
    forall i | 0 <= i < |events|
      ensures Disciplined(owner, events[i])
    {
      var e := events[i];
      B.JobInRange(Trace(states, events), benches, n, p, i);
      assert Enabled(states[i], e);
      if e.action.Call? {
        assert Trace(states, events)[i] == (e.thread, Invoke(e.action.op));
        assert B.ClientStep(n, benches[i], benches[i + 1], e.thread, Invoke(e.action.op));
        B.OwnerIs(p, n, e.thread, benches[i][e.thread].i);
      }
    }
  }

  /** In every interleaving of the steps at all levels `executed_correctly` is never cleared. */
  lemma NeverFails(states: seq<State>, events: seq<Event>, benches: seq<B.Bench>, n: nat, p: nat, i: nat)
    requires IsSystemRun(states, events, benches, n, p) && B.KeysDisjoint(p, n) && i < |states|
    ensures |benches[i]| == p && forall t :: 0 <= t < p ==> benches[i][t].ok
  {
    hide Step, IndexInv;
    BenchIsOwned(states, events, benches, n, p);
    Linearizable(x => B.Owner(p, n, x), states, events, p);
    B.RunKeeps(Atoms(states), Trace(states, events), benches, n, p, i);
    forall t | 0 <= t < p
      ensures benches[i][t].ok
    { assert B.JobOk(n, p, t, benches[i][t], Atoms(states)[i].status[t]); }
  }

  lemma AllMarked(mem: Memory)
    requires O.Unique(MemOf(mem)) && R.Contents(MemOf(mem)) == map[]
    ensures forall x :: x != HEADER && At(mem, x, 0) ==> mem[x].forward[0].marked
  {
    hide R.Contents;
    forall x | x != HEADER && At(mem, x, 0)
      ensures mem[x].forward[0].marked
    {
      TowerAt(mem, x);
      if !mem[x].forward[0].marked { R.ContentsAt(MemOf(mem), x, mem[x].key); }
    }
  }

  /** When all threads are done, every tower that was linked has been marked at the bottom. */
  lemma EndsEmpty(states: seq<State>, events: seq<Event>, benches: seq<B.Bench>, n: nat, p: nat, i: nat)
    requires IsSystemRun(states, events, benches, n, p) && B.KeysDisjoint(p, n) && i < |states|
    requires forall t :: 0 <= t < |benches[i]| ==> benches[i][t].phase.Over?
    ensures forall x :: x != HEADER && At(states[i].mem, x, 0) ==> states[i].mem[x].forward[0].marked
  {
    hide Step, IndexInv, R.Contents, O.Unique, MemOf;
    BenchIsOwned(states, events, benches, n, p);
    Linearizable(x => B.Owner(p, n, x), states, events, p);
    B.RunKeeps(Atoms(states), Trace(states, events), benches, n, p, i);
    assert Atoms(states)[i].contents == R.Contents(MemOf(states[i].mem));
    B.OverIsEmpty(n, p, Atoms(states)[i], benches[i]);
    AllMarked(states[i].mem);
  }
}
