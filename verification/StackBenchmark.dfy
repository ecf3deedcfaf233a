/** The correctness benchmark of the stack: P threads push N values each, then
    pop N values each and count what they popped.
  */
module StackBenchmark {
  import opened StackMachine
  import opened AtomicStack
  import opened NodeOwnership
  import opened StackObject
  import opened StackLinearizability
  import opened StackInvariant
  import opened Sums
  import opened Cells

  /** Loop counters of one thread: pushes returned, pops that returned a value, pops that failed. */
  datatype Worker = Worker(pushed: nat, popped: nat, missed: nat)

  /** `log` is `pop_log_array`, one char for each value. */
  datatype Bench = Bench(workers: seq<Worker>, log: seq<nat>)

  const CHAR_RANGE: nat := 256

  function ToPush(n: nat, t: nat, i: nat): nat {
    Cell(n, t, i) % UNSIGNED_RANGE
  }

  function Start(n: nat, p: nat): Bench {
    Bench(seq(p, _ => Worker(0, 0, 0)), seq(n * p, _ => 0))
  }

  predicate Finished(n: nat, w: Worker) {
    w.pushed == n && w.popped + w.missed == n
  }

  /** The step of `one_thread_job` of thread t that goes with what the stack shows of it. */
  predicate ClientStep(n: nat, c: Bench, c': Bench, t: nat, v: Visible) {
    && t < |c.workers|
    && var w := c.workers[t];
       match v
       case Invoke(Push(x)) => w.pushed < n && x == ToPush(n, t, w.pushed) && c' == c
       case Invoke(Pop) => w.pushed >= n && w.popped + w.missed < n && c' == c
       case Respond(Pushed) => c' == c.(workers := c.workers[t := w.(pushed := w.pushed + 1)])
       case Respond(Empty) => c' == c.(workers := c.workers[t := w.(missed := w.missed + 1)])
       case Respond(Popped(x)) =>
         && c'.workers == c.workers[t := w.(popped := w.popped + 1)]
         && (x < |c.log| ==> c'.log == c.log[x := (c.log[x] + 1) % CHAR_RANGE])
       case Hidden => c' == c
  }

  /** Values a thread has in effect pushed and popped. */
  function Pushes(w: Worker, s: Status): nat {
    w.pushed + if s == Done(Pushed) then 1 else 0
  }

  function Pops(w: Worker, s: Status): nat {
    w.popped + if s.Done? && s.result.Popped? then 1 else 0
  }

  function AllPushes(a: Atomic, c: Bench): seq<nat>
    requires |a.status| == |c.workers|
  {
    seq(|c.workers|, t requires 0 <= t < |c.workers| => Pushes(c.workers[t], a.status[t]))
  }

  function AllPops(a: Atomic, c: Bench): seq<nat>
    requires |a.status| == |c.workers|
  {
    seq(|c.workers|, t requires 0 <= t < |c.workers| => Pops(c.workers[t], a.status[t]))
  }

  /** Threads that have popped v but not yet logged it. */
  function Unlogged(a: Atomic, v: nat): seq<nat> {
    seq(|a.status|, t requires 0 <= t < |a.status| => if a.status[t] == Done(Popped(v)) then 1 else 0)
  }

  ghost predicate WorkerOk(n: nat, t: nat, w: Worker, s: Status) {
    && w.missed == 0 && w.pushed <= n && w.popped <= n
    && (w.popped > 0 ==> w.pushed == n)
    && match s
       case Ready => true
       case Called(Push(x)) => w.pushed < n && x == ToPush(n, t, w.pushed)
       case Called(Pop) => w.pushed == n && w.popped < n
       case Done(Pushed) => w.pushed < n
       case Done(Popped(_)) => w.pushed == n && w.popped < n
       case Done(Empty) => false
  }

  /** The i-th value of thread t is on the stack, popped but not yet logged, or logged: once if it has
      been pushed, else not at all. */
  ghost predicate ValueOk(n: nat, a: Atomic, c: Bench, t: nat, i: nat)
    requires t < |c.workers| == |a.status| && Cell(n, t, i) < |c.log|
  {
    var v := Cell(n, t, i);
    multiset(a.contents)[v] + Sum(Unlogged(a, v)) + c.log[v]
    == if i < Pushes(c.workers[t], a.status[t]) then 1 else 0
  }

  ghost predicate Conserved(n: nat, a: Atomic, c: Bench) {
    && |a.status| == |c.workers|
    && (forall t :: 0 <= t < |c.workers| ==> WorkerOk(n, t, c.workers[t], a.status[t]))
    && Sum(AllPushes(a, c)) == |a.contents| + Sum(AllPops(a, c))
    && (forall x :: x in a.contents ==> x < |c.log|)
    && (forall t :: 0 <= t < |c.workers| && a.status[t].Done? && a.status[t].result.Popped? ==>
          a.status[t].result.value < |c.log|)
    && (forall t, i :: 0 <= t < |c.workers| && 0 <= i < n ==> Cell(n, t, i) < |c.log| && ValueOk(n, a, c, t, i))
  }

  /** Pushes of t minus pops of t are at least one while t has a pop under way. */
  lemma {:induction false} SumsApart(xs: seq<nat>, ys: seq<nat>, t: nat)
    requires |xs| == |ys| && t < |xs|
    requires forall i :: 0 <= i < |xs| ==> ys[i] <= xs[i]
    ensures Sum(ys) + xs[t] <= Sum(xs) + ys[t]
  {
    if |xs| == 1 {
    } else if t == 0 {
      SumsApart(xs[1..], ys[1..], 0);
    } else {
      SumsApart(xs[1..], ys[1..], t - 1);
    }
  }

  lemma StatusSums(a: Atomic, a': Atomic, c: Bench, c': Bench, t: nat)
    requires |a.status| == |c.workers| && t < |a.status|
    requires |a'.status| == |a.status| && a'.status == a.status[t := a'.status[t]]
    requires |c'.workers| == |c.workers| && c'.workers == c.workers[t := c'.workers[t]]
    ensures Sum(AllPushes(a', c')) + Pushes(c.workers[t], a.status[t])
         == Sum(AllPushes(a, c)) + Pushes(c'.workers[t], a'.status[t])
    ensures Sum(AllPops(a', c')) + Pops(c.workers[t], a.status[t])
         == Sum(AllPops(a, c)) + Pops(c'.workers[t], a'.status[t])
    ensures forall v: nat :: Sum(Unlogged(a', v)) + (if a.status[t] == Done(Popped(v)) then 1 else 0)
                          == Sum(Unlogged(a, v)) + (if a'.status[t] == Done(Popped(v)) then 1 else 0)
  {
    SumUpdate(AllPushes(a, c), t, Pushes(c'.workers[t], a'.status[t]));
    assert AllPushes(a', c') == AllPushes(a, c)[t := Pushes(c'.workers[t], a'.status[t])];
    SumUpdate(AllPops(a, c), t, Pops(c'.workers[t], a'.status[t]));
    assert AllPops(a', c') == AllPops(a, c)[t := Pops(c'.workers[t], a'.status[t])];
    forall v: nat
      ensures Sum(Unlogged(a', v)) + (if a.status[t] == Done(Popped(v)) then 1 else 0)
           == Sum(Unlogged(a, v)) + (if a'.status[t] == Done(Popped(v)) then 1 else 0)
    {
      var x: nat := if a'.status[t] == Done(Popped(v)) then 1 else 0;
      SumUpdate(Unlogged(a, v), t, x);
      assert Unlogged(a', v) == Unlogged(a, v)[t := x];
    }
  }

  lemma InvokeKeeps(n: nat, a: Atomic, a': Atomic, c: Bench, c': Bench, t: nat, op: Op)
    requires Conserved(n, a, c) && |c.log| <= UNSIGNED_RANGE
    requires AtomicStep(a, a', t, Invoke(op)) && ClientStep(n, c, c', t, Invoke(op))
    ensures Conserved(n, a', c')
  {
    hide Cell;
    StatusSums(a, a', c, c', t);
    assert WorkerOk(n, t, c.workers[t], a.status[t]);
    forall u, i | 0 <= u < |c.workers| && 0 <= i < n
      ensures ValueOk(n, a', c', u, i)
    { assert ValueOk(n, a, c, u, i); }
  }

  /** A push returns. */
  lemma PushedKeeps(n: nat, a: Atomic, a': Atomic, c: Bench, c': Bench, t: nat)
    requires Conserved(n, a, c)
    requires AtomicStep(a, a', t, Respond(Pushed)) && ClientStep(n, c, c', t, Respond(Pushed))
    ensures Conserved(n, a', c')
  {
    hide Cell;
    StatusSums(a, a', c, c', t);
    assert WorkerOk(n, t, c.workers[t], a.status[t]);
    forall u, i | 0 <= u < |c.workers| && 0 <= i < n
      ensures ValueOk(n, a', c', u, i)
    { assert ValueOk(n, a, c, u, i); }
  }

  /** A pop returns x and the thread adds one to cell x of the log. */
  lemma PoppedKeeps(n: nat, a: Atomic, a': Atomic, c: Bench, c': Bench, t: nat, x: nat)
    requires Conserved(n, a, c)
    requires AtomicStep(a, a', t, Respond(Popped(x))) && ClientStep(n, c, c', t, Respond(Popped(x)))
    ensures Conserved(n, a', c')
  {
    hide Cell;
    StatusSums(a, a', c, c', t);
    assert WorkerOk(n, t, c.workers[t], a.status[t]);
    SumAtLeast(Unlogged(a, x), t);
    forall u, i | 0 <= u < |c.workers| && 0 <= i < n
      ensures ValueOk(n, a', c', u, i)
    { assert ValueOk(n, a, c, u, i); }
  }

  lemma PushCommits(n: nat, a: Atomic, a': Atomic, c: Bench, t: nat)
    requires Conserved(n, a, c) && |c.log| <= UNSIGNED_RANGE
    requires Commits(a, a', t) && a.status[t].op.Push?
    ensures Conserved(n, a', c)
  {
    hide Cell;
    StatusSums(a, a', c, c, t);
    assert WorkerOk(n, t, c.workers[t], a.status[t]);
    var k, x := c.workers[t].pushed, a.status[t].op.value;
    assert ValueOk(n, a, c, t, k) && x == Cell(n, t, k);
    forall u, i | 0 <= u < |c.workers| && 0 <= i < n
      ensures ValueOk(n, a', c, u, i)
    {
      assert ValueOk(n, a, c, u, i);
      if Cell(n, u, i) == x { CellsDistinct(n, u, i, t, k); }
    }
  }

  /** The stack cannot be empty when a pop takes effect: the popping thread has pushed more than it
      has popped, and no other thread has popped more than it pushed. */
  lemma PopFinds(n: nat, a: Atomic, c: Bench, t: nat)
    requires Conserved(n, a, c) && t < |c.workers| && a.status[t] == Called(Pop)
    ensures a.contents != []
  {
    forall u | 0 <= u < |c.workers|
      ensures AllPops(a, c)[u] <= AllPushes(a, c)[u]
    { assert WorkerOk(n, u, c.workers[u], a.status[u]); }
    assert WorkerOk(n, t, c.workers[t], a.status[t]);
    SumsApart(AllPushes(a, c), AllPops(a, c), t);
  }

  lemma PopCommits(n: nat, a: Atomic, a': Atomic, c: Bench, t: nat)
    requires Conserved(n, a, c)
    requires Commits(a, a', t) && a.status[t] == Called(Pop)
    ensures Conserved(n, a', c)
  {
    hide Cell;
    PopFinds(n, a, c, t);
    StatusSums(a, a', c, c, t);
    assert WorkerOk(n, t, c.workers[t], a.status[t]);
    var x := a.contents[|a.contents| - 1];
    assert a.contents == a'.contents + [x] && x in a.contents;
    forall y | y in a'.contents
      ensures y < |c.log|
    { assert y in a.contents; }
    forall u, i | 0 <= u < |c.workers| && 0 <= i < n
      ensures Cell(n, u, i) < |c.log| && ValueOk(n, a', c, u, i)
    {
      assert ValueOk(n, a, c, u, i);
      PopMovesValue(a, a', t, x, Cell(n, u, i));
    }
  }

  lemma PopMovesValue(a: Atomic, a': Atomic, t: nat, x: nat, v: nat)
    requires t < |a.status| && !a.status[t].Done? && a.contents == a'.contents + [x]
    requires a'.status == a.status[t := Done(Popped(x))]
    ensures multiset(a'.contents)[v] + Sum(Unlogged(a', v)) == multiset(a.contents)[v] + Sum(Unlogged(a, v))
  {
    SumUpdate(Unlogged(a, v), t, if v == x then 1 else 0);
    assert Unlogged(a', v) == Unlogged(a, v)[t := if v == x then 1 else 0];
  }

  lemma StepConserves(n: nat, a: Atomic, a': Atomic, c: Bench, c': Bench, t: nat, v: Visible)
    requires Conserved(n, a, c) && |c.log| <= UNSIGNED_RANGE
    requires AtomicStep(a, a', t, v) && ClientStep(n, c, c', t, v)
    ensures Conserved(n, a', c')
  {
    assert WorkerOk(n, t, c.workers[t], a.status[t]);
    match v
    case Invoke(op) => InvokeKeeps(n, a, a', c, c', t, op);
    case Respond(Pushed) => PushedKeeps(n, a, a', c, c', t);
    case Respond(Popped(x)) => PoppedKeeps(n, a, a', c, c', t, x);
    case Hidden =>
      if a' != a {
        if a.status[t].op.Push? { PushCommits(n, a, a', c, t); } else { PopCommits(n, a, a', c, t); }
      }
  }

  lemma StartConserved(n: nat, p: nat)
    ensures Conserved(n, AtomicInit(p), Start(n, p))
  {
    var a, c := AtomicInit(p), Start(n, p);
    SumConstant(AllPushes(a, c), 0);
    SumConstant(AllPops(a, c), 0);
    forall u, i | 0 <= u < |c.workers| && 0 <= i < n
      ensures Cell(n, u, i) < |c.log| && ValueOk(n, a, c, u, i)
    {
      CellBound(n, p, u, i);
      SumConstant(Unlogged(a, Cell(n, u, i)), 0);
    }
  }

  /** The threads execute the benchmark, and see `trace` of the stack. */
  ghost predicate IsBenchRun(benches: seq<Bench>, trace: seq<(nat, Visible)>, n: nat, p: nat) {
    && |benches| == |trace| + 1
    && benches[0] == Start(n, p)
    && forall i :: 0 <= i < |trace| ==> ClientStep(n, benches[i], benches[i + 1], trace[i].0, trace[i].1)
  }

  /** How often a pop has answered with this value before step i. */
  function HandedOut(trace: seq<(nat, Visible)>, x: nat, i: nat): nat
    requires i <= |trace|
  {
    if i == 0 then 0 else HandedOut(trace, x, i - 1) + if trace[i - 1].1 == Respond(Popped(x)) then 1 else 0
  }

  predicate FitsLog(v: Visible, size: nat) {
    v.Respond? && v.result.Popped? ==> v.result.value < size
  }

  /** A char of the log holds how often its value has been handed out, modulo 256. */
  lemma {:induction false} LogCounts(benches: seq<Bench>, trace: seq<(nat, Visible)>, n: nat, p: nat, x: nat, i: nat)
    requires IsBenchRun(benches, trace, n, p) && i <= |trace| && x < n * p
    requires forall j :: 0 <= j < i ==> FitsLog(trace[j].1, n * p)
    ensures |benches[i].log| == n * p && benches[i].log[x] == HandedOut(trace, x, i) % 256
  {
    hide ClientStep;
    if i > 0 {
      OneMore(HandedOut(trace, x, i - 1));
      LogCounts(benches, trace, n, p, x, i - 1);
      LogStep(n, benches[i - 1], benches[i], trace[i - 1].0, trace[i - 1].1, x);
    }
  }

  lemma OneMore(k: nat)
    ensures (k % 256 + 1) % 256 == (k + 1) % 256
  {
  }

  lemma LogStep(n: nat, c: Bench, c': Bench, t: nat, v: Visible, x: nat)
    requires ClientStep(n, c, c', t, v) && x < |c.log|
    requires FitsLog(v, |c.log|)
    ensures |c'.log| == |c.log|
    ensures c'.log[x] == if v == Respond(Popped(x)) then (c.log[x] + 1) % 256 else c.log[x]
  {
  }

  lemma {:induction false} RunConserves(atoms: seq<Atomic>, trace: seq<(nat, Visible)>, benches: seq<Bench>, n: nat,
                                        p: nat, i: nat)
    requires IsAtomicRun(atoms, trace, p) && IsBenchRun(benches, trace, n, p) && n * p <= UNSIGNED_RANGE
    requires i < |atoms|
    ensures Conserved(n, atoms[i], benches[i]) && |benches[i].workers| == p && |benches[i].log| == n * p
  {
    if i == 0 {
      StartConserved(n, p);
    } else {
      RunConserves(atoms, trace, benches, n, p, i - 1);
      StepConserves(n, atoms[i - 1], atoms[i], benches[i - 1], benches[i], trace[i - 1].0, trace[i - 1].1);
    }
  }

  /** Every logged value was logged once, and all of them have been when every thread is done. */
  lemma LogExact(n: nat, a: Atomic, c: Bench)
    requires Conserved(n, a, c) && |c.log| == n * |c.workers|
    ensures forall t :: 0 <= t < |c.workers| ==> c.workers[t].missed == 0
    ensures forall v :: 0 <= v < |c.log| ==> c.log[v] <= 1
    ensures (forall t :: 0 <= t < |c.workers| ==> Finished(n, c.workers[t])) ==>
      a.contents == [] && forall v :: 0 <= v < |c.log| ==> c.log[v] == 1
  {
    forall t | 0 <= t < |c.workers|
      ensures c.workers[t].missed == 0
      ensures Finished(n, c.workers[t]) ==> Pushes(c.workers[t], a.status[t]) == n == Pops(c.workers[t], a.status[t])
      ensures Finished(n, c.workers[t]) ==> !a.status[t].Done?
    { assert WorkerOk(n, t, c.workers[t], a.status[t]); }
    if forall t :: 0 <= t < |c.workers| ==> Finished(n, c.workers[t]) {
      SumConstant(AllPushes(a, c), n);
      SumConstant(AllPops(a, c), n);
    }
    forall v: nat | v < |c.log|
      ensures c.log[v] <= 1
      ensures (forall t :: 0 <= t < |c.workers| ==> Finished(n, c.workers[t])) ==> c.log[v] == 1
    {
      var u, j := CellExists(n, |c.workers|, v);
      assert ValueOk(n, a, c, u, j);
      if forall t :: 0 <= t < |c.workers| ==> Finished(n, c.workers[t]) { SumConstant(Unlogged(a, v), 0); }
    }
  }

  /** No pop of the benchmark ever finds the stack empty, and no value is ever logged twice. */
  lemma NoPopFails(states: seq<State>, events: seq<Event>, benches: seq<Bench>, n: nat, p: nat, i: nat)
    requires IsRun(states, events, p) && IsBenchRun(benches, Trace(states, events), n, p)
    requires p <= MAX_HAZARD_POINTERS && n * p <= UNSIGNED_RANGE && i < |states|
    ensures |benches[i].workers| == p && forall t :: 0 <= t < p ==> benches[i].workers[t].missed == 0
    ensures |benches[i].log| == n * p && forall v :: 0 <= v < n * p ==> benches[i].log[v] <= 1
  {
    Linearizable(states, events, p);
    RunConserves(Atoms(states, events), Trace(states, events), benches, n, p, i);
    LogExact(n, Atoms(states, events)[i], benches[i]);
  }

  /** When all threads are done, the stack is empty and every one of the n * p values has been popped
      exactly once: the benchmark passes. */
  lemma BenchmarkPasses(states: seq<State>, events: seq<Event>, benches: seq<Bench>, n: nat, p: nat, i: nat)
    requires IsRun(states, events, p) && IsBenchRun(benches, Trace(states, events), n, p)
    requires p <= MAX_HAZARD_POINTERS && n * p <= UNSIGNED_RANGE && i < |states|
    requires forall t :: 0 <= t < |benches[i].workers| ==> Finished(n, benches[i].workers[t])
    ensures states[i].head == NULL
    ensures |benches[i].log| == n * p && forall v :: 0 <= v < n * p ==> benches[i].log[v] == 1
  {
    Linearizable(states, events, p);
    RunConserves(Atoms(states, events), Trace(states, events), benches, n, p, i);
    LogExact(n, Atoms(states, events)[i], benches[i]);
    EmptyMeansNull(states, events, p, i);
  }

  /** The check at the end, made by the main thread when all others have been joined. */
  method CorrectnessTestPrintout(stack: Stack, slot: nat, log: array<nat>, numThreads: nat, numToPush: nat)
    returns (passed: bool)
    requires stack.Valid() && slot < MAX_HAZARD_POINTERS
    requires log != stack.hazards && log.Length >= numThreads * numToPush
    modifies stack, stack.hazards
    ensures passed <==> old(stack.head) == NULL && forall v :: 0 <= v < numThreads * numToPush ==> old(log[v]) == 1
  {
    hide Layout;
    NullTop(stack.heap, stack.stack, stack.reclaim);
    ghost var logged := log[..];
    var popped := stack.Pop(slot);
    if popped.Some? { return false; }
    var total := numThreads * numToPush;
    for i := 0 to total
      invariant forall v :: 0 <= v < i ==> logged[v] == 1
    {
      assert log[i] == logged[i];
      if log[i] != 1 { return false; }
    }
    return true;
  }

  lemma FinalState(states: seq<State>, events: seq<Event>, benches: seq<Bench>, n: nat, p: nat)
    returns (list: seq<Ptr>, reclaim: seq<Ptr>)
    requires IsRun(states, events, p) && IsBenchRun(benches, Trace(states, events), n, p)
    requires p <= MAX_HAZARD_POINTERS && n * p <= UNSIGNED_RANGE && Quiescent(states[|events|])
    requires forall t :: 0 <= t < |benches[|events|].workers| ==> Finished(n, benches[|events|].workers[t])
    ensures var s, log := states[|events|], benches[|events|].log;
      && Layout(s.heap, list, reclaim) && s.head == Top(list) == NULL && s.toReclaim == Top(reclaim)
      && |s.hazards| == MAX_HAZARD_POINTERS && |log| == n * p && forall v :: 0 <= v < n * p ==> log[v] == 1
  {
    hide Layout, Inv, Finished, IsBenchRun, Quiescent;
    QuiescentLayout(states, events, p, |events|);
    var s := states[|events|];
    list, reclaim :| Layout(s.heap, list, reclaim) && s.head == Top(list) && s.toReclaim == Top(reclaim);
    BenchmarkPasses(states, events, benches, n, p, |events|);
    RunKeepsInv(states, events, p, |events|);
    HasSlots(s, HistoryAt(states, events, |events|));
  }

  lemma HasSlots(s: State, g: History)
    requires Inv(s, g)
    ensures |s.hazards| == MAX_HAZARD_POINTERS
  {
  }

  /** After every run of the benchmark in which all threads have finished and left, the check passes. */
  method FinalCheck(final: State, bench: Bench, ghost states: seq<State>, ghost events: seq<Event>,
                    ghost benches: seq<Bench>,
                    n: nat, p: nat) returns (passed: bool)
    requires IsRun(states, events, p) && IsBenchRun(benches, Trace(states, events), n, p)
    requires p <= MAX_HAZARD_POINTERS && n * p <= UNSIGNED_RANGE
    requires final == states[|events|] && bench == benches[|events|] && Quiescent(final)
    requires forall t :: 0 <= t < |bench.workers| ==> Finished(n, bench.workers[t])
    ensures passed
  {
    hide Layout, IsRun, IsBenchRun, Finished, Quiescent, Enabled;
    ghost var list, reclaim := FinalState(states, events, benches, n, p);
    var stack := new Stack(final.heap, final.head, final.toReclaim, final.counter, final.hazards, list, reclaim);
    var log := new nat[|bench.log|](i requires 0 <= i < |bench.log| => bench.log[i]);
    assert p * n == n * p;
    passed := CorrectnessTestPrintout(stack, 0, log, p, n);
  }
}
