/** The correctness benchmark of the skip list: each of P threads inserts its own K
    keys, searches them, removes them and searches them again.
  */
module ListBenchmark {
  import opened Refs
  import opened ListMemory
  import opened ListMachine
  import opened ListOwnership
  import opened ListLinearizability
  import opened AtomicMap
  import opened Cells

  /** The i-th key of thread t, computed in the width of `num_threads`. */
  function Key(p: nat, t: nat, i: nat): nat {
    Cell(p, i, t) % UNSIGNED_RANGE
  }

  ghost predicate IsKey(p: nat, t: nat, m: nat, x: int) {
    exists i: nat :: i < m && Key(p, t, i) == x
  }

  ghost predicate KeysDisjoint(p: nat, n: nat) {
    forall t: nat, u: nat, i: nat, j: nat ::
      t < p && u < p && i < n && j < n && Key(p, t, i) == Key(p, u, j) ==> t == u
  }

  datatype Phase = Inserting | Checking | Removing | Rechecking | Over

  /** The loop one thread is in, its loop counter and `executed_correctly`. */
  datatype Job = Job(phase: Phase, i: nat, ok: bool)

  type Bench = seq<Job>

  function Start(n: nat, p: nat): Bench {
    seq(p, _ => Job(if n == 0 then Over else Inserting, 0, true))
  }

  function CurrentOp(p: nat, t: nat, job: Job): Op {
    var key := Key(p, t, job.i);
    match job.phase
    case Inserting => Insert(key, key)
    case Removing => Remove(key)
    case _ => Search(key)
  }

  function Following(phase: Phase): Phase {
    match phase
    case Inserting => Checking
    case Checking => Removing
    case Removing => Rechecking
    case _ => Over
  }

  function Judge(phase: Phase, key: nat, r: Result): bool {
    match phase
    case Checking => r == Found(key)
    case Rechecking => !r.Found?
    case _ => true
  }

  function Advance(n: nat, p: nat, t: nat, job: Job, r: Result): Job {
    var ok := job.ok && Judge(job.phase, Key(p, t, job.i), r);
    if job.i + 1 < n then Job(job.phase, job.i + 1, ok) else Job(Following(job.phase), 0, ok)
  }

  /** The step of `correctness_thread_job` of thread t that goes with what the list shows of it. */
  predicate ClientStep(n: nat, c: Bench, c': Bench, t: nat, v: Visible) {
    && t < |c|
    && match v
       case Invoke(op) => !c[t].phase.Over? && op == CurrentOp(|c|, t, c[t]) && c' == c
       case Respond(r) => c' == c[t := Advance(n, |c|, t, c[t], r)]
       case Hidden => c' == c
  }

  ghost predicate IsBenchRun(benches: seq<Bench>, trace: seq<(nat, Visible)>, n: nat, p: nat) {
    && |benches| == |trace| + 1
    && benches[0] == Start(n, p)
    && forall i :: 0 <= i < |trace| ==> ClientStep(n, benches[i], benches[i + 1], trace[i].0, trace[i].1)
  }

  /** Operations of the current loop that have taken effect. */
  function Taken(job: Job, s: Status): nat {
    job.i + if s.Finished? then 1 else 0
  }

  ghost predicate JobOk(n: nat, p: nat, t: nat, job: Job, s: Status) {
    && job.ok && (if job.phase.Over? then s == Ready else job.i < n)
    && match s
       case Ready => true
       case Called(op) => op == CurrentOp(p, t, job)
       case Finished(r) => Judge(job.phase, Key(p, t, job.i), r)
  }

  /** Key x has been put into the list by thread t and not been removed yet. */
  ghost predicate Holds(n: nat, p: nat, t: nat, job: Job, s: Status, x: int) {
    match job.phase
    case Inserting => IsKey(p, t, Taken(job, s), x)
    case Checking => IsKey(p, t, n, x)
    case Removing => IsKey(p, t, n, x) && !IsKey(p, t, Taken(job, s), x)
    case _ => false
  }

  /** The list holds exactly what the threads have inserted and not yet removed, with value = key. */
  ghost predicate BenchInv(n: nat, p: nat, a: Atomic, c: Bench) {
    && |a.status| == |c| == p
    && (forall t :: 0 <= t < p ==> JobOk(n, p, t, c[t], a.status[t]))
    && (forall x :: x in a.contents ==>
          a.contents[x] == x && exists t :: 0 <= t < p && Holds(n, p, t, c[t], a.status[t], x))
    && (forall t, x :: 0 <= t < p && Holds(n, p, t, c[t], a.status[t], x) ==> x in a.contents)
  }

  lemma HoldsKey(n: nat, p: nat, t: nat, job: Job, s: Status, x: int)
    requires JobOk(n, p, t, job, s) && Holds(n, p, t, job, s, x)
    ensures IsKey(p, t, n, x)
  {
  }

  /** The steps that change nothing a thread holds. */
  lemma SameHolds(n: nat, p: nat, a: Atomic, a': Atomic, c: Bench, c': Bench, t: nat)
    requires BenchInv(n, p, a, c) && t < p
    requires |a'.status| == p && a'.status == a.status[t := a'.status[t]] && a'.contents == a.contents
    requires |c'| == p && c' == c[t := c'[t]] && JobOk(n, p, t, c'[t], a'.status[t])
    requires forall x :: Holds(n, p, t, c[t], a.status[t], x) <==> Holds(n, p, t, c'[t], a'.status[t], x)
    ensures BenchInv(n, p, a', c')
  {
    hide Holds, JobOk;
    forall x | x in a'.contents
      ensures a'.contents[x] == x && exists u :: 0 <= u < p && Holds(n, p, u, c'[u], a'.status[u], x)
    {
      var u :| 0 <= u < p && Holds(n, p, u, c[u], a.status[u], x);
      assert Holds(n, p, u, c'[u], a'.status[u], x);
    }
    forall u, x | 0 <= u < p && Holds(n, p, u, c'[u], a'.status[u], x)
      ensures x in a'.contents
    { assert Holds(n, p, u, c[u], a.status[u], x); }
  }

  lemma ReplyKeeps(n: nat, p: nat, a: Atomic, a': Atomic, c: Bench, c': Bench, t: nat, r: Result)
    requires BenchInv(n, p, a, c) && AtomicStep(a, a', t, Respond(r)) && ClientStep(n, c, c', t, Respond(r))
    ensures BenchInv(n, p, a', c')
  {
    assert JobOk(n, p, t, c[t], a.status[t]);
    SameHolds(n, p, a, a', c, c', t);
  }

  lemma CallKeeps(n: nat, p: nat, a: Atomic, a': Atomic, c: Bench, t: nat, op: Op)
    requires BenchInv(n, p, a, c) && AtomicStep(a, a', t, Invoke(op)) && ClientStep(n, c, c, t, Invoke(op))
    ensures BenchInv(n, p, a', c)
  {
    assert JobOk(n, p, t, c[t], a.status[t]);
    SameHolds(n, p, a, a', c, c, t);
  }

  /** A committed write changes what its thread holds by the one key. */
  lemma TakenOneMore(n: nat, p: nat, t: nat, m: nat, x: int)
    ensures IsKey(p, t, m + 1, x) <==> IsKey(p, t, m, x) || x == Key(p, t, m)
  {
    if IsKey(p, t, m + 1, x) {
      var i: nat :| i < m + 1 && Key(p, t, i) == x;
      assert i == m || IsKey(p, t, m, x);
    }
    if IsKey(p, t, m, x) {
      var i: nat :| i < m && Key(p, t, i) == x;
    }
  }

  lemma WriteCommits(n: nat, p: nat, a: Atomic, a': Atomic, c: Bench, t: nat)
    requires BenchInv(n, p, a, c) && KeysDisjoint(p, n) && Commits(a, a', t) && !a.status[t].op.Search?
    ensures BenchInv(n, p, a', c)
  {
    var job, key := c[t], Key(p, t, c[t].i);
    assert JobOk(n, p, t, job, a.status[t]);
    assert IsKey(p, t, n, key);
    forall x
      ensures Holds(n, p, t, job, a'.status[t], x)
         <==> if x == key then job.phase.Inserting? else Holds(n, p, t, job, a.status[t], x)
    { TakenOneMore(n, p, t, job.i, x); }
    forall x | x in a'.contents
      ensures a'.contents[x] == x && exists u :: 0 <= u < p && Holds(n, p, u, c[u], a'.status[u], x)
    {
      if x == key {
        assert Holds(n, p, t, c[t], a'.status[t], x);
      } else {
        var u :| 0 <= u < p && Holds(n, p, u, c[u], a.status[u], x);
        assert Holds(n, p, u, c[u], a'.status[u], x);
      }
    }
    forall u, x | 0 <= u < p && Holds(n, p, u, c[u], a'.status[u], x)
      ensures x in a'.contents
    {
      if u != t {
        assert Holds(n, p, u, c[u], a.status[u], x) && JobOk(n, p, u, c[u], a.status[u]);
        OthersKey(n, p, u, t, c[u], a.status[u], x, c[t].i);
      }
    }
  }

  lemma OthersKey(n: nat, p: nat, u: nat, t: nat, job: Job, s: Status, x: int, i: nat)
    requires KeysDisjoint(p, n) && u < p && t < p && u != t && i < n
    requires JobOk(n, p, u, job, s) && Holds(n, p, u, job, s, x)
    ensures x != Key(p, t, i)
  {
    HoldsKey(n, p, u, job, s, x);
    var j: nat :| j < n && Key(p, u, j) == x;
  }

  lemma SearchCommits(n: nat, p: nat, a: Atomic, a': Atomic, c: Bench, t: nat)
    requires BenchInv(n, p, a, c) && KeysDisjoint(p, n) && Commits(a, a', t) && a.status[t].op.Search?
    ensures BenchInv(n, p, a', c)
  {
    var job, key := c[t], Key(p, t, c[t].i);
    assert JobOk(n, p, t, job, a.status[t]);
    assert IsKey(p, t, n, key);
    if job.phase.Checking? {
      assert Holds(n, p, t, job, a.status[t], key);
    } else if key in a.contents {
      var u :| 0 <= u < p && Holds(n, p, u, c[u], a.status[u], key);
      assert u != t && JobOk(n, p, u, c[u], a.status[u]);
      OthersKey(n, p, u, t, c[u], a.status[u], key, c[t].i);
      assert false;
    }
    SameHolds(n, p, a, a', c, c, t);
  }

  lemma StepKeeps(n: nat, p: nat, a: Atomic, a': Atomic, c: Bench, c': Bench, t: nat, v: Visible)
    requires BenchInv(n, p, a, c) && KeysDisjoint(p, n)
    requires AtomicStep(a, a', t, v) && ClientStep(n, c, c', t, v)
    ensures BenchInv(n, p, a', c')
  {
    match v
    case Invoke(op) => CallKeeps(n, p, a, a', c, t, op);
    case Respond(r) => ReplyKeeps(n, p, a, a', c, c', t, r);
    case Hidden =>
      if a' != a {
        if a.status[t].op.Search? { SearchCommits(n, p, a, a', c, t); } else { WriteCommits(n, p, a, a', c, t); }
      }
  }

  lemma {:induction false} RunKeeps(atoms: seq<Atomic>, trace: seq<(nat, Visible)>, benches: seq<Bench>, n: nat,
                                    p: nat, i: nat)
    requires IsAtomicRun(atoms, trace, p) && IsBenchRun(benches, trace, n, p) && KeysDisjoint(p, n)
    requires i < |atoms|
    ensures BenchInv(n, p, atoms[i], benches[i])
  {
    hide AtomicStep, ClientStep, KeysDisjoint;
    if i > 0 {
      RunKeeps(atoms, trace, benches, n, p, i - 1);
      StepKeeps(n, p, atoms[i - 1], atoms[i], benches[i - 1], benches[i], trace[i - 1].0, trace[i - 1].1);
    }
  }

  /** The thread that uses a key. */
  ghost function Owner(p: nat, n: nat, x: int): nat {
    if exists t: nat :: t < p && IsKey(p, t, n, x) then
      var t: nat :| t < p && IsKey(p, t, n, x); t
    else 0
  }

  lemma OwnerIs(p: nat, n: nat, t: nat, i: nat)
    requires KeysDisjoint(p, n) && t < p && i < n
    ensures Owner(p, n, Key(p, t, i)) == t
  {
    var x := Key(p, t, i);
    assert IsKey(p, t, n, x);
    var u := Owner(p, n, x);
    assert u < p && IsKey(p, u, n, x);
    var j: nat :| j < n && Key(p, u, j) == x;
  }

  /** The clients see the list, and searches come down from the index levels as they do. */
  ghost predicate IsSystemRun(states: seq<State>, events: seq<Event>, benches: seq<Bench>, n: nat, p: nat) {
    && IsRun(states, events, p)
    && IsBenchRun(benches, Trace(states, events), n, p)
    && forall i :: 0 <= i < |events| ==> ComesDown(states[i], events[i])
  }

  lemma {:induction false} JobInRange(trace: seq<(nat, Visible)>, benches: seq<Bench>, n: nat, p: nat, i: nat)
    requires IsBenchRun(benches, trace, n, p) && i < |benches|
    ensures |benches[i]| == p && forall t :: 0 <= t < p ==> benches[i][t].phase.Over? || benches[i][t].i < n
  {
    if i > 0 {
      JobInRange(trace, benches, n, p, i - 1);
      assert ClientStep(n, benches[i - 1], benches[i], trace[i - 1].0, trace[i - 1].1);
    }
  }

  /** The key scheme is the discipline the list needs. */
  lemma BenchIsOwned(states: seq<State>, events: seq<Event>, benches: seq<Bench>, n: nat, p: nat)
    requires IsSystemRun(states, events, benches, n, p) && KeysDisjoint(p, n)
    ensures IsOwnedRun(x => Owner(p, n, x), states, events, p)
  {
    var owner := x => Owner(p, n, x);
    forall i | 0 <= i < |events|
      ensures Disciplined(owner, states[i], events[i])
    {
      var e := events[i];
      JobInRange(Trace(states, events), benches, n, p, i);
      assert Enabled(states[i], e) && ComesDown(states[i], e);
      if e.action.Call? {
        assert Trace(states, events)[i] == (e.thread, Invoke(e.action.op));
        assert ClientStep(n, benches[i], benches[i + 1], e.thread, Invoke(e.action.op));
        OwnerIs(p, n, e.thread, benches[i][e.thread].i);
      }
    }
  }

  /** In every interleaving each thread's first searches hit with value = key and its second searches
      miss: `executed_correctly` is never cleared. */
  lemma NeverFails(states: seq<State>, events: seq<Event>, benches: seq<Bench>, n: nat, p: nat, i: nat)
    requires IsSystemRun(states, events, benches, n, p) && KeysDisjoint(p, n) && i < |states|
    ensures |benches[i]| == p && forall t :: 0 <= t < p ==> benches[i][t].ok
  {
    BenchIsOwned(states, events, benches, n, p);
    Linearizable(x => Owner(p, n, x), states, events, p);
    RunKeeps(Atoms(states), Trace(states, events), benches, n, p, i);
    forall t | 0 <= t < p
      ensures benches[i][t].ok
    { assert JobOk(n, p, t, benches[i][t], Atoms(states)[i].status[t]); }
  }

  lemma OverIsEmpty(n: nat, p: nat, a: Atomic, c: Bench)
    requires BenchInv(n, p, a, c) && forall t :: 0 <= t < |c| ==> c[t].phase.Over?
    ensures a.contents == map[]
  {
    assert forall x :: x !in a.contents;
  }

  /** When all threads are done, every tower that was linked has been marked: the list is empty. */
  lemma EndsEmpty(states: seq<State>, events: seq<Event>, benches: seq<Bench>, n: nat, p: nat, i: nat)
    requires IsSystemRun(states, events, benches, n, p) && KeysDisjoint(p, n) && i < |states|
    requires forall t :: 0 <= t < |benches[i]| ==> benches[i][t].phase.Over?
    ensures forall x :: IsLinked(states[i].mem, x) && x != HEADER ==> states[i].mem[x].marked
  {
    BenchIsOwned(states, events, benches, n, p);
    Linearizable(x => Owner(p, n, x), states, events, p);
    RunKeeps(Atoms(states), Trace(states, events), benches, n, p, i);
    OverIsEmpty(n, p, Atoms(states)[i], benches[i]);
    forall x | IsLinked(states[i].mem, x) && x != HEADER
      ensures states[i].mem[x].marked
    { if !states[i].mem[x].marked { ContentsAt(states[i].mem, x, states[i].mem[x].key); } }
  }

  lemma {:induction false} MultiplesApart(p: nat, x: int, y: int)
    ensures x < y ==> p * x + p <= p * y
    decreases y - x
  {
    if x < y {
      assert p * y == p * (y - 1) + p;
      MultiplesApart(p, x, y - 1);
    }
  }

  lemma Remainder(p: nat, x: int, t: nat)
    requires t < p
    ensures (p * x + t) % p == t
  {
    var q := (p * x + t) / p;
    assert p * x + t == p * q + (p * x + t) % p;
    MultiplesApart(p, q, x);
    MultiplesApart(p, x, q);
  }

  /** When P divides the range of the keys, wrapping keeps the thread number. */
  lemma WrapKeepsThread(p: nat, t: nat, i: nat)
    requires t < p && UNSIGNED_RANGE % p == 0
    ensures Key(p, t, i) % p == t
  {
    var k, m := UNSIGNED_RANGE / p, Cell(p, i, t) / UNSIGNED_RANGE;
    assert UNSIGNED_RANGE == p * k;
    calc {
      Key(p, t, i);
      p * i + t - p * k * m;
      p * (i - k * m) + t;
    }
    Remainder(p, i - k * m, t);
  }

  /** The keys of different threads differ exactly if they do not wrap or wrap in step. */
  lemma KeysDisjointExact(p: nat, n: nat)
    requires p > 0
    ensures KeysDisjoint(p, n) <==> p * n <= 0x1_0000_0000 || 0x1_0000_0000 % p == 0
  {
    if p * n <= UNSIGNED_RANGE || UNSIGNED_RANGE % p == 0 {
      forall t: nat, u: nat, i: nat, j: nat | t < p && u < p && i < n && j < n && Key(p, t, i) == Key(p, u, j)
        ensures t == u
      {
        if UNSIGNED_RANGE % p == 0 {
          WrapKeepsThread(p, t, i);
          WrapKeepsThread(p, u, j);
        } else {
          CellBound(p, n, i, t);
          CellBound(p, n, j, u);
          CellsDistinct(p, i, t, j, u);
        }
      }
    } else {
      var q, r := UNSIGNED_RANGE / p, UNSIGNED_RANGE % p;
      assert p * q + r == UNSIGNED_RANGE;
      assert q < n by { assert q >= n ==> p * q >= p * n; }
      assert Key(p, r, q) == Key(p, 0, 0);
    }
  }

  /** The check of the main thread. */
  method CorrectnessTestPrintout(executedCorrectly: array<bool>, numThreads: nat) returns (passed: bool)
    requires numThreads <= executedCorrectly.Length
    ensures passed <==> forall t :: 0 <= t < numThreads ==> executedCorrectly[t]
  {
    for t := 0 to numThreads
      invariant forall u :: 0 <= u < t ==> executedCorrectly[u]
    {
      if !executedCorrectly[t] { return false; }
    }
    return true;
  }
}
