/** The matrix product with its rows split between threads. Nothing is assumed about
    addition and multiplication, so the order of the additions in each cell counts.
  */
module MatrixProduct {

  datatype Scalars<!T> = Scalars(zero: T, add: (T, T) -> T, mul: (T, T) -> T)

  type Matrix<T> = seq<seq<T>>

  predicate IsSquare<T>(m: Matrix<T>, rank: nat) {
    |m| == rank && forall i :: 0 <= i < rank ==> |m[i]| == rank
  }

  /** The first n products of two rows, added to init from the left. */
  function Fold<T>(ops: Scalars<T>, init: T, xs: seq<T>, ys: seq<T>, n: nat): T
    requires n <= |xs| && n <= |ys|
  {
    if n == 0 then init else ops.add(Fold(ops, init, xs, ys, n - 1), ops.mul(xs[n - 1], ys[n - 1]))
  }

  function Transposed<T>(m: Matrix<T>, rank: nat): (r: Matrix<T>)
    requires IsSquare(m, rank)
    ensures IsSquare(r, rank) && forall i, j :: 0 <= i < rank && 0 <= j < rank ==> r[j][i] == m[i][j]
  {
    seq(rank, j requires 0 <= j < rank => seq(rank, i requires 0 <= i < rank => m[i][j]))
  }

  /** The partial sums of cell i, j: zero, and then row i of the first times column j of the second, one
      product after the other. */
  ghost predicate PartialSums<T>(ops: Scalars<T>, rank: nat, first: Matrix<T>, second: Matrix<T>, i: nat, j: nat,
                                 sums: seq<T>)
    requires IsSquare(first, rank) && IsSquare(second, rank) && i < rank && j < rank
  {
    && |sums| == rank + 1 && sums[0] == ops.zero
    && forall k :: 0 <= k < rank ==> sums[k + 1] == ops.add(sums[k], ops.mul(first[i][k], second[k][j]))
  }

  ghost predicate IsProduct<T(!new)>(ops: Scalars<T>, rank: nat, first: Matrix<T>, second: Matrix<T>, result: Matrix<T>)
    requires IsSquare(first, rank) && IsSquare(second, rank)
  {
    && IsSquare(result, rank)
    && forall i, j :: 0 <= i < rank && 0 <= j < rank ==> IsCell(ops, rank, first, second, i, j, result[i][j])
  }

  ghost predicate IsCell<T(!new)>(ops: Scalars<T>, rank: nat, first: Matrix<T>, second: Matrix<T>, i: nat, j: nat, x: T)
    requires IsSquare(first, rank) && IsSquare(second, rank) && i < rank && j < rank
  {
    exists sums :: PartialSums(ops, rank, first, second, i, j, sums) && x == sums[rank]
  }

  /** A row times a row of the transposed matrix. */
  lemma FoldsAreProduct<T(!new)>(ops: Scalars<T>, rank: nat, first: Matrix<T>, second: Matrix<T>, result: Matrix<T>)
    requires IsSquare(first, rank) && IsSquare(second, rank) && IsSquare(result, rank)
    requires forall i, j :: 0 <= i < rank && 0 <= j < rank ==>
      result[i][j] == Fold(ops, ops.zero, first[i], Transposed(second, rank)[j], rank)
    ensures IsProduct(ops, rank, first, second, result)
  {
    var columns := Transposed(second, rank);
    forall i, j | 0 <= i < rank && 0 <= j < rank
      ensures IsCell(ops, rank, first, second, i, j, result[i][j])
    {
      var sums := seq(rank + 1, k requires 0 <= k <= rank => Fold(ops, ops.zero, first[i], columns[j], k));
      assert forall k :: 0 <= k < rank ==> columns[j][k] == second[k][j];
      assert PartialSums(ops, rank, first, second, i, j, sums) && sums[rank] == result[i][j];
    }
  }

  /** There is only one. */
  lemma ProductIsUnique<T(!new)>(ops: Scalars<T>, rank: nat, first: Matrix<T>, second: Matrix<T>, r: Matrix<T>,
                                 r': Matrix<T>)
    requires IsSquare(first, rank) && IsSquare(second, rank)
    requires IsProduct(ops, rank, first, second, r) && IsProduct(ops, rank, first, second, r')
    ensures r == r'
  {
    forall i, j | 0 <= i < rank && 0 <= j < rank
      ensures r[i][j] == r'[i][j]
    {
      assert IsCell(ops, rank, first, second, i, j, r[i][j]) && IsCell(ops, rank, first, second, i, j, r'[i][j]);
      var sums :| PartialSums(ops, rank, first, second, i, j, sums) && r[i][j] == sums[rank];
      var sums' :| PartialSums(ops, rank, first, second, i, j, sums') && r'[i][j] == sums'[rank];
      SameSums(ops, rank, first, second, i, j, sums, sums', rank);
    }
    assert forall i :: 0 <= i < rank ==> r[i] == r'[i];
  }

  lemma {:induction false} SameSums<T>(ops: Scalars<T>, rank: nat, first: Matrix<T>, second: Matrix<T>, i: nat, j: nat,
                                       sums: seq<T>, sums': seq<T>, k: nat)
    requires IsSquare(first, rank) && IsSquare(second, rank) && i < rank && j < rank && k <= rank
    requires PartialSums(ops, rank, first, second, i, j, sums) && PartialSums(ops, rank, first, second, i, j, sums')
    ensures sums[k] == sums'[k]
  {
    if k > 0 { SameSums(ops, rank, first, second, i, j, sums, sums', k - 1); }
  }

  // The row ranges of the threads.

  function Left(rank: nat, threads: nat, t: nat): nat
    requires t < threads
  {
    t * (rank / threads)
  }

  function Right(rank: nat, threads: nat, t: nat): nat
    requires t < threads
  {
    if t == threads - 1 then rank else (t + 1) * (rank / threads)
  }

  predicate Owns(rank: nat, threads: nat, t: nat, i: nat)
    requires t < threads
  {
    Left(rank, threads, t) <= i < Right(rank, threads, t)
  }

  lemma Monotone(a: nat, b: nat, c: nat)
    requires a <= b
    ensures a * c <= b * c
  {
    assert b * c - a * c == (b - a) * c;
  }

  lemma RangeOk(rank: nat, threads: nat, t: nat)
    requires t < threads
    ensures Left(rank, threads, t) <= Right(rank, threads, t) <= rank
  {
    var c := rank / threads;
    assert threads * c <= rank;
    Monotone(t, threads, c);
    Monotone(t + 1, threads, c);
    Monotone(t, t + 1, c);
  }

  /** For any number of threads but none the ranges cut the rows into disjoint pieces. */
  lemma RowsPartitioned(rank: nat, threads: nat, i: nat)
    requires i < rank && threads > 0
    ensures exists t: nat :: t < threads && Owns(rank, threads, t, i)
    ensures forall t: nat, u: nat ::
      t < threads && u < threads && Owns(rank, threads, t, i) && Owns(rank, threads, u, i) ==> t == u
  {
    var t := FindOwner(rank, threads, i, threads);
    forall t: nat, u: nat | t < u < threads
      ensures !(Owns(rank, threads, t, i) && Owns(rank, threads, u, i))
    { Monotone(t + 1, u, rank / threads); }
  }

  /** The last thread whose range does not begin after the row. */
  lemma {:induction false} FindOwner(rank: nat, threads: nat, i: nat, n: nat) returns (t: nat)
    requires i < rank && 0 < n <= threads && (n < threads ==> i < Left(rank, threads, n))
    ensures t < threads && Owns(rank, threads, t, i)
    decreases n
  {
    if Left(rank, threads, n - 1) <= i {
      t := n - 1;
    } else {
      t := FindOwner(rank, threads, i, n - 1);
    }
  }

  // The program, one thread after the other.

  ghost function Rows<T>(a: array2<T>): (m: Matrix<T>)
    reads a
    ensures |m| == a.Length0
    ensures forall i :: 0 <= i < a.Length0 ==> |m[i]| == a.Length1
    ensures forall i, j :: 0 <= i < a.Length0 && 0 <= j < a.Length1 ==> m[i][j] == a[i, j]
  {
    seq(a.Length0, i requires 0 <= i < a.Length0 reads a =>
      seq(a.Length1, j requires 0 <= j < a.Length1 reads a => a[i, j]))
  }

  method ManyThreads<T>(ops: Scalars<T>, first: array2<T>, second: array2<T>, result: array2<T>, left: nat, right: nat,
                        size: nat)
    requires first.Length0 == first.Length1 == second.Length0 == second.Length1 == size
    requires result.Length0 == result.Length1 == size
    requires left <= right <= size && result != first && result != second
    modifies result
    ensures forall i, j :: 0 <= i < size && 0 <= j < size ==>
      result[i, j] == if left <= i < right then Fold(ops, old(result[i, j]), Rows(first)[i], Rows(second)[j], size)
                      else old(result[i, j])
  {
    ghost var m1, m2 := Rows(first), Rows(second);
    for i := left to right
      invariant forall x, y :: 0 <= x < size && 0 <= y < size ==>
        result[x, y] == if left <= x < i then Fold(ops, old(result[x, y]), m1[x], m2[y], size) else old(result[x, y])
    {
      for j := 0 to size
        invariant forall x, y :: 0 <= x < size && 0 <= y < size ==>
          result[x, y] == if left <= x < i || (x == i && y < j) then Fold(ops, old(result[x, y]), m1[x], m2[y], size)
                          else old(result[x, y])
      {
        for k := 0 to size
          invariant forall x, y :: 0 <= x < size && 0 <= y < size && (x != i || y != j) ==>
            result[x, y] == if left <= x < i || (x == i && y < j) then Fold(ops, old(result[x, y]), m1[x], m2[y], size)
                            else old(result[x, y])
          invariant result[i, j] == Fold(ops, old(result[i, j]), m1[i], m2[j], k)
        {
          result[i, j] := ops.add(result[i, j], ops.mul(first[i, k], second[j, k]));
        }
      }
    }
  }

  method Transpose<T>(ops: Scalars<T>, second: array2<T>) returns (transponent: array2<T>)
    requires second.Length0 == second.Length1
    ensures fresh(transponent) && transponent.Length0 == transponent.Length1 == second.Length0
    ensures Rows(transponent) == Transposed(Rows(second), second.Length0)
  {
    var rank := second.Length0;
    transponent := new T[rank, rank]((i, j) => ops.zero);
    for i := 0 to rank
      invariant forall x, y :: 0 <= x < i && 0 <= y < rank ==> transponent[y, x] == second[x, y]
    {
      for j := 0 to rank
        invariant forall x, y :: 0 <= x < rank && 0 <= y < rank && (x < i || (x == i && y < j)) ==>
          transponent[y, x] == second[x, y]
      {
        transponent[j, i] := second[i, j];
      }
    }
    SameRows(transponent, Transposed(Rows(second), rank));
  }

  /** The rows before this one are those of the threads before t. */
  function Covered(rank: nat, threads: nat, t: nat): nat
    requires t <= threads
  {
    if t == 0 then 0 else Right(rank, threads, t - 1)
  }

  lemma CoveredNext(rank: nat, threads: nat, t: nat)
    requires t < threads
    ensures Covered(rank, threads, t) == Left(rank, threads, t) <= Right(rank, threads, t)
    ensures Right(rank, threads, t) == Covered(rank, threads, t + 1) <= rank
  {
    RangeOk(rank, threads, t);
  }

  /** With at least one thread the result is the product; with none it is all zeros. */
  method Multiply<T(!new)>(ops: Scalars<T>, first: array2<T>, second: array2<T>, threads: nat)
    returns (result: array2<T>)
    requires first.Length0 == first.Length1 == second.Length0 == second.Length1
    ensures fresh(result) && result.Length0 == result.Length1 == first.Length0
    ensures threads > 0 ==> IsProduct(ops, first.Length0, Rows(first), Rows(second), Rows(result))
    ensures threads == 0 ==> forall i, j :: 0 <= i < first.Length0 && 0 <= j < first.Length0 ==>
      result[i, j] == ops.zero
  {
    hide Left, Right, Covered, Rows, Transposed, Fold;
    var rank := first.Length0;
    var transponent := Transpose(ops, second);
    result := new T[rank, rank]((i, j) => ops.zero);
    ghost var m1, m2 := Rows(first), Rows(transponent);
    CoveredEnds(rank, threads);
    for i := 0 to threads
      invariant Rows(first) == m1 && Rows(transponent) == m2
      invariant forall x, y :: 0 <= x < rank && 0 <= y < rank ==>
        result[x, y] == if x < Covered(rank, threads, i) then Fold(ops, ops.zero, m1[x], m2[y], rank) else ops.zero
    {
      CoveredNext(rank, threads, i);
      ManyThreads(ops, first, transponent, result, Left(rank, threads, i), Right(rank, threads, i), rank);
    }
    if threads > 0 { RowsAreProduct(ops, first, second, transponent, result); }
  }

  lemma RowsAreProduct<T(!new)>(ops: Scalars<T>, first: array2<T>, second: array2<T>, transponent: array2<T>,
                          result: array2<T>)
    requires var rank := first.Length0;
      && first.Length1 == second.Length0 == second.Length1 == transponent.Length0 == transponent.Length1 == rank
      && result.Length0 == result.Length1 == rank
      && Rows(transponent) == Transposed(Rows(second), rank)
      && forall i, j :: 0 <= i < rank && 0 <= j < rank ==>
           result[i, j] == Fold(ops, ops.zero, Rows(first)[i], Rows(transponent)[j], rank)
    ensures IsProduct(ops, first.Length0, Rows(first), Rows(second), Rows(result))
  {
    hide Fold;
    FoldsAreProduct(ops, first.Length0, Rows(first), Rows(second), Rows(result));
  }

  lemma CoveredEnds(rank: nat, threads: nat)
    ensures Covered(rank, threads, 0) == 0 && (threads > 0 ==> Covered(rank, threads, threads) == rank)
  {
  }

  lemma SameRows<T>(a: array2<T>, m: Matrix<T>)
    requires |m| == a.Length0 && forall i :: 0 <= i < |m| ==> |m[i]| == a.Length1
    requires forall i, j :: 0 <= i < a.Length0 && 0 <= j < a.Length1 ==> a[i, j] == m[i][j]
    ensures Rows(a) == m
  {
    forall i | 0 <= i < |m|
      ensures Rows(a)[i] == m[i]
    {
    }
  }

  // All threads at once.

  /** A worker is about to read its cell, or to write it back with the next product added. */
  datatype Worker<T> = Reading(i: nat, j: nat, k: nat) | Writing(i: nat, j: nat, k: nat, sum: T)

  datatype State<T> = State(result: Matrix<T>, workers: seq<Worker<T>>)

  /** What does not change during a run: `second` is the transposed matrix. */
  datatype Task<!T> = Task(ops: Scalars<T>, rank: nat, first: Matrix<T>, second: Matrix<T>, threads: nat)

  predicate TaskOk<T>(task: Task<T>) {
    IsSquare(task.first, task.rank) && IsSquare(task.second, task.rank)
  }

  function Init<T>(task: Task<T>): State<T> {
    State(seq(task.rank, _ => seq(task.rank, _ => task.ops.zero)),
          seq(task.threads, t requires 0 <= t < task.threads => Reading(Left(task.rank, task.threads, t), 0, 0)))
  }

  predicate Running<T>(task: Task<T>, s: State<T>, t: nat) {
    t < |s.workers| == task.threads && s.workers[t].i < Right(task.rank, task.threads, t)
  }

  function Advance<T>(rank: nat, i: nat, j: nat, k: nat): Worker<T> {
    if k + 1 < rank then Reading(i, j, k + 1) else if j + 1 < rank then Reading(i, j + 1, 0) else Reading(i + 1, 0, 0)
  }

  predicate CanStep<T>(task: Task<T>, s: State<T>, t: nat) {
    && TaskOk(task) && IsSquare(s.result, task.rank) && Running(task, s, t)
    && s.workers[t].i < task.rank && s.workers[t].j < task.rank && s.workers[t].k < task.rank
  }

  function Step<T>(task: Task<T>, s: State<T>, t: nat): State<T>
    requires CanStep(task, s, t)
  {
    match s.workers[t]
    case Reading(i, j, k) => s.(workers := s.workers[t := Writing(i, j, k, s.result[i][j])])
    case Writing(i, j, k, sum) =>
      var x := task.ops.add(sum, task.ops.mul(task.first[i][k], task.second[j][k]));
      State(s.result[i := s.result[i][j := x]], s.workers[t := Advance(task.rank, i, j, k)])
  }

  ghost predicate IsRun<T>(task: Task<T>, states: seq<State<T>>, schedule: seq<nat>) {
    && |states| == |schedule| + 1 && states[0] == Init(task)
    && forall n :: 0 <= n < |schedule| ==>
      CanStep(task, states[n], schedule[n]) && states[n + 1] == Step(task, states[n], schedule[n])
  }

  /** The products a worker has added to a cell of its rows. */
  function Progress<T>(rank: nat, w: Worker<T>, i: nat, j: nat): nat {
    if i < w.i || (i == w.i && j < w.j) then rank else if i == w.i && j == w.j then w.k else 0
  }

  ghost predicate WorkerOk<T>(task: Task<T>, s: State<T>, t: nat)
    requires t < |s.workers| == task.threads && IsSquare(s.result, task.rank)
  {
    var w := s.workers[t];
    && Left(task.rank, task.threads, t) <= w.i <= Right(task.rank, task.threads, t) <= task.rank
    && (if w.i < Right(task.rank, task.threads, t) then w.j < task.rank && w.k < task.rank
        else w.Reading? && w.j == w.k == 0)
    && (w.Writing? ==> w.sum == s.result[w.i][w.j])
  }

  ghost predicate CellOk<T>(task: Task<T>, s: State<T>, t: nat, i: nat, j: nat)
    requires TaskOk(task) && t < |s.workers| && IsSquare(s.result, task.rank) && i < task.rank && j < task.rank
  {
    Progress(task.rank, s.workers[t], i, j) <= task.rank &&
    s.result[i][j] == Fold(task.ops, task.ops.zero, task.first[i], task.second[j],
                           Progress(task.rank, s.workers[t], i, j))
  }

  ghost predicate Inv<T>(task: Task<T>, s: State<T>) {
    && TaskOk(task) && IsSquare(s.result, task.rank) && |s.workers| == task.threads
    && (forall t :: 0 <= t < task.threads ==> WorkerOk(task, s, t))
    && (forall t: nat, i: nat, j: nat ::
          t < task.threads && i < task.rank && j < task.rank && Owns(task.rank, task.threads, t, i) ==>
            CellOk(task, s, t, i, j))
  }

  lemma OneOwner(rank: nat, threads: nat, t: nat, u: nat, i: nat)
    requires t < threads && u < threads && t != u && i < rank
    ensures !(Owns(rank, threads, t, i) && Owns(rank, threads, u, i))
  {
    RowsPartitioned(rank, threads, i);
  }

  lemma WorkerKept<T>(task: Task<T>, s: State<T>, t: nat, u: nat)
    requires Inv(task, s) && CanStep(task, s, t) && u < task.threads
    ensures WorkerOk(task, Step(task, s, t), u)
  {
    assert WorkerOk(task, s, u) && WorkerOk(task, s, t);
    if u != t && s.workers[u].Writing? && s.workers[u].i == s.workers[t].i {
      OneOwner(task.rank, task.threads, t, u, s.workers[t].i);
    }
    hide Left, Right;
  }

  lemma CellKept<T>(task: Task<T>, s: State<T>, t: nat, u: nat, i: nat, j: nat)
    requires Inv(task, s) && CanStep(task, s, t) && u < task.threads && i < task.rank && j < task.rank
    requires Owns(task.rank, task.threads, u, i)
    ensures CellOk(task, Step(task, s, t), u, i, j)
  {
    assert CellOk(task, s, u, i, j) && WorkerOk(task, s, t);
    if u != t && i == s.workers[t].i { OneOwner(task.rank, task.threads, u, t, i); }
    hide Left, Right;
  }

  lemma StepKeeps<T>(task: Task<T>, s: State<T>, t: nat)
    requires Inv(task, s) && CanStep(task, s, t)
    ensures Inv(task, Step(task, s, t))
  {
    hide WorkerOk, CellOk, Owns;
    var s' := Step(task, s, t);
    forall u | 0 <= u < task.threads
      ensures WorkerOk(task, s', u)
    { WorkerKept(task, s, t, u); }
    forall u: nat, i: nat, j: nat | u < task.threads && i < task.rank && j < task.rank
      && Owns(task.rank, task.threads, u, i)
      ensures CellOk(task, s', u, i, j)
    { CellKept(task, s, t, u, i, j); }
  }

  lemma {:induction false} RunKeeps<T>(task: Task<T>, states: seq<State<T>>, schedule: seq<nat>, n: nat)
    requires TaskOk(task) && IsRun(task, states, schedule) && n < |states|
    ensures Inv(task, states[n])
  {
    if n == 0 {
      forall t | 0 <= t < task.threads
        ensures WorkerOk(task, states[0], t)
      { RangeOk(task.rank, task.threads, t); }
    } else {
      RunKeeps(task, states, schedule, n - 1);
      StepKeeps(task, states[n - 1], schedule[n - 1]);
    }
  }

  lemma ResultSquare<T>(task: Task<T>, s: State<T>)
    requires Inv(task, s)
    ensures IsSquare(s.result, task.rank)
  {
  }

  lemma CellDone<T>(task: Task<T>, s: State<T>, t: nat, i: nat, j: nat)
    requires Inv(task, s) && t < task.threads && !Running(task, s, t) && i < task.rank && j < task.rank
    requires Owns(task.rank, task.threads, t, i)
    ensures s.result[i][j] == Fold(task.ops, task.ops.zero, task.first[i], task.second[j], task.rank)
  {
    assert CellOk(task, s, t, i, j) && WorkerOk(task, s, t);
    assert Progress(task.rank, s.workers[t], i, j) == task.rank;
  }

  /** A worker that has not finished can make its next step: no worker is ever stuck. */
  lemma NeverStuck<T>(task: Task<T>, states: seq<State<T>>, schedule: seq<nat>, n: nat, t: nat)
    requires TaskOk(task) && IsRun(task, states, schedule) && n < |states| && t < task.threads
    ensures Running(task, states[n], t) <==> CanStep(task, states[n], t)
  {
    RunKeeps(task, states, schedule, n);
    assert WorkerOk(task, states[n], t);
  }

  /** Whatever the interleaving, when all of at least one thread are done the result is the product. */
  lemma EveryInterleaving<T(!new)>(task: Task<T>, second: Matrix<T>, states: seq<State<T>>, schedule: seq<nat>, n: nat)
    requires IsSquare(task.first, task.rank) && IsSquare(second, task.rank)
      && task.second == Transposed(second, task.rank)
    requires task.threads > 0 && IsRun(task, states, schedule) && n < |states|
    requires forall t :: 0 <= t < task.threads ==> !Running(task, states[n], t)
    ensures IsProduct(task.ops, task.rank, task.first, second, states[n].result)
  {
    hide Inv, Running, Owns, Fold;
    RunKeeps(task, states, schedule, n);
    ResultSquare(task, states[n]);
    forall i, j | 0 <= i < task.rank && 0 <= j < task.rank
      ensures states[n].result[i][j] == Fold(task.ops, task.ops.zero, task.first[i], task.second[j], task.rank)
    {
      RowsPartitioned(task.rank, task.threads, i);
      var t: nat :| t < task.threads && Owns(task.rank, task.threads, t, i);
      CellDone(task, states[n], t, i, j);
    }
    FoldsAreProduct(task.ops, task.rank, task.first, second, states[n].result);
  }

  /** The number of threads makes no difference, nor does the schedule. */
  lemma ThreadsMakeNoDifference<T(!new)>(task: Task<T>, task': Task<T>, second: Matrix<T>, states: seq<State<T>>,
                                   states': seq<State<T>>,
                                   schedule: seq<nat>, schedule': seq<nat>)
    requires IsSquare(task.first, task.rank) && IsSquare(second, task.rank)
      && task.second == Transposed(second, task.rank)
    requires task' == task.(threads := task'.threads) && task.threads > 0 && task'.threads > 0
    requires IsRun(task, states, schedule) && IsRun(task', states', schedule')
    requires forall t :: 0 <= t < task.threads ==> !Running(task, states[|schedule|], t)
    requires forall t :: 0 <= t < task'.threads ==> !Running(task', states'[|schedule'|], t)
    ensures states[|schedule|].result == states'[|schedule'|].result
  {
    hide IsProduct;
    EveryInterleaving(task, second, states, schedule, |schedule|);
    EveryInterleaving(task', second, states', schedule', |schedule'|);
    ProductIsUnique(task.ops, task.rank, task.first, second, states[|schedule|].result, states'[|schedule'|].result);
  }
}
