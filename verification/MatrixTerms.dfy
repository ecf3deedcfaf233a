/** What the matrix product computes, read off formally: run on matrices of symbols it leaves
    in each cell the term of exactly these products in exactly this order; and on any other
    matrices it computes the value of that term.
  */
module MatrixTerms {
  import opened MatrixProduct

  datatype Factor = First | Second

  datatype Term =
    | Zero
    | Cell(factor: Factor, row: int, column: int)
    | Sum(left: Term, right: Term)
    | Product(left: Term, right: Term)

  const SYMBOLS: Scalars<Term> := Scalars(Zero, (x, y) => Sum(x, y), (x, y) => Product(x, y))

  function Symbols(factor: Factor, rank: nat): (m: Matrix<Term>)
    ensures IsSquare(m, rank) && forall i, j :: 0 <= i < rank && 0 <= j < rank ==> m[i][j] == Cell(factor, i, j)
  {
    seq(rank, i requires 0 <= i < rank => seq(rank, j requires 0 <= j < rank => Cell(factor, i, j)))
  }

  /** What has been added, one after the other, beginning with zero. */
  predicate AddedToZero(term: Term, summands: seq<Term>)
    decreases term
  {
    match term
    case Zero => summands == []
    case Sum(left, right) =>
      var n := |summands|;
      n > 0 && right == summands[n - 1] && AddedToZero(left, summands[..n - 1])
    case _ => false
  }

  /** The products of row i of the first matrix and column j of the second, from the left. */
  function RowTimesColumn(rank: nat, i: nat, j: nat): seq<Term> {
    seq(rank, k requires 0 <= k < rank => Product(Cell(First, i, k), Cell(Second, k, j)))
  }

  ghost predicate IsFormula(rank: nat, result: Matrix<Term>) {
    && IsSquare(result, rank)
    && forall i, j :: 0 <= i < rank && 0 <= j < rank ==> AddedToZero(result[i][j], RowTimesColumn(rank, i, j))
  }

  lemma {:induction false} SumsReadOff(rank: nat, i: nat, j: nat, sums: seq<Term>, k: nat)
    requires i < rank && j < rank && k <= rank
    requires PartialSums(SYMBOLS, rank, Symbols(First, rank), Symbols(Second, rank), i, j, sums)
    ensures AddedToZero(sums[k], RowTimesColumn(rank, i, j)[..k])
  {
    if k > 0 {
      SumsReadOff(rank, i, j, sums, k - 1);
      var products := RowTimesColumn(rank, i, j);
      assert products[..k][..k - 1] == products[..k - 1];
      assert sums[k - 1 + 1] == Sum(sums[k - 1], Product(Cell(First, i, k - 1), Cell(Second, k - 1, j)));
    }
  }

  /** A product of the symbols is the formula of the matrix product. */
  lemma ReadOff(rank: nat, result: Matrix<Term>)
    requires IsProduct(SYMBOLS, rank, Symbols(First, rank), Symbols(Second, rank), result)
    ensures IsFormula(rank, result)
  {
    forall i, j | 0 <= i < rank && 0 <= j < rank
      ensures AddedToZero(result[i][j], RowTimesColumn(rank, i, j))
    {
      assert IsCell(SYMBOLS, rank, Symbols(First, rank), Symbols(Second, rank), i, j, result[i][j]);
      var sums :| PartialSums(SYMBOLS, rank, Symbols(First, rank), Symbols(Second, rank), i, j, sums)
               && result[i][j] == sums[rank];
      SumsReadOff(rank, i, j, sums, rank);
      assert RowTimesColumn(rank, i, j)[..rank] == RowTimesColumn(rank, i, j);
    }
  }

  /** The program, run on symbols with any positive number of threads, leaves the formula. */
  method MultiplySymbols(rank: nat, threads: nat) returns (result: array2<Term>)
    requires threads > 0
    ensures result.Length0 == result.Length1 == rank && IsFormula(rank, Rows(result))
  {
    var first := new Term[rank, rank]((i, j) => Cell(First, i, j));
    var second := new Term[rank, rank]((i, j) => Cell(Second, i, j));
    SameRows(first, Symbols(First, rank));
    SameRows(second, Symbols(Second, rank));
    result := Multiply(SYMBOLS, first, second, threads);
    ReadOff(rank, Rows(result));
  }

  /** And so do the workers in every interleaving. */
  lemma InterleavedSymbols(task: Task<Term>, states: seq<State<Term>>, schedule: seq<nat>, n: nat)
    requires task.ops == SYMBOLS && task.first == Symbols(First, task.rank)
    requires task.second == Transposed(Symbols(Second, task.rank), task.rank)
    requires task.threads > 0 && IsRun(task, states, schedule) && n < |states|
    requires forall t :: 0 <= t < task.threads ==> !Running(task, states[n], t)
    ensures IsFormula(task.rank, states[n].result)
  {
    EveryInterleaving(task, Symbols(Second, task.rank), states, schedule, n);
    ReadOff(task.rank, states[n].result);
  }

  /** The value of a term for given matrices. */
  function Value<T>(ops: Scalars<T>, rank: nat, first: Matrix<T>, second: Matrix<T>, term: Term): T
    requires IsSquare(first, rank) && IsSquare(second, rank)
    decreases term
  {
    match term
    case Zero => ops.zero
    case Cell(factor, i, j) =>
      if 0 <= i < rank && 0 <= j < rank then (if factor == First then first[i][j] else second[i][j]) else ops.zero
    case Sum(x, y) => ops.add(Value(ops, rank, first, second, x), Value(ops, rank, first, second, y))
    case Product(x, y) => ops.mul(Value(ops, rank, first, second, x), Value(ops, rank, first, second, y))
  }

  lemma {:induction false} SumsAreValues<T>(ops: Scalars<T>, rank: nat, first: Matrix<T>, second: Matrix<T>, i: nat,
                                            j: nat, sums: seq<T>, term: Term, k: nat)
    requires IsSquare(first, rank) && IsSquare(second, rank) && i < rank && j < rank && k <= rank
    requires PartialSums(ops, rank, first, second, i, j, sums)
    requires AddedToZero(term, RowTimesColumn(rank, i, j)[..k])
    ensures sums[k] == Value(ops, rank, first, second, term)
    decreases k
  {
    var products := RowTimesColumn(rank, i, j);
    if k > 0 {
      assert products[..k][..k - 1] == products[..k - 1];
      SumsAreValues(ops, rank, first, second, i, j, sums, term.left, k - 1);
      var x, y := Cell(First, i, k - 1), Cell(Second, k - 1, j);
      assert term.right == Product(x, y);
      assert Value(ops, rank, first, second, x) == first[i][k - 1];
      assert Value(ops, rank, first, second, y) == second[k - 1][j];
      assert sums[k - 1 + 1] == ops.add(sums[k - 1], ops.mul(first[i][k - 1], second[k - 1][j]));
    } else {
      assert products[..0] == [];
    }
  }

  /** Over any scalars the product has in each cell the value of its formula. */
  lemma ProductIsValue<T(!new)>(ops: Scalars<T>, rank: nat, first: Matrix<T>, second: Matrix<T>, result: Matrix<T>,
                          formula: Matrix<Term>)
    requires IsSquare(first, rank) && IsSquare(second, rank)
    requires IsProduct(ops, rank, first, second, result) && IsFormula(rank, formula)
    ensures forall i, j :: 0 <= i < rank && 0 <= j < rank ==>
      result[i][j] == Value(ops, rank, first, second, formula[i][j])
  {
    forall i, j | 0 <= i < rank && 0 <= j < rank
      ensures result[i][j] == Value(ops, rank, first, second, formula[i][j])
    {
      assert IsCell(ops, rank, first, second, i, j, result[i][j]);
      var sums :| PartialSums(ops, rank, first, second, i, j, sums) && result[i][j] == sums[rank];
      assert RowTimesColumn(rank, i, j)[..rank] == RowTimesColumn(rank, i, j);
      SumsAreValues(ops, rank, first, second, i, j, sums, formula[i][j], rank);
    }
  }

  const INTEGERS: Scalars<int> := Scalars(0, (x, y) => x + y, (x, y) => x * y)

  predicate IsIdentity(m: Matrix<int>, rank: nat) {
    IsSquare(m, rank) && forall i, j :: 0 <= i < rank && 0 <= j < rank ==> m[i][j] == if i == j then 1 else 0
  }

  /** Over the integers the identity is neutral on both sides. */
  lemma IdentityIsNeutral(rank: nat, one: Matrix<int>, m: Matrix<int>, result: Matrix<int>)
    requires IsSquare(m, rank) && IsIdentity(one, rank)
    requires IsProduct(INTEGERS, rank, one, m, result) || IsProduct(INTEGERS, rank, m, one, result)
    ensures result == m
  {
    forall i, j | 0 <= i < rank && 0 <= j < rank
      ensures result[i][j] == m[i][j]
    {
      if IsProduct(INTEGERS, rank, one, m, result) {
        assert IsCell(INTEGERS, rank, one, m, i, j, result[i][j]);
        var sums :| PartialSums(INTEGERS, rank, one, m, i, j, sums) && result[i][j] == sums[rank];
        SumsPickOne(rank, one, m, i, j, sums, i, rank);
      } else {
        assert IsCell(INTEGERS, rank, m, one, i, j, result[i][j]);
        var sums :| PartialSums(INTEGERS, rank, m, one, i, j, sums) && result[i][j] == sums[rank];
        SumsPickOne(rank, m, one, i, j, sums, j, rank);
      }
    }
    assert forall i :: 0 <= i < rank ==> result[i] == m[i];
  }

  /** If all products but the one at place p are zero. */
  lemma {:induction false} SumsPickOne(rank: nat, first: Matrix<int>, second: Matrix<int>, i: nat, j: nat,
                                       sums: seq<int>, p: nat, k: nat)
    requires IsSquare(first, rank) && IsSquare(second, rank) && i < rank && j < rank && p < rank && k <= rank
    requires PartialSums(INTEGERS, rank, first, second, i, j, sums)
    requires forall q :: 0 <= q < rank && q != p ==> first[i][q] == 0 || second[q][j] == 0
    ensures sums[k] == if p < k then first[i][p] * second[p][j] else 0
  {
    if k > 0 {
      SumsPickOne(rank, first, second, i, j, sums, p, k - 1);
      assert sums[k - 1 + 1] == sums[k - 1] + first[i][k - 1] * second[k - 1][j];
    }
  }
}
