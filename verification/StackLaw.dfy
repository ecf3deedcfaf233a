/** The law of the stack in terms of calls and answers alone: last in, first out, and a pop
    answers `Empty` exactly when all that was pushed has been popped.
  */
module StackLaw {
  import opened StackMachine
  import opened AtomicStack

  /** Step i is the one at which the operation of its thread takes effect. */
  ghost predicate TakesEffectAt(atoms: seq<Atomic>, trace: seq<(nat, Visible)>, i: nat)
    requires |atoms| == |trace| + 1 && i < |trace|
  {
    var t := trace[i].0;
    && t < |atoms[i].status| && t < |atoms[i + 1].status|
    && atoms[i].status[t].Called? && atoms[i + 1].status[t].Done?
  }

  ghost function CalledAt(atoms: seq<Atomic>, trace: seq<(nat, Visible)>, i: nat): Op
    requires |atoms| == |trace| + 1 && i < |trace| && TakesEffectAt(atoms, trace, i)
  {
    atoms[i].status[trace[i].0].op
  }

  ghost function AnswerAt(atoms: seq<Atomic>, trace: seq<(nat, Visible)>, i: nat): Result
    requires |atoms| == |trace| + 1 && i < |trace| && TakesEffectAt(atoms, trace, i)
  {
    atoms[i + 1].status[trace[i].0].result
  }

  ghost predicate PushesAt(atoms: seq<Atomic>, trace: seq<(nat, Visible)>, i: nat)
    requires |atoms| == |trace| + 1 && i < |trace|
  {
    TakesEffectAt(atoms, trace, i) && CalledAt(atoms, trace, i).Push?
  }

  /** A pop that answers with a value. */
  ghost predicate TakesAt(atoms: seq<Atomic>, trace: seq<(nat, Visible)>, i: nat)
    requires |atoms| == |trace| + 1 && i < |trace|
  {
    TakesEffectAt(atoms, trace, i) && CalledAt(atoms, trace, i).Pop? && AnswerAt(atoms, trace, i) != Empty
  }

  /** How many pushes took effect from step lo on and before step hi. */
  ghost function Pushes(atoms: seq<Atomic>, trace: seq<(nat, Visible)>, lo: nat, hi: nat): nat
    requires |atoms| == |trace| + 1 && lo <= hi <= |trace|
    decreases hi
  {
    if lo == hi then 0
    else Pushes(atoms, trace, lo, hi - 1) + if PushesAt(atoms, trace, hi - 1) then 1 else 0
  }

  /** And how many pops answered with a value. */
  ghost function Takes(atoms: seq<Atomic>, trace: seq<(nat, Visible)>, lo: nat, hi: nat): nat
    requires |atoms| == |trace| + 1 && lo <= hi <= |trace|
    decreases hi
  {
    if lo == hi then 0
    else Takes(atoms, trace, lo, hi - 1) + if TakesAt(atoms, trace, hi - 1) then 1 else 0
  }

  lemma {:induction false} Height(atoms: seq<Atomic>, trace: seq<(nat, Visible)>, threads: nat, lo: nat, hi: nat)
    requires IsAtomicRun(atoms, trace, threads) && lo <= hi <= |trace|
    ensures |atoms[hi].contents| - |atoms[lo].contents| == Pushes(atoms, trace, lo, hi) - Takes(atoms, trace, lo, hi)
    decreases hi
  {
    if lo < hi {
      Height(atoms, trace, threads, lo, hi - 1);
      assert AtomicStep(atoms[hi - 1], atoms[hi], trace[hi - 1].0, trace[hi - 1].1);
    }
  }

  /** The push that left what lies at depth d: since then the stack has always been higher than d. */
  lemma {:induction false} Origin(atoms: seq<Atomic>, trace: seq<(nat, Visible)>, threads: nat, i: nat, d: nat)
    returns (p: nat)
    requires IsAtomicRun(atoms, trace, threads) && i <= |trace| && d < |atoms[i].contents|
    ensures p < i && PushesAt(atoms, trace, p) && CalledAt(atoms, trace, p) == Push(atoms[i].contents[d])
    ensures |atoms[p].contents| == d && forall q :: p < q <= i ==> |atoms[q].contents| > d
    decreases i
  {
    if i > 0 { assert AtomicStep(atoms[i - 1], atoms[i], trace[i - 1].0, trace[i - 1].1); }
    if d == |atoms[i - 1].contents| {
      p := i - 1;
    } else {
      p := Origin(atoms, trace, threads, i - 1, d);
    }
  }

  /** The push at step p has not been taken by a pop before step i, and all later ones have. */
  ghost predicate LatestNotTaken(atoms: seq<Atomic>, trace: seq<(nat, Visible)>, p: nat, i: nat)
    requires |atoms| == |trace| + 1 && i <= |trace|
  {
    && p < i && PushesAt(atoms, trace, p)
    && Pushes(atoms, trace, p + 1, i) == Takes(atoms, trace, p + 1, i)
    && forall q :: p < q <= i ==> Pushes(atoms, trace, q, i) <= Takes(atoms, trace, q, i)
  }

  /** In every run of the atomic stack: a push is just acknowledged; a pop answers `Empty` exactly when there
      have been as many answers with a value as pushes; otherwise it answers the value of the latest push
      that has not been taken. */
  lemma LastInFirstOut(atoms: seq<Atomic>, trace: seq<(nat, Visible)>, threads: nat, i: nat)
    requires IsAtomicRun(atoms, trace, threads) && i < |trace| && TakesEffectAt(atoms, trace, i)
    ensures CalledAt(atoms, trace, i).Push? ==> AnswerAt(atoms, trace, i) == Pushed
    ensures CalledAt(atoms, trace, i).Pop? ==>
      (AnswerAt(atoms, trace, i) == Empty <==> Pushes(atoms, trace, 0, i) == Takes(atoms, trace, 0, i))
    ensures CalledAt(atoms, trace, i).Pop? && AnswerAt(atoms, trace, i) != Empty ==>
      exists p :: LatestNotTaken(atoms, trace, p, i)
               && AnswerAt(atoms, trace, i) == Popped(CalledAt(atoms, trace, p).value)
  {
    assert AtomicStep(atoms[i], atoms[i + 1], trace[i].0, trace[i].1);
    Height(atoms, trace, threads, 0, i);
    var n := |atoms[i].contents|;
    if CalledAt(atoms, trace, i).Pop? && n > 0 {
      var p := Origin(atoms, trace, threads, i, n - 1);
      forall q | p < q <= i
        ensures Pushes(atoms, trace, q, i) <= Takes(atoms, trace, q, i)
      { Height(atoms, trace, threads, q, i); }
      assert AtomicStep(atoms[p], atoms[p + 1], trace[p].0, trace[p].1);
      Height(atoms, trace, threads, p + 1, i);
      assert LatestNotTaken(atoms, trace, p, i);
    }
  }

  /** There is only one such push. */
  lemma LatestIsUnique(atoms: seq<Atomic>, trace: seq<(nat, Visible)>, p: nat, q: nat, i: nat)
    requires |atoms| == |trace| + 1 && i <= |trace|
    requires LatestNotTaken(atoms, trace, p, i) && LatestNotTaken(atoms, trace, q, i)
    ensures p == q
  {
    if p < q {
      Split(atoms, trace, q, i);
    } else if q < p {
      Split(atoms, trace, p, i);
    }
  }

  lemma {:induction false} Split(atoms: seq<Atomic>, trace: seq<(nat, Visible)>, lo: nat, hi: nat)
    requires |atoms| == |trace| + 1 && lo < hi <= |trace|
    ensures Pushes(atoms, trace, lo, hi)
         == Pushes(atoms, trace, lo + 1, hi) + if PushesAt(atoms, trace, lo) then 1 else 0
    ensures Takes(atoms, trace, lo, hi)
         == Takes(atoms, trace, lo + 1, hi) + if TakesAt(atoms, trace, lo) then 1 else 0
    decreases hi
  {
    if lo + 1 < hi { Split(atoms, trace, lo, hi - 1); }
  }

  /** Thread t neither calls nor gets an answer from step lo on and before step hi. */
  predicate Silent(trace: seq<(nat, Visible)>, t: nat, lo: nat, hi: nat) {
    forall m :: lo <= m < hi && m < |trace| && trace[m].0 == t ==> trace[m].1 == Hidden
  }

  /** What a thread is doing was called by it, and has taken effect since if it is done. */
  ghost predicate Explained(atoms: seq<Atomic>, trace: seq<(nat, Visible)>, t: nat, j: nat)
    requires |atoms| == |trace| + 1 && j <= |trace| && t < |atoms[j].status|
  {
    match atoms[j].status[t]
    case Ready => true
    case Called(op) => exists k :: 0 <= k < j && trace[k] == (t, Invoke(op)) && Silent(trace, t, k + 1, j)
    case Done(r) => exists k, i :: 0 <= k < i < j && Answered(atoms, trace, t, k, i, r) && Silent(trace, t, k + 1, j)
  }

  /** Thread t called at step k the operation that took effect at step i with this answer. */
  ghost predicate Answered(atoms: seq<Atomic>, trace: seq<(nat, Visible)>, t: nat, k: nat, i: nat, r: Result)
    requires |atoms| == |trace| + 1 && k < |trace| && i < |trace|
  {
    && trace[i].0 == t && TakesEffectAt(atoms, trace, i) && AnswerAt(atoms, trace, i) == r
    && trace[k] == (t, Invoke(CalledAt(atoms, trace, i)))
  }

  lemma {:induction false} AlwaysExplained(atoms: seq<Atomic>, trace: seq<(nat, Visible)>, threads: nat, t: nat, j: nat)
    requires IsAtomicRun(atoms, trace, threads) && j <= |trace| && t < threads
    ensures |atoms[j].status| == threads && Explained(atoms, trace, t, j)
    decreases j
  {
    if j > 0 {
      AlwaysExplained(atoms, trace, threads, t, j - 1);
      assert AtomicStep(atoms[j - 1], atoms[j], trace[j - 1].0, trace[j - 1].1);
      ExplainedStep(atoms, trace, t, j);
    }
  }

  lemma ExplainedStep(atoms: seq<Atomic>, trace: seq<(nat, Visible)>, t: nat, j: nat)
    requires |atoms| == |trace| + 1 && 0 < j <= |trace| && t < |atoms[j - 1].status| == |atoms[j].status|
    requires AtomicStep(atoms[j - 1], atoms[j], trace[j - 1].0, trace[j - 1].1)
    requires Explained(atoms, trace, t, j - 1)
    ensures Explained(atoms, trace, t, j)
  {
    var was, now := atoms[j - 1].status[t], atoms[j].status[t];
    if now == was {
      if was.Called? {
        var k :| 0 <= k < j - 1 && trace[k] == (t, Invoke(was.op)) && Silent(trace, t, k + 1, j - 1);
        assert Silent(trace, t, k + 1, j);
      } else if was.Done? {
        var k, i :| 0 <= k < i < j - 1 && Answered(atoms, trace, t, k, i, was.result) && Silent(trace, t, k + 1, j - 1);
        assert Silent(trace, t, k + 1, j);
      }
    } else if now.Called? {
      assert trace[j - 1] == (t, Invoke(now.op)) && Silent(trace, t, j, j);
    } else if now.Done? {
      var k :| 0 <= k < j - 1 && trace[k] == (t, Invoke(was.op)) && Silent(trace, t, k + 1, j - 1);
      assert Answered(atoms, trace, t, k, j - 1, now.result) && Silent(trace, t, k + 1, j);
    }
  }

  /** Every answer a client gets is the one with which its call took effect, between the call and the answer. */
  lemma AnswersAreEffects(atoms: seq<Atomic>, trace: seq<(nat, Visible)>, threads: nat, j: nat)
    requires IsAtomicRun(atoms, trace, threads) && j < |trace| && trace[j].1.Respond? && trace[j].0 < threads
    ensures exists k, i :: 0 <= k < i < j && Answered(atoms, trace, trace[j].0, k, i, trace[j].1.result)
                        && Silent(trace, trace[j].0, k + 1, j)
  {
    AlwaysExplained(atoms, trace, threads, trace[j].0, j);
    assert AtomicStep(atoms[j], atoms[j + 1], trace[j].0, trace[j].1);
  }
}
