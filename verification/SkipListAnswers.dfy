/** What the skip list answers, in terms of the insertions and removals that took effect before,
    while towers are retired and freed.
  */
module SkipListAnswers {
  import opened Epochs
  import opened AtomicMap
  import opened MapLaw
  import opened ReclaimedSkipList
  import B = ListMachine

  /** At step i the operation of thread t takes effect with this answer: `Done` for a write; for a search the
      value of the last write of its key if that was an insertion, and else `Missing`. */
  ghost predicate Effects(atoms: seq<Atomic>, trace: seq<(nat, Visible)>, t: nat, i: nat, op: B.Op, r: B.Result)
    requires |atoms| == |trace| + 1 && i < |trace|
  {
    && trace[i].0 == t && TakesEffectAt(atoms, trace, i) && CalledAt(atoms, trace, i) == op
    && (!op.Search? ==> r == B.Done)
    && (op.Search? ==> r != B.Done && forall v :: r == B.Found(v) <==> LastInserted(atoms, trace, i, op.key, v))
  }

  ghost predicate LastInserted(atoms: seq<Atomic>, trace: seq<(nat, Visible)>, i: nat, key: int, value: int)
    requires |atoms| == |trace| + 1 && i <= |trace|
  {
    exists p :: LastWriteAt(atoms, trace, p, i, key) && CalledAt(atoms, trace, p) == B.Insert(key, value)
  }

  /** Every answer: it is that of the operation called, which took effect between the call and the answer. */
  lemma Answers(owner: int -> nat, states: seq<State>, events: seq<Event>, threads: nat, j: nat)
    requires IsRun(owner, states, events, threads) && threads <= 256 && j < |events|
    requires Trace(states, events)[j].1.Respond?
    ensures var atoms, trace := Atoms(states), Trace(states, events);
      exists k, i, op :: 0 <= k < i < j && trace[k] == (trace[j].0, Invoke(op)) && Silent(trace, trace[j].0, k + 1, j)
                      && Effects(atoms, trace, trace[j].0, i, op, trace[j].1.result)
  {
    hide Step, Enabled, SafeInv, Shows, IsRun, IsAtomicRun, LastWriteAt, Atoms;
    AnswerInTrace(owner, states, events, threads, j);
    var atoms, trace := Atoms(states), Trace(states, events);
    Linearizable(owner, states, events, threads);
    Lengths(atoms, trace, threads);
    AnswersAreEffects(atoms, trace, threads, j);
    var t, r := trace[j].0, trace[j].1.result;
    var k, i :| 0 <= k < i < j && Answered(atoms, trace, t, k, i, r) && Silent(trace, t, k + 1, j);
    var op := EffectKnown(atoms, trace, threads, t, k, i, r);
  }

  lemma AnswerInTrace(owner: int -> nat, states: seq<State>, events: seq<Event>, threads: nat, j: nat)
    requires IsRun(owner, states, events, threads) && threads <= 256 && j < |events|
    ensures |states| == |events| + 1 && (forall i :: 0 <= i < |events| ==> Enabled(states[i], events[i]))
    ensures |Trace(states, events)| == |events| && Trace(states, events)[j].0 < threads
  {
    hide Step, SafeInv;
    RunIsSafe(owner, states, events, threads, j);
    assert Enabled(states[j], events[j]);
  }

  lemma Lengths(atoms: seq<Atomic>, trace: seq<(nat, Visible)>, threads: nat)
    requires IsAtomicRun(atoms, trace, threads)
    ensures |atoms| == |trace| + 1
  {
  }

  lemma EffectKnown(atoms: seq<Atomic>, trace: seq<(nat, Visible)>, threads: nat, t: nat, k: nat, i: nat, r: B.Result)
    returns (op: B.Op)
    requires IsAtomicRun(atoms, trace, threads) && k < i < |trace| && Answered(atoms, trace, t, k, i, r)
    ensures trace[k] == (t, Invoke(op)) && Effects(atoms, trace, t, i, op, r)
  {
    hide LastWriteAt, AtomicStep;
    op := CalledAt(atoms, trace, i);
    AnswersFollowWrites(atoms, trace, threads, i);
  }
}
