/** The law of the map in terms of calls and answers alone: insertions and removals are always
    acknowledged, and a search answers with the last write of its key.
  */
module MapLaw {
  import opened ListMachine
  import opened AtomicMap

  /** Step i is the one at which the operation of its thread takes effect. */
  ghost predicate TakesEffectAt(atoms: seq<Atomic>, trace: seq<(nat, Visible)>, i: nat)
    requires |atoms| == |trace| + 1 && i < |trace|
  {
    var t := trace[i].0;
    && t < |atoms[i].status| && t < |atoms[i + 1].status|
    && atoms[i].status[t].Called? && atoms[i + 1].status[t].Finished?
  }

  ghost function CalledAt(atoms: seq<Atomic>, trace: seq<(nat, Visible)>, i: nat): Op
    requires |atoms| == |trace| + 1 && i < |trace| && TakesEffectAt(atoms, trace, i)
  {
    atoms[i].status[trace[i].0].op
  }

  ghost function AnswerAt(atoms: seq<Atomic>, trace: seq<(nat, Visible)>, i: nat): Result
    requires |atoms| == |trace| + 1 && i < |trace| && TakesEffectAt(atoms, trace, i)
  {
    atoms[i + 1].status[trace[i].0].result
  }

  ghost predicate WritesAt(atoms: seq<Atomic>, trace: seq<(nat, Visible)>, i: nat, key: int)
    requires |atoms| == |trace| + 1 && i < |trace|
  {
    TakesEffectAt(atoms, trace, i) && !CalledAt(atoms, trace, i).Search? && CalledAt(atoms, trace, i).key == key
  }

  /** Step p is the last one before step i at which a write of the key took effect. */
  ghost predicate LastWriteAt(atoms: seq<Atomic>, trace: seq<(nat, Visible)>, p: nat, i: nat, key: int)
    requires |atoms| == |trace| + 1 && i <= |trace|
  {
    p < i && WritesAt(atoms, trace, p, key) && forall q :: p < q < i ==> !WritesAt(atoms, trace, q, key)
  }

  /** The map holds what the last write of each key has left. */
  ghost predicate HoldsLastWrites(atoms: seq<Atomic>, trace: seq<(nat, Visible)>, i: nat, key: int)
    requires |atoms| == |trace| + 1 && i <= |trace|
  {
    var m := atoms[i].contents;
    if exists p :: LastWriteAt(atoms, trace, p, i, key) && CalledAt(atoms, trace, p).Insert? then
      key in m && exists p :: LastWriteAt(atoms, trace, p, i, key) && CalledAt(atoms, trace, p) == Insert(key, m[key])
    else
      key !in m
  }

  lemma {:induction false} ContentsAreLastWrites(atoms: seq<Atomic>, trace: seq<(nat, Visible)>, threads: nat, i: nat,
                                                 key: int)
    requires IsAtomicRun(atoms, trace, threads) && i <= |trace|
    ensures HoldsLastWrites(atoms, trace, i, key)
    decreases i
  {
    if i > 0 {
      ContentsAreLastWrites(atoms, trace, threads, i - 1, key);
      assert AtomicStep(atoms[i - 1], atoms[i], trace[i - 1].0, trace[i - 1].1);
      if WritesAt(atoms, trace, i - 1, key) {
        assert LastWriteAt(atoms, trace, i - 1, i, key);
        forall p | LastWriteAt(atoms, trace, p, i, key)
          ensures p == i - 1
        {
        }
      } else {
        forall p
          ensures LastWriteAt(atoms, trace, p, i, key) <==> LastWriteAt(atoms, trace, p, i - 1, key)
        {
        }
        assert (key in atoms[i].contents <==> key in atoms[i - 1].contents)
            && (key in atoms[i].contents ==> atoms[i].contents[key] == atoms[i - 1].contents[key]);
      }
    }
  }

  lemma OneLastWrite(atoms: seq<Atomic>, trace: seq<(nat, Visible)>, p: nat, q: nat, i: nat, key: int)
    requires |atoms| == |trace| + 1 && i <= |trace|
    requires LastWriteAt(atoms, trace, p, i, key) && LastWriteAt(atoms, trace, q, i, key)
    ensures p == q
  {
  }

  /** In every run of the atomic map insertions and removals answer `Done`, whether or not the key was
      there; a search answers with a value exactly if the last write of its key was an insertion, with the
      value of that one, and with `Missing` otherwise. */
  lemma AnswersFollowWrites(atoms: seq<Atomic>, trace: seq<(nat, Visible)>, threads: nat, i: nat)
    requires IsAtomicRun(atoms, trace, threads) && i < |trace| && TakesEffectAt(atoms, trace, i)
    ensures !CalledAt(atoms, trace, i).Search? ==> AnswerAt(atoms, trace, i) == Done
    ensures CalledAt(atoms, trace, i).Search? ==> var key := CalledAt(atoms, trace, i).key;
      && AnswerAt(atoms, trace, i) != Done
      && (forall v :: AnswerAt(atoms, trace, i) == Found(v) <==>
            exists p :: LastWriteAt(atoms, trace, p, i, key) && CalledAt(atoms, trace, p) == Insert(key, v))
  {
    assert AtomicStep(atoms[i], atoms[i + 1], trace[i].0, trace[i].1);
    var op := CalledAt(atoms, trace, i);
    if op.Search? {
      ContentsAreLastWrites(atoms, trace, threads, i, op.key);
      forall p, q | LastWriteAt(atoms, trace, p, i, op.key) && LastWriteAt(atoms, trace, q, i, op.key)
        ensures p == q
      { OneLastWrite(atoms, trace, p, q, i, op.key); }
    }
  }

  /** Thread t neither calls nor gets an answer from step lo on and before step hi. */
  predicate Silent(trace: seq<(nat, Visible)>, t: nat, lo: nat, hi: nat) {
    forall m :: lo <= m < hi && m < |trace| && trace[m].0 == t ==> trace[m].1 == Hidden
  }

  /** Thread t called at step k the operation that took effect at step i with this answer. */
  ghost predicate Answered(atoms: seq<Atomic>, trace: seq<(nat, Visible)>, t: nat, k: nat, i: nat, r: Result)
    requires |atoms| == |trace| + 1 && k < |trace| && i < |trace|
  {
    && trace[i].0 == t && TakesEffectAt(atoms, trace, i) && AnswerAt(atoms, trace, i) == r
    && trace[k] == (t, Invoke(CalledAt(atoms, trace, i)))
  }

  /** What a thread is doing was called by it, and has taken effect since if it is done. */
  ghost predicate Explained(atoms: seq<Atomic>, trace: seq<(nat, Visible)>, t: nat, j: nat)
    requires |atoms| == |trace| + 1 && j <= |trace| && t < |atoms[j].status|
  {
    match atoms[j].status[t]
    case Ready => true
    case Called(op) => exists k :: 0 <= k < j && trace[k] == (t, Invoke(op)) && Silent(trace, t, k + 1, j)
    case Finished(r) =>
      exists k, i :: 0 <= k < i < j && Answered(atoms, trace, t, k, i, r) && Silent(trace, t, k + 1, j)
  }

  lemma {:induction false} AlwaysExplained(atoms: seq<Atomic>, trace: seq<(nat, Visible)>, threads: nat, t: nat, j: nat)
    requires IsAtomicRun(atoms, trace, threads) && j <= |trace| && t < threads
    ensures |atoms[j].status| == threads && Explained(atoms, trace, t, j)
    decreases j
  {
    if j > 0 {
      AlwaysExplained(atoms, trace, threads, t, j - 1);
      assert AtomicStep(atoms[j - 1], atoms[j], trace[j - 1].0, trace[j - 1].1);
      ExplainedStep(atoms, trace, t, j);
    }
  }

  lemma ExplainedStep(atoms: seq<Atomic>, trace: seq<(nat, Visible)>, t: nat, j: nat)
    requires |atoms| == |trace| + 1 && 0 < j <= |trace| && t < |atoms[j - 1].status| == |atoms[j].status|
    requires AtomicStep(atoms[j - 1], atoms[j], trace[j - 1].0, trace[j - 1].1)
    requires Explained(atoms, trace, t, j - 1)
    ensures Explained(atoms, trace, t, j)
  {
    var was, now := atoms[j - 1].status[t], atoms[j].status[t];
    if now == was {
      if was.Called? {
        var k :| 0 <= k < j - 1 && trace[k] == (t, Invoke(was.op)) && Silent(trace, t, k + 1, j - 1);
        assert Silent(trace, t, k + 1, j);
      } else if was.Finished? {
        var k, i :| 0 <= k < i < j - 1 && Answered(atoms, trace, t, k, i, was.result) && Silent(trace, t, k + 1, j - 1);
        assert Silent(trace, t, k + 1, j);
      }
    } else if now.Called? {
      assert trace[j - 1] == (t, Invoke(now.op)) && Silent(trace, t, j, j);
    } else if now.Finished? {
      var k :| 0 <= k < j - 1 && trace[k] == (t, Invoke(was.op)) && Silent(trace, t, k + 1, j - 1);
      assert Answered(atoms, trace, t, k, j - 1, now.result) && Silent(trace, t, k + 1, j);
    }
  }

  /** Every answer a client gets is the one with which its call took effect, between the call and the answer. */
  lemma AnswersAreEffects(atoms: seq<Atomic>, trace: seq<(nat, Visible)>, threads: nat, j: nat)
    requires IsAtomicRun(atoms, trace, threads) && j < |trace| && trace[j].1.Respond? && trace[j].0 < threads
    ensures exists k, i :: 0 <= k < i < j && Answered(atoms, trace, trace[j].0, k, i, trace[j].1.result)
                        && Silent(trace, trace[j].0, k + 1, j)
  {
    AlwaysExplained(atoms, trace, threads, trace[j].0, j);
    assert AtomicStep(atoms[j], atoms[j + 1], trace[j].0, trace[j].1);
  }
}
