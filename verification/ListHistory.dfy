/** The list over whole runs: the walk from the header, permanent marks, and
    towers that stay reachable from wherever they once could be reached.
  */
module ListHistory {
  import opened Refs
  import opened ListMemory
  import opened ListMachine
  import opened ListInvariant

  lemma {:induction false} RunKeepsInv(states: seq<State>, events: seq<Event>, threads: nat, i: nat)
    requires IsRun(states, events, threads) && i < |states|
    ensures Inv(states[i]) && |states[i].threads| == threads
  {
    if i == 0 {
      assert WellFormed(states[0].mem, [HEADER]);
    } else {
      RunKeepsInv(states, events, threads, i - 1);
      assert Enabled(states[i - 1], events[i - 1]);
      StepInv(states[i - 1], events[i - 1]);
      MemoryEvolves(states[i - 1], events[i - 1]);
    }
  }

  /** In every interleaving the walk from the header ends, is sorted by key (towers with the same key
      may occur), and passes every tower that has been linked and is not marked. */
  lemma WalkComplete(states: seq<State>, events: seq<Event>, threads: nat, i: nat)
    requires IsRun(states, events, threads) && i < |states|
    ensures exists chain :: SortedWalk(states[i].mem, chain)
  {
    RunKeepsInv(states, events, threads, i);
    var chain :| WellFormed(states[i].mem, chain);
    assert SortedWalk(states[i].mem, chain) by {
      WalkIsSorted(states[i].mem, chain);
    }
  }

  ghost predicate SortedWalk(mem: Memory, chain: seq<Ref>) {
    && IsWalk(mem, chain)
    && (forall j, k :: 0 < j <= k < |chain| ==> mem[chain[j]].key <= mem[chain[k]].key)
    && (forall x :: IsLinked(mem, x) && !mem[x].marked ==> x in chain)
  }

  lemma WalkIsSorted(mem: Memory, chain: seq<Ref>)
    requires WellFormed(mem, chain)
    ensures SortedWalk(mem, chain)
  {
    forall j, k | 0 < j <= k < |chain|
      ensures mem[chain[j]].key <= mem[chain[k]].key
    { WalkSorted(mem, chain, j, k); }
  }

  /** Marks are permanent and a marked pointer never changes. */
  lemma {:induction false} MarksPermanent(states: seq<State>, events: seq<Event>, threads: nat, i: nat, j: nat)
    requires IsRun(states, events, threads) && i <= j < |states|
    ensures Evolves(states[i].mem, states[j].mem)
    decreases j
  {
    if i < j {
      MarksPermanent(states, events, threads, i, j - 1);
      RunKeepsInv(states, events, threads, j - 1);
      assert Enabled(states[j - 1], events[j - 1]);
      MemoryEvolves(states[j - 1], events[j - 1]);
    }
  }

  /** This step is the CAS that unlinks y. */
  predicate Unlinks(s: State, e: Event, y: Ref)
    requires Enabled(s, e)
  {
    var pc := s.threads[e.thread].pc;
    pc.FillCas? && pc.next == y && s.mem[pc.cur].next == y && !s.mem[pc.cur].marked
  }

  lemma OnlyMarkedUnlinked(s: State, e: Event, y: Ref)
    requires Inv(s) && Enabled(s, e)
    ensures Unlinks(s, e, y) ==> IsLinked(s.mem, y) && s.mem[y].marked
  {
    assert PcOk(s.mem, s.threads[e.thread].op, s.threads[e.thread].pc);
  }

  /** Whatever x reaches it still reaches after any step but the unlinking of that very tower. */
  lemma ReachStep(s: State, e: Event, x: Ref, y: Ref)
    requires Inv(s) && Enabled(s, e) && Reach(s.mem, x, y) && (x == NIL || IsLinked(s.mem, x))
    requires !Unlinks(s, e, y)
    ensures Reach(Step(s, e).mem, x, y)
  {
    var n: nat :| ReachIn(s.mem, x, y, n);
    var me, mem' := s.threads[e.thread], Step(s, e).mem;
    LinksKnown(s);
    assert PcOk(s.mem, me.op, me.pc);
    if me.pc.FillCas? && mem' != s.mem {
      ReachAcrossUnlink(s.mem, me.pc.cur, me.pc.next, x, y, n);
    } else if me.pc.InsertCas? && mem' != s.mem {
      assert LinkOk(s.mem, me.pc.pred);
      ReachAcrossLink(s.mem, me.pc.pred, me.pc.node, x, y, n);
      assert ReachIn(mem', x, y, 2 * n);
    } else {
      ReachKept(s.mem, mem', x, y, n);
    }
  }

  /** While b is not marked no step takes it from what a reaches. */
  lemma ReachUnmarked(s: State, e: Event, a: Ref, b: Ref)
    requires Inv(s) && Enabled(s, e) && IsLinked(s.mem, a) && Reach(s.mem, a, b)
    requires IsLinked(s.mem, b) && IsLinked(Step(s, e).mem, b) && !Step(s, e).mem[b].marked
    ensures Reach(Step(s, e).mem, a, b)
  {
    MemoryEvolves(s, e);
    OnlyMarkedUnlinked(s, e, b);
    ReachStep(s, e, a, b);
  }

  lemma ReachOnWalk(s: State, a: Ref, b: Ref)
    requires Inv(s) && IsLinked(s.mem, a) && !s.mem[a].marked && IsLinked(s.mem, b) && !s.mem[b].marked
    requires b != HEADER && (a == HEADER || s.mem[a].key < s.mem[b].key)
    ensures Reach(s.mem, a, b)
  {
    var chain :| WellFormed(s.mem, chain);
    ReachLarger(s.mem, chain, a, b);
  }

  /** Level-0 reachability over history: if b was linked when a was linked and not marked, has the
      larger key and is still not marked, then b can be reached from a, whatever has been marked,
      unlinked and inserted since, a itself included. */
  lemma {:induction false} ReachableOverHistory(states: seq<State>, events: seq<Event>, threads: nat, i: nat, j: nat,
                                                a: Ref, b: Ref)
    requires IsRun(states, events, threads) && i <= j < |states|
    requires IsLinked(states[i].mem, a) && !states[i].mem[a].marked
    requires IsLinked(states[i].mem, b) && b != HEADER && (a == HEADER || states[i].mem[a].key < states[i].mem[b].key)
    requires IsLinked(states[j].mem, b) && !states[j].mem[b].marked
    ensures Reach(states[j].mem, a, b)
    decreases j
  {
    hide Inv, Step, Enabled, Reach;
    if i == j {
      RunKeepsInv(states, events, threads, i);
      ReachOnWalk(states[i], a, b);
    } else {
      MarksPermanent(states, events, threads, i, j - 1);
      MarksPermanent(states, events, threads, j - 1, j);
      ReachableOverHistory(states, events, threads, i, j - 1, a, b);
      RunKeepsInv(states, events, threads, j - 1);
      assert Enabled(states[j - 1], events[j - 1]);
      ReachUnmarked(states[j - 1], events[j - 1], a, b);
    }
  }
}
