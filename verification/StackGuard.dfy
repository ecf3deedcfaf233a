/** A validated hazard keeps guarding its node, whatever the other threads do. */
module StackGuard {
  import opened StackMachine
  import opened NodeOwnership
  import opened HazardSlots
  import opened StackInvariant
  import opened StackSafety

  /** Only thread t writes to its hazard slot. */
  lemma HazardKept(s: State, g: History, e: Event, u: nat)
    requires Inv(s, g) && Enabled(s, e) && u < |s.threads| && u != e.thread
    requires s.threads[u].registered
    ensures 0 <= s.threads[u].slot < MAX_HAZARD_POINTERS
    ensures Step(s, e).hazards[s.threads[u].slot] == s.hazards[s.threads[u].slot]
  {
    Allocated(s, g, u);
    Allocated(s, g, e.thread);
  }

  /** A step of thread t leaves alone the nodes that are not in its hand. */
  lemma NodeKept(s: State, g: History, e: Event, a: Ptr)
    requires Inv(s, g) && Enabled(s, e)
    requires a in s.heap && a != HeldNode(s.threads[e.thread].pc)
    ensures a in Step(s, e).heap && Step(s, e).heap[a] == s.heap[a]
  {
    hide Inv;
  }

  /** Where a node can be after a step of thread t that did not have it in hand. */
  ghost predicate MovedOn(s': State, g: History, g': History, t: nat, a: Ptr)
    requires t < |s'.threads|
  {
    a in g.place && a in g'.place
    && (|| g'.place[a] == g.place[a]
        || (g'.place[a] == Held(t) && HeldNode(s'.threads[t].pc) == a && HolderSafe(s'.threads[t].pc, 0))
        || (g'.place[a].InList? && g'.place[a].list != STACK))
  }

  lemma PopMoves(s: State, g: History, e: Event, a: Ptr)
    requires Inv(s, g) && Enabled(s, e) && s.threads[e.thread].pc.PopCas? && a in s.heap
    ensures MovedOn(Step(s, e), g, Track(s, g, e), e.thread, a)
  {
    TopPlaced(s, g, STACK);
  }

  lemma RootTaken(s: State, t: nat)
    requires t < |s.threads|
    ensures |Roots(s)| == |s.threads| + 2 && Roots(s)[Taken(t)] == PassRest(s.threads[t].pc)
  {
  }

  lemma NextMoves(s: State, g: History, e: Event, a: Ptr)
    requires Inv(s, g) && Enabled(s, e) && s.threads[e.thread].pc.PassNext? && a in s.heap
    ensures MovedOn(Step(s, e), g, Track(s, g, e), e.thread, a)
  {
    hide Guarded, ListOk, NodeOk, SlotsOk, Roots, HeldNodes, Registrations;
    Allocated(s, g, e.thread);
    TopPlaced(s, g, Taken(e.thread));
    RootTaken(s, e.thread);
  }

  lemma PlaceKept(s: State, g: History, e: Event, a: Ptr)
    requires Inv(s, g) && Enabled(s, e)
    requires a in s.heap && a != HeldNode(s.threads[e.thread].pc)
    ensures |Step(s, e).threads| == |s.threads| && MovedOn(Step(s, e), g, Track(s, g, e), e.thread, a)
  {
    StepLocal(s, e);
    if Quiet(s.threads[e.thread].pc) {
      NoFault(s, g, e);
      QuietStep(s, g, e);
    } else if s.threads[e.thread].pc.PopCas? {
      PopMoves(s, g, e, a);
    } else if s.threads[e.thread].pc.PassNext? {
      NextMoves(s, g, e, a);
    }
  }

  lemma TopPlaced(s: State, g: History, l: nat)
    requires Inv(s, g) && l < |g.lists|
    ensures Roots(s)[l] == Top(g.lists[l])
    ensures Roots(s)[l] != NULL ==> Roots(s)[l] in s.heap && g.place[Roots(s)[l]] == InList(l, |g.lists[l]| - 1)
  {
    assert ListOk(s.heap, g.place, l, g.lists[l]);
  }

  /** The step of the holder of a node that hazard slot i guards. */
  lemma HolderKept(s: State, g: History, e: Event, i: nat)
    requires Inv(s, g) && Enabled(s, e) && i < MAX_HAZARD_POINTERS
    requires HeldNode(s.threads[e.thread].pc) != NULL && s.hazards[i] == HeldNode(s.threads[e.thread].pc)
    requires HolderSafe(s.threads[e.thread].pc, i)
    ensures var a := HeldNode(s.threads[e.thread].pc);
      && a in Step(s, e).heap && a in Track(s, g, e).place
      && match Track(s, g, e).place[a]
         case InList(l, _) => l != STACK
         case Held(w) => w == e.thread && HolderSafe(Step(s, e).threads[w].pc, i)
  {
    Allocated(s, g, e.thread);
  }

  lemma GuardOther(s: State, g: History, e: Event, u: nat)
    requires Inv(s, g) && Enabled(s, e) && u < |s.threads| && u != e.thread
    ensures Shaped(Step(s, e)) && |Step(s, e).threads| == |s.threads|
    ensures Guarded(Step(s, e), Track(s, g, e), u)
  {
    var s', g', t := Step(s, e), Track(s, g, e), e.thread;
    StepLocal(s, e);
    assert Guarded(s, g, u) && LocalOk(s.threads[u]);
    var pc, h := s.threads[u].pc, Protected(s.threads[u].pc);
    if pc.PopValidate? {
      HazardKept(s, g, e, u);
    } else if pc.PushCas? {
      Allocated(s, g, u);
      Allocated(s, g, t);
      NodeKept(s, g, e, pc.node);
    } else if h != NULL {
      HazardKept(s, g, e, u);
      if h == HeldNode(s.threads[t].pc) {
        Allocated(s, g, t);
        HolderKept(s, g, e, s.threads[u].slot);
      } else {
        NodeKept(s, g, e, h);
        PlaceKept(s, g, e, h);
        if g.place[h].Held? { assert HeldNodes(s)[g.place[h].owner] == h; }
      }
    }
  }

  /** Validation: the head still is the node the slot names. */
  lemma GuardFromValidate(s: State, g: History, e: Event)
    requires Inv(s, g) && Enabled(s, e) && s.threads[e.thread].pc.PopValidate?
    ensures Guarded(Step(s, e), Track(s, g, e), e.thread)
  {
    assert Guarded(s, g, e.thread);
    TopPlaced(s, g, STACK);
  }

  lemma GuardFromNext(s: State, g: History, e: Event)
    requires Inv(s, g) && Enabled(s, e) && s.threads[e.thread].pc.PopNext?
    ensures Guarded(Step(s, e), Track(s, g, e), e.thread)
  {
    assert Guarded(s, g, e.thread) && LocalOk(s.threads[e.thread]);
    if g.place[s.threads[e.thread].pc.oldHead].Held? {
      var w := g.place[s.threads[e.thread].pc.oldHead].owner;
      assert HeldNodes(s)[w] == s.threads[e.thread].pc.oldHead;
    }
  }

  lemma GuardFromStore(s: State, g: History, e: Event)
    requires Inv(s, g) && Enabled(s, e)
    requires s.threads[e.thread].pc.PopPublish? || s.threads[e.thread].pc.PushLink?
    ensures Guarded(Step(s, e), Track(s, g, e), e.thread)
  {
    Allocated(s, g, e.thread);
  }

  lemma GuardSelf(s: State, g: History, e: Event)
    requires Inv(s, g) && Enabled(s, e)
    ensures |Step(s, e).threads| == |s.threads| && Shaped(Step(s, e)) && Guarded(Step(s, e), Track(s, g, e), e.thread)
  {
    var pc := s.threads[e.thread].pc;
    StepLocal(s, e);
    if pc.PopPublish? || pc.PushLink? {
      GuardFromStore(s, g, e);
    } else if pc.PopValidate? {
      GuardFromValidate(s, g, e);
    } else if pc.PopNext? {
      GuardFromNext(s, g, e);
    } else {
      NoFault(s, g, e);
      Unguarded(s, e);
    }
  }

  lemma OnlyValidated(s: State, e: Event)
    requires Enabled(s, e)
    ensures e.thread < |Step(s, e).threads|
    ensures Step(s, e).threads[e.thread].pc.PopNext? ==>
      s.threads[e.thread].pc.PopValidate? || s.threads[e.thread].pc.PopNext?
  {
  }

  lemma OnlyRead(s: State, e: Event)
    requires Enabled(s, e)
    ensures e.thread < |Step(s, e).threads|
    ensures Step(s, e).threads[e.thread].pc.PopCas? ==> s.threads[e.thread].pc.PopNext?
  {
  }

  lemma Unprotected(s: State, e: Event)
    requires Enabled(s, e)
    requires var pc := s.threads[e.thread].pc; !pc.PopValidate? && !pc.PopNext?
    ensures var pc := Step(s, e).threads[e.thread].pc; !pc.PopNext? && !pc.PopCas?
  {
    hide Step, Enabled;
    OnlyValidated(s, e);
    OnlyRead(s, e);
  }

  lemma Unguarded(s: State, e: Event)
    requires Enabled(s, e)
    requires var pc := s.threads[e.thread].pc; !pc.PopPublish? && !pc.PushLink? && !pc.PopValidate? && !pc.PopNext?
    requires !Step(s, e).fault
    ensures var pc := Step(s, e).threads[e.thread].pc; !pc.PopValidate? && !pc.PushCas? && Protected(pc) == NULL
  {
    Unprotected(s, e);
  }

  lemma StepInv(s: State, g: History, e: Event)
    requires Inv(s, g) && Enabled(s, e)
    ensures Inv(Step(s, e), Track(s, g, e))
  {
    var s', g' := Step(s, e), Track(s, g, e);
    StepLocal(s, e);
    NoFault(s, g, e);
    OwnsStep(s, g, e);
    SlotsStep(s, g, e);
    LocalStep(s, e);
    forall u | 0 <= u < |s'.threads|
      ensures Guarded(s', g', u)
    {
      if u == e.thread { GuardSelf(s, g, e); } else { GuardOther(s, g, e, u); }
    }
  }
}
