/** Every step of every thread keeps the invariant of the stack machine. */
module StackSafety {
  import opened StackMachine
  import opened NodeOwnership
  import opened HazardSlots
  import opened StackInvariant

  lemma StepLocal(s: State, e: Event)
    requires Enabled(s, e)
    ensures var s' := Step(s, e);
      && Shaped(s') && e.thread < |s'.threads| == |s.threads|
      && s'.threads == s.threads[e.thread := s'.threads[e.thread]]
  {
  }

  /** A node in hand, the top of a taken list and a guarded node are allocated. */
  lemma Allocated(s: State, g: History, t: nat)
    requires Inv(s, g) && t < |s.threads|
    ensures HeldNode(s.threads[t].pc) != NULL ==>
      HeldNode(s.threads[t].pc) in s.heap && g.place[HeldNode(s.threads[t].pc)] == Held(t)
    ensures PassRest(s.threads[t].pc) != NULL ==> PassRest(s.threads[t].pc) in s.heap
    ensures Protected(s.threads[t].pc) != NULL ==> Protected(s.threads[t].pc) in s.heap
    ensures LocalOk(s.threads[t])
    ensures s.threads[t].registered ==>
      0 <= s.threads[t].slot < MAX_HAZARD_POINTERS && s.ids[s.threads[t].slot] == t + 1
  {
    var pc := s.threads[t].pc;
    assert HeldNodes(s)[t] == HeldNode(pc);
    assert Roots(s)[Taken(t)] == PassRest(pc);
    var rs := Registrations(s);
    assert RegistrationOk(s.ids, rs, t) && rs[t] == Register(s.threads[t]);
    assert ListOk(s.heap, g.place, Taken(t), g.lists[Taken(t)]);
    assert Guarded(s, g, t);
  }

  lemma NoFault(s: State, g: History, e: Event)
    requires Inv(s, g) && Enabled(s, e)
    ensures !Step(s, e).fault
  {
    Allocated(s, g, e.thread);
    if s.threads[e.thread].pc.Claim? {
      ClaimNeverFails(s.ids, Registrations(s), e.thread);
      assert Registrations(s)[e.thread].claiming == s.threads[e.thread].pc.index;
    }
  }

  predicate Reclaims(pc: Pc) {
    pc.RetireLoad? || pc.RetireLink? || pc.RetireCas? || pc.PassTake? || pc.PassNext? || pc.PassScan? || pc.PassFree?
  }

  lemma NonNullReclaim(s: State, e: Event)
    requires Enabled(s, e) && NonNull(s.threads[e.thread].pc) && !Step(s, e).fault && Reclaims(s.threads[e.thread].pc)
    ensures NonNull(Step(s, e).threads[e.thread].pc)
  {
  }

  lemma NonNullStep(s: State, e: Event)
    requires Enabled(s, e) && NonNull(s.threads[e.thread].pc) && !Step(s, e).fault
    ensures NonNull(Step(s, e).threads[e.thread].pc)
  {
    if Reclaims(s.threads[e.thread].pc) { NonNullReclaim(s, e); }
  }

  /** Registration changes only where a slot is claimed or released. */
  lemma RegisteredStays(s: State, e: Event)
    requires Enabled(s, e) && !Step(s, e).fault
    ensures var th, th' := s.threads[e.thread], Step(s, e).threads[e.thread];
      match th.pc
      case Claim(_) => (th'.registered && th'.pc.PopLoad?) || (th' == th.(pc := th'.pc) && th'.pc.Claim?)
      case ExitRelease => th'.pc.Exited? && !th'.registered
      case _ => th'.registered == th.registered && th'.slot == th.slot
  {
  }

  /** Code that uses a slot is reached only with one. */
  lemma SlotCode(s: State, e: Event)
    requires Enabled(s, e) && !Step(s, e).fault && !s.threads[e.thread].pc.Claim?
    ensures var th, pc' := s.threads[e.thread], Step(s, e).threads[e.thread].pc;
      NeedsSlot(pc') ==> NeedsSlot(th.pc) || (th.pc.Idle? && th.registered)
  {
  }

  /** The claim loop and the end of a thread are reached only without a slot. */
  lemma NoSlotCode(s: State, e: Event)
    requires Enabled(s, e) && !Step(s, e).fault
    requires !s.threads[e.thread].pc.Claim? && !s.threads[e.thread].pc.ExitRelease?
    ensures var th, pc' := s.threads[e.thread], Step(s, e).threads[e.thread].pc;
      pc'.Exited? || pc'.Claim? ==> (th.pc.Idle? && !th.registered) || th.pc.Exited?
  {
  }

  lemma LocalStep(s: State, e: Event)
    requires Enabled(s, e) && LocalOk(s.threads[e.thread]) && !Step(s, e).fault
    ensures LocalOk(Step(s, e).threads[e.thread])
  {
    hide NonNull, Step;
    NonNullStep(s, e);
    RegisteredStays(s, e);
    if !s.threads[e.thread].pc.Claim? && !s.threads[e.thread].pc.ExitRelease? {
      SlotCode(s, e);
      NoSlotCode(s, e);
    }
  }

  /** Only `hazard_pointer_init` and `hazard_pointer_cleanup` touch the slot ids. */
  lemma SlotsUntouched(s: State, e: Event)
    requires Enabled(s, e) && LocalOk(s.threads[e.thread]) && !Step(s, e).fault
    requires !s.threads[e.thread].pc.Claim? && !s.threads[e.thread].pc.ExitRelease?
    ensures var th, th' := s.threads[e.thread], Step(s, e).threads[e.thread];
      && Step(s, e).ids == s.ids && th'.slot == th.slot && th'.registered == th.registered
      && (th'.pc.Claim? ==> th'.pc.index == 0 && th'.slot == -1)
  {
  }

  lemma SlotsStep(s: State, g: History, e: Event)
    requires Inv(s, g) && Enabled(s, e)
    ensures SlotsOk(Step(s, e).ids, Registrations(Step(s, e)))
  {
    var s', t, rs := Step(s, e), e.thread, Registrations(s);
    StepLocal(s, e);
    NoFault(s, g, e);
    Allocated(s, g, t);
    Projected(s, s', t);
    assert rs[t] == Register(s.threads[t]);
    if s.threads[t].pc.Claim? {
      if s.ids[s.threads[t].pc.index] == 0 { ClaimSucceeds(s.ids, rs, t); } else { ClaimFails(s.ids, rs, t); }
    } else if s.threads[t].pc.ExitRelease? {
      ReleaseSlot(s.ids, rs, t);
    } else {
      SlotsUntouched(s, e);
      Keep(s.ids, rs, t, Register(s'.threads[t]));
    }
  }

  /** Thread t is the only one that changed. */
  predicate OnlyThread(s: State, s': State, t: nat) {
    t < |s.threads| == |s'.threads| && s'.threads == s.threads[t := s'.threads[t]]
  }

  predicate SameRoots(s: State, s': State, t: nat)
    requires OnlyThread(s, s', t)
  {
    s'.head == s.head && s'.toReclaim == s.toReclaim && PassRest(s'.threads[t].pc) == PassRest(s.threads[t].pc)
  }

  /** A step that moves no node. */
  lemma OwnsQuiet(s: State, g: History, s': State, t: nat)
    requires Owns(s, g) && OnlyThread(s, s', t) && SameRoots(s, s', t)
    requires s'.heap == s.heap
    requires HeldNode(s'.threads[t].pc) == HeldNode(s.threads[t].pc)
    ensures Owns(s', g)
  {
    hide Owned;
    Projected(s, s', t);
    assert HeldNodes(s') == HeldNodes(s);
    assert Roots(s') == Roots(s);
  }

  /** `malloc`. */
  lemma OwnsAllocate(s: State, g: History, s': State, t: nat, node: Node)
    requires Owns(s, g) && OnlyThread(s, s', t) && SameRoots(s, s', t)
    requires HeldNode(s.threads[t].pc) == NULL
    requires var a := HeldNode(s'.threads[t].pc); a != NULL && a !in s.heap && s'.heap == s.heap[a := node]
    ensures Owns(s', g.(place := g.place[HeldNode(s'.threads[t].pc) := Held(t)]))
  {
    Projected(s, s', t);
    assert Roots(s') == Roots(s);
    Allocate(s.heap, Roots(s), HeldNodes(s), g.lists, g.place, t, HeldNode(s'.threads[t].pc), node);
  }

  /** A store to the node in hand. */
  lemma OwnsWrite(s: State, g: History, s': State, t: nat, node: Node)
    requires Owns(s, g) && OnlyThread(s, s', t) && SameRoots(s, s', t)
    requires HeldNode(s.threads[t].pc) != NULL && HeldNode(s'.threads[t].pc) == HeldNode(s.threads[t].pc)
    requires s'.heap == s.heap[HeldNode(s.threads[t].pc) := node]
    ensures Owns(s', g)
  {
    Projected(s, s', t);
    assert HeldNodes(s') == HeldNodes(s) && HeldNodes(s)[t] == HeldNode(s.threads[t].pc);
    assert Roots(s') == Roots(s);
    WriteHeld(s.heap, Roots(s), HeldNodes(s), g.lists, g.place, t, node);
  }

  /** A CAS that links the node in hand to the stack or to the reclaim list. */
  lemma OwnsPublish(s: State, g: History, s': State, t: nat, l: nat)
    requires Owns(s, g) && OnlyThread(s, s', t) && |g.lists| == |s.threads| + 2
    requires s'.heap == s.heap && PassRest(s'.threads[t].pc) == PassRest(s.threads[t].pc)
    requires var n := HeldNode(s.threads[t].pc);
      && n != NULL && n in s.heap && HeldNode(s'.threads[t].pc) == NULL
      && ((l == STACK && s.heap[n].next == s.head && s'.head == n && s'.toReclaim == s.toReclaim)
          || (l == RECLAIM && s.heap[n].next == s.toReclaim && s'.head == s.head && s'.toReclaim == n))
    ensures Owns(s', PushOn(g, l, HeldNode(s.threads[t].pc)))
  {
    hide Owned;
    Projected(s, s', t);
    assert Roots(s') == Roots(s)[l := HeldNode(s.threads[t].pc)];
    Publish(s.heap, Roots(s), HeldNodes(s), g.lists, g.place, t, l);
  }

  /** The top of list l goes into the hand of thread t. */
  lemma OwnsUnpublish(s: State, g: History, s': State, t: nat, l: nat)
    requires Owns(s, g) && OnlyThread(s, s', t) && |g.lists| == |s.threads| + 2 && l < |g.lists|
    requires s'.heap == s.heap && HeldNode(s.threads[t].pc) == NULL
    requires var n := Roots(s)[l];
      n != NULL && n in s.heap && HeldNode(s'.threads[t].pc) == n && Roots(s') == Roots(s)[l := s.heap[n].next]
    ensures Owns(s', PopOff(g, l, t))
  {
    Projected(s, s', t);
    Unpublish(s.heap, Roots(s), HeldNodes(s), g.lists, g.place, t, l);
  }

  /** The atomic exchange of a reclaim pass. */
  lemma OwnsTake(s: State, g: History, s': State, t: nat)
    requires Owns(s, g) && OnlyThread(s, s', t) && |g.lists| == |s.threads| + 2
    requires s'.heap == s.heap && HeldNode(s'.threads[t].pc) == HeldNode(s.threads[t].pc)
    requires PassRest(s.threads[t].pc) == NULL && PassRest(s'.threads[t].pc) == s.toReclaim
    requires s'.head == s.head && s'.toReclaim == NULL
    ensures Owns(s', History(g.lists[Taken(t) := g.lists[RECLAIM]][RECLAIM := []], Moved(g.place, RECLAIM, Taken(t))))
  {
    Projected(s, s', t);
    TakeAll(s.heap, Roots(s), HeldNodes(s), g.lists, g.place, RECLAIM, Taken(t));
    assert HeldNodes(s') == HeldNodes(s);
    assert Roots(s') == Roots(s)[Taken(t) := s.toReclaim][RECLAIM := NULL];
  }

  /** `free` of the node in hand. */
  lemma OwnsFree(s: State, g: History, s': State, t: nat)
    requires Owns(s, g) && OnlyThread(s, s', t) && SameRoots(s, s', t)
    requires HeldNode(s.threads[t].pc) != NULL && HeldNode(s'.threads[t].pc) == NULL
    requires s'.heap == s.heap - {HeldNode(s.threads[t].pc)}
    ensures Owns(s', g.(place := g.place - {HeldNode(s.threads[t].pc)}))
  {
    Projected(s, s', t);
    assert Roots(s') == Roots(s);
    Release(s.heap, Roots(s), HeldNodes(s), g.lists, g.place, t);
  }

  /** The steps that work on a node in hand. */
  lemma OwnsHand(s: State, g: History, e: Event)
    requires Inv(s, g) && Enabled(s, e)
    requires var pc := s.threads[e.thread].pc; pc.PushAlloc? || pc.PushData? || pc.PushLink? || pc.RetireLink?
    ensures Owns(Step(s, e), Track(s, g, e))
  {
    var s', t := Step(s, e), e.thread;
    Allocated(s, g, t);
    if s.threads[t].pc.PushAlloc? {
      OwnsAllocate(s, g, s', t, e.action.garbage);
    } else {
      OwnsWrite(s, g, s', t, s'.heap[HeldNode(s.threads[t].pc)]);
    }
  }

  lemma OwnsPush(s: State, g: History, e: Event)
    requires Inv(s, g) && Enabled(s, e) && s.threads[e.thread].pc.PushCas?
    ensures Owns(Step(s, e), Track(s, g, e))
  {
    var s', t := Step(s, e), e.thread;
    assert Guarded(s, g, t) && LocalOk(s.threads[t]);
    if s.head == s.threads[t].pc.top { OwnsPublish(s, g, s', t, STACK); } else { OwnsQuiet(s, g, s', t); }
  }

  lemma OwnsRetire(s: State, g: History, e: Event)
    requires Inv(s, g) && Enabled(s, e) && s.threads[e.thread].pc.RetireCas?
    ensures Owns(Step(s, e), Track(s, g, e))
  {
    var s', t, n := Step(s, e), e.thread, s.threads[e.thread].pc.node;
    Allocated(s, g, t);
    if s.heap[n].next == s.toReclaim && e.action.Tau? {
      OwnsPublish(s, g, s', t, RECLAIM);
    } else {
      OwnsWrite(s, g, s', t, s'.heap[n]);
    }
  }

  /** The CAS of a pop installs the successor of the node it pops. */
  lemma OwnsPop(s: State, g: History, e: Event)
    requires Inv(s, g) && Enabled(s, e) && s.threads[e.thread].pc.PopCas?
    ensures Owns(Step(s, e), Track(s, g, e))
  {
    var s', t := Step(s, e), e.thread;
    var PopCas(h, next) := s.threads[t].pc;
    if s.head == h {
      Allocated(s, g, t);
      TopCell(s.heap, g.place, STACK, g.lists[STACK]);
      assert Guarded(s, g, t);
      Projected(s, s', t);
      assert Roots(s') == Roots(s)[STACK := next];
      OwnsUnpublish(s, g, s', t, STACK);
    } else {
      OwnsQuiet(s, g, s', t);
    }
  }

  lemma OwnsNext(s: State, g: History, e: Event)
    requires Inv(s, g) && Enabled(s, e) && s.threads[e.thread].pc.PassNext?
    ensures Owns(Step(s, e), Track(s, g, e))
  {
    hide Owned;
    var s', t := Step(s, e), e.thread;
    Allocated(s, g, t);
    Projected(s, s', t);
    assert Roots(s') == Roots(s)[Taken(t) := s.heap[s.threads[t].pc.current].next];
    OwnsUnpublish(s, g, s', t, Taken(t));
  }

  predicate Quiet(pc: Pc) {
    !pc.PushAlloc? && !pc.PushData? && !pc.PushLink? && !pc.PushCas? && !pc.PopCas? && !pc.RetireLink?
    && !pc.RetireCas? && !pc.PassTake? && !pc.PassNext? && !pc.PassFree?
  }

  lemma QuietMemory(s: State, g: History, e: Event)
    requires Enabled(s, e) && |g.lists| == |s.threads| + 2 && Quiet(s.threads[e.thread].pc) && !Step(s, e).fault
    ensures var s' := Step(s, e);
      s'.heap == s.heap && s'.head == s.head && s'.toReclaim == s.toReclaim && Track(s, g, e) == g
  {
    hide HeldNode, PassRest, PushOn, PopOff;
  }

  /** Among these steps, the ones of a thread with a node in its hand. */
  predicate Holds(pc: Pc) {
    pc.PushLoad? || pc.PopClear? || pc.PopData? || pc.RetireLoad? || pc.PassScan?
  }

  lemma FullHandKept(s: State, e: Event)
    requires Enabled(s, e) && Holds(s.threads[e.thread].pc)
    ensures HeldNode(Step(s, e).threads[e.thread].pc) == HeldNode(s.threads[e.thread].pc)
  {
  }

  lemma HandKept(s: State, e: Event)
    requires Enabled(s, e) && Quiet(s.threads[e.thread].pc)
    ensures HeldNode(Step(s, e).threads[e.thread].pc) == HeldNode(s.threads[e.thread].pc)
  {
    if Holds(s.threads[e.thread].pc) { FullHandKept(s, e); }
  }

  lemma RestKept(s: State, e: Event)
    requires Enabled(s, e) && Quiet(s.threads[e.thread].pc)
    ensures PassRest(Step(s, e).threads[e.thread].pc) == PassRest(s.threads[e.thread].pc)
  {
  }

  lemma QuietHand(s: State, e: Event)
    requires Enabled(s, e) && Quiet(s.threads[e.thread].pc) && !Step(s, e).fault
    ensures var pc, pc' := s.threads[e.thread].pc, Step(s, e).threads[e.thread].pc;
      HeldNode(pc') == HeldNode(pc) && PassRest(pc') == PassRest(pc)
  {
    hide Step, Enabled, Quiet, HeldNode, PassRest;
    HandKept(s, e);
    RestKept(s, e);
  }

  lemma QuietStep(s: State, g: History, e: Event)
    requires Enabled(s, e) && |g.lists| == |s.threads| + 2 && Quiet(s.threads[e.thread].pc) && !Step(s, e).fault
    ensures var s' := Step(s, e);
      && s'.heap == s.heap && OnlyThread(s, s', e.thread) && SameRoots(s, s', e.thread)
      && HeldNode(s'.threads[e.thread].pc) == HeldNode(s.threads[e.thread].pc)
      && Track(s, g, e) == g
  {
    hide Step, Track, Enabled, HeldNode, PassRest, Quiet;
    StepLocal(s, e);
    QuietMemory(s, g, e);
    QuietHand(s, e);
  }

  lemma OwnsStep(s: State, g: History, e: Event)
    requires Inv(s, g) && Enabled(s, e)
    ensures Owns(Step(s, e), Track(s, g, e))
  {
    var pc := s.threads[e.thread].pc;
    if Quiet(pc) {
      NoFault(s, g, e);
      QuietStep(s, g, e);
      OwnsQuiet(s, g, Step(s, e), e.thread);
    } else if pc.PushCas? {
      OwnsPush(s, g, e);
    } else if pc.PopCas? {
      OwnsPop(s, g, e);
    } else if pc.RetireCas? {
      OwnsRetire(s, g, e);
    } else if pc.PassTake? {
      OwnsTake(s, g, Step(s, e), e.thread);
    } else if pc.PassNext? {
      OwnsNext(s, g, e);
    } else if pc.PassFree? {
      Allocated(s, g, e.thread);
      OwnsFree(s, g, Step(s, e), e.thread);
    } else {
      OwnsHand(s, g, e);
    }
  }
}
