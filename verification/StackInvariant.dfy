/** The inductive invariant of the stack machine: node ownership, hazard slots,
    and the guard a validated hazard is.
  */
module StackInvariant {
  import opened StackMachine
  import opened NodeOwnership
  import opened HazardSlots

  /** `lists[0]` is the stack, `lists[1]` the reclaim list, `lists[2+t]` the list thread t has
      taken for reclamation; each from the bottom up. */
  datatype History = History(lists: seq<seq<Ptr>>, place: Places)

  const STACK: nat := 0
  const RECLAIM: nat := 1

  function Taken(t: nat): nat {
    2 + t
  }

  /** The node a thread has in its own hand. */
  function HeldNode(pc: Pc): Ptr {
    match pc
    case PushData(_, n) => n
    case PushLoad(n) => n
    case PushLink(n, _) => n
    case PushCas(n, _) => n
    case PopClear(n) => n
    case PopData(n) => n
    case RetireLoad(n, _) => n
    case RetireLink(n, _, _) => n
    case RetireCas(n, _) => n
    case PassScan(c, _, _) => c
    case PassFree(c, _) => c
    case _ => NULL
  }

  /** What is left of the list a reclaim pass has taken. */
  function PassRest(pc: Pc): Ptr {
    match pc
    case PassNext(c) => c
    case PassScan(_, rest, _) => rest
    case PassFree(_, rest) => rest
    case RetireLoad(_, FromPass(rest)) => rest
    case RetireLink(_, _, FromPass(rest)) => rest
    case RetireCas(_, FromPass(rest)) => rest
    case _ => NULL
  }

  /** The node a thread has validated as the head and is about to use. */
  function Protected(pc: Pc): Ptr {
    match pc
    case PopNext(h) => h
    case PopCas(h, _) => h
    case _ => NULL
  }

  predicate NeedsSlot(pc: Pc) {
    pc.PopLoad? || pc.PopPublish? || pc.PopValidate? || pc.PopNext? || pc.PopCas? || pc.PopClear?
    || pc.ExitClear? || pc.ExitRelease?
  }

  /** Pointers the code dereferences at this point are not NULL. */
  predicate NonNull(pc: Pc) {
    match pc
    case PushData(_, n) => n != NULL
    case PushLoad(n) => n != NULL
    case PushLink(n, _) => n != NULL
    case PushCas(n, _) => n != NULL
    case PopNext(h) => h != NULL
    case PopCas(h, _) => h != NULL
    case PopData(h) => h != NULL
    case RetireLoad(n, _) => n != NULL
    case RetireLink(n, _, _) => n != NULL
    case RetireCas(n, _) => n != NULL
    case PassNext(c) => c != NULL
    case PassScan(c, _, _) => c != NULL
    case PassFree(c, _) => c != NULL
    case _ => true
  }

  predicate LocalOk(th: Thread) {
    && NonNull(th.pc)
    && (NeedsSlot(th.pc) ==> th.registered)
    && (th.registered ==> !th.pc.Exited? && !th.pc.Claim?)
    && (!th.registered && !th.pc.Exited? ==> th.slot == -1)
  }

  function HeldNodes(s: State): seq<Ptr> {
    seq(|s.threads|, u requires 0 <= u < |s.threads| => HeldNode(s.threads[u].pc))
  }

  function Roots(s: State): seq<Ptr> {
    [s.head, s.toReclaim] + seq(|s.threads|, u requires 0 <= u < |s.threads| => PassRest(s.threads[u].pc))
  }

  function Register(th: Thread): Registration {
    Registration(th.slot, th.registered, if th.pc.Claim? then th.pc.index else -1)
  }

  function Registrations(s: State): seq<Registration> {
    seq(|s.threads|, u requires 0 <= u < |s.threads| => Register(s.threads[u]))
  }

  ghost predicate Owns(s: State, g: History) {
    Owned(s.heap, Roots(s), HeldNodes(s), g.lists, g.place)
  }

  /** A thread that holds a node may have it freed under hazard slot i only after looking there. */
  predicate HolderSafe(pc: Pc, i: int) {
    match pc
    case PassScan(_, _, index) => index <= i
    case PassFree(_, _) => false
    case _ => !(pc.PushData? || pc.PushLoad? || pc.PushLink? || pc.PushCas?)
  }

  /** The hazard of thread u stands between the node it validated and every reclaimer, and what it
      read from that node is still true while the node is in the stack. */
  ghost predicate Guarded(s: State, g: History, u: nat)
    requires Shaped(s) && u < |s.threads|
  {
    var pc, i := s.threads[u].pc, s.threads[u].slot;
    && (pc.PopValidate? ==> 0 <= i < MAX_HAZARD_POINTERS && s.hazards[i] == pc.oldHead)
    && (pc.PushCas? ==> pc.node in s.heap && s.heap[pc.node].next == pc.top)
    && (Protected(pc) != NULL ==>
          var h := Protected(pc);
          && h in s.heap && h in g.place
          && 0 <= i < MAX_HAZARD_POINTERS && s.hazards[i] == h
          && match g.place[h]
             case InList(l, _) => pc.PopCas? && l == STACK ==> s.heap[h].next == pc.next
             case Held(w) => w < |s.threads| && HolderSafe(s.threads[w].pc, i))
  }

  ghost predicate Inv(s: State, g: History) {
    && Shaped(s)
    && !s.fault
    && |s.threads| <= MAX_HAZARD_POINTERS
    && |g.lists| == |s.threads| + 2
    && Owns(s, g)
    && SlotsOk(s.ids, Registrations(s))
    && (forall u :: 0 <= u < |s.threads| ==> LocalOk(s.threads[u]))
    && (forall u :: 0 <= u < |s.threads| ==> Guarded(s, g, u))
  }

  /** How an event moves nodes between lists and hands. */
  function Track(s: State, g: History, e: Event): History
    requires Enabled(s, e) && |g.lists| == |s.threads| + 2
  {
    var t := e.thread;
    match s.threads[t].pc
    case PushAlloc(_) => g.(place := g.place[e.action.addr := Held(t)])
    case PushCas(n, top) => if s.head == top then PushOn(g, STACK, n) else g
    case PopCas(h, _) => if s.head == h then PopOff(g, STACK, t) else g
    case RetireCas(n, _) =>
      if n in s.heap && s.heap[n].next == s.toReclaim && e.action.Tau? then PushOn(g, RECLAIM, n) else g
    case PassTake =>
      History(g.lists[Taken(t) := g.lists[RECLAIM]][RECLAIM := []], Moved(g.place, RECLAIM, Taken(t)))
    case PassNext(_) => PopOff(g, Taken(t), t)
    case PassFree(c, _) => g.(place := g.place - {c})
    case _ => g
  }

  function PushOn(g: History, l: nat, n: Ptr): History
    requires l < |g.lists|
  {
    History(g.lists[l := g.lists[l] + [n]], g.place[n := InList(l, |g.lists[l]|)])
  }

  function PopOff(g: History, l: nat, t: nat): History
    requires l < |g.lists|
  {
    if g.lists[l] == [] then g else
    History(g.lists[l := g.lists[l][..|g.lists[l]| - 1]], g.place[Top(g.lists[l]) := Held(t)])
  }

  lemma Projected(s: State, s': State, t: nat)
    requires t < |s.threads| == |s'.threads| && s'.threads == s.threads[t := s'.threads[t]]
    ensures HeldNodes(s') == HeldNodes(s)[t := HeldNode(s'.threads[t].pc)]
    ensures Roots(s') == Roots(s)[STACK := s'.head][RECLAIM := s'.toReclaim][Taken(t) := PassRest(s'.threads[t].pc)]
    ensures Registrations(s') == Registrations(s)[t := Register(s'.threads[t])]
  {
  }
}
