/** The ways the memory of one level changes, and what each of them keeps: the walk from the
    header, what can be reached, and what has once been taken off the walk.
  */
module ListChanges {
  import opened Refs
  import opened ListMemory
  import opened ListInvariant
  import opened ListOwnership

  /** A store that leaves the links alone, a mark, the unlinking of a marked tower, the linking of a new
      one. */
  datatype Change = Stores | Marks(x: Ref) | Unlinks(cur: Ref, next: Ref) | Links(pred: Ref, node: Ref)

  ghost predicate Changes(mem: Memory, mem': Memory, c: Change) {
    match c
    case Stores =>
      && |mem| <= |mem'|
      && (forall x :: IsLinked(mem', x) ==> IsLinked(mem, x))
      && (forall x :: IsLinked(mem, x) ==>
            && mem'[x].linked && mem'[x].key == mem[x].key
            && mem'[x].next == mem[x].next && mem'[x].marked == mem[x].marked)
    case Marks(x) => IsLinked(mem, x) && x != HEADER && mem' == Mark(mem, x)
    case Unlinks(cur, next) => CanUnlink(mem, cur, next) && mem' == SetNext(mem, cur, mem[next].next)
    case Links(pred, node) => CanLink(mem, pred, node) && mem' == Link(mem, pred, node)
  }

  lemma ChangeEvolves(mem: Memory, mem': Memory, c: Change)
    requires Changes(mem, mem', c)
    ensures Evolves(mem, mem')
    ensures forall x :: IsLinked(mem', x) && !IsLinked(mem, x) ==> c.Links? && x == c.node
  {
  }

  /** The walk after the change. */
  lemma WalkChange(mem: Memory, mem': Memory, c: Change, chain: seq<Ref>) returns (chain': seq<Ref>)
    requires WellFormed(mem, chain) && Changes(mem, mem', c)
    ensures WellFormed(mem', chain')
    ensures forall x :: x in chain' <==> (x in chain && !(c.Unlinks? && x == c.next)) || (c.Links? && x == c.node)
  {
    match c
    case Stores =>
      forall x | 0 <= x < |mem'| && mem'[x].linked
        ensures x < |mem| && mem[x].linked
      { assert IsLinked(mem', x); }
      forall x | 0 <= x < |mem| && mem[x].linked
        ensures mem'[x].linked && mem'[x].key == mem[x].key
        ensures mem'[x].next == mem[x].next && mem'[x].marked == mem[x].marked
      { assert IsLinked(mem, x); }
      StoreKeeps(mem, mem', chain);
      chain' := chain;
    case Marks(x) =>
      MarkKeeps(mem, chain, x);
      chain' := chain;
    case Unlinks(cur, next) => chain' := UnlinkKeeps(mem, chain, cur, next);
    case Links(pred, node) => chain' := LinkKeeps(mem, chain, pred, node);
  }

  ghost predicate HasWalk(mem: Memory) {
    exists chain :: WellFormed(mem, chain)
  }

  lemma OnWalkChange(mem: Memory, mem': Memory, c: Change, x: Ref)
    requires HasWalk(mem) && Changes(mem, mem', c)
    ensures HasWalk(mem')
    ensures OnWalk(mem', x) <==> (OnWalk(mem, x) && !(c.Unlinks? && x == c.next)) || (c.Links? && x == c.node)
  {
    hide WellFormed, OnWalk;
    var chain :| WellFormed(mem, chain);
    var chain' := WalkChange(mem, mem', c, chain);
    ChainIsWalk(mem, chain, x);
    ChainIsWalk(mem', chain', x);
  }

  lemma WalkKnown(mem: Memory, x: Ref)
    requires HasWalk(mem)
    ensures LinksOk(mem)
    ensures OnWalk(mem, x) ==> IsLinked(mem, x)
    ensures IsLinked(mem, x) && !mem[x].marked ==> OnWalk(mem, x)
  {
    var chain :| WellFormed(mem, chain);
    ChainIsWalk(mem, chain, x);
  }

  lemma ReachChange(mem: Memory, mem': Memory, c: Change, x: Ref, y: Ref)
    requires LinksOk(mem) && Changes(mem, mem', c) && Reach(mem, x, y) && (x == NIL || IsLinked(mem, x))
    requires c.Unlinks? ==> y != c.next
    ensures Reach(mem', x, y)
  {
    var n: nat :| ReachIn(mem, x, y, n);
    match c
    case Unlinks(cur, next) => ReachAcrossUnlink(mem, cur, next, x, y, n);
    case Links(pred, node) =>
      ReachAcrossLink(mem, pred, node, x, y, n);
      assert ReachIn(mem', x, y, 2 * n);
    case _ => ReachKept(mem, mem', x, y, n);
  }

  /** A walk that will pass its key still will, unless a tower of that key is linked. */
  lemma WillPassChange(mem: Memory, mem': Memory, c: Change, x: Ref, key: int)
    requires HasWalk(mem) && Changes(mem, mem', c) && WillPass(mem, x, key) && (x == NIL || IsLinked(mem, x))
    requires c.Links? ==> mem[c.node].key != key
    ensures WillPass(mem', x, key)
  {
    hide Reach, OnWalk, HasWalk, Changes;
    ChangeEvolves(mem, mem', c);
    WalkKnown(mem, x);
    forall b | OnWalk(mem', b) && Carries(mem', b, key)
      ensures Reach(mem', x, b)
    {
      OnWalkChange(mem, mem', c, b);
      if c.Links? { NewKey(mem, mem', c); }
      ReachChange(mem, mem', c, x, b);
    }
  }

  lemma NewKey(mem: Memory, mem': Memory, c: Change)
    requires Changes(mem, mem', c) && c.Links?
    ensures 0 <= c.node < |mem| <= |mem'| && mem'[c.node].key == mem[c.node].key
  {
  }

  /** A tower that is not marked reaches all on the walk with the key, from further left. */
  lemma EnterPasses(mem: Memory, a: Ref, key: int)
    requires HasWalk(mem) && Before(mem, a, key) && !mem[a].marked
    ensures WillPass(mem, a, key)
  {
    var chain :| WellFormed(mem, chain);
    forall b | OnWalk(mem, b) && Carries(mem, b, key)
      ensures Reach(mem, a, b)
    {
      ChainIsWalk(mem, chain, b);
      ReachLarger(mem, chain, a, b);
    }
  }

  /** Where a search for a key without an unmarked tower stops, the marked ones of that key are off the
      walk. */
  lemma StopPasses(mem: Memory, next: Ref, key: int, x: Ref)
    requires HasWalk(mem) && WillPass(mem, next, key) && Absent(mem, key) && Carries(mem, x, key)
    requires next == NIL || (NotBefore(mem, next, key) && !mem[next].marked)
    ensures !OnWalk(mem, x)
  {
    WalkKnown(mem, x);
    assert next != NIL ==> !Live(mem, next, key);
    if OnWalk(mem, x) {
      var n: nat :| ReachIn(mem, next, x, n);
      NilReachesNothing(mem, x, n);
      ReachSorted(mem, next, x, n);
    }
  }

  // What an operation finds off the walk as it begins.

  /** Still off it, and no link from any other tower leads to one of them. */
  ghost predicate IsStale(mem: Memory, stale: set<Ref>) {
    && (forall x :: x in stale ==> IsLinked(mem, x) && !OnWalk(mem, x))
    && (forall x :: IsLinked(mem, x) && x !in stale ==> mem[x].next !in stale)
  }

  ghost function OffWalk(mem: Memory): set<Ref> {
    set x | 0 <= x < |mem| && IsLinked(mem, x) && !OnWalk(mem, x)
  }

  lemma WalkGoesOn(mem: Memory, x: Ref)
    requires OnWalk(mem, x) && 0 <= x < |mem|
    ensures mem[x].next == NIL || OnWalk(mem, mem[x].next)
  {
    var n: nat :| ReachIn(mem, HEADER, x, n);
    ReachNext(mem, HEADER, x, n);
  }

  lemma {:induction false} ReachNext(mem: Memory, x: Ref, y: Ref, n: nat)
    requires ReachIn(mem, x, y, n) && 0 <= y < |mem|
    ensures ReachIn(mem, x, mem[y].next, n + 1)
    decreases n
  {
    if x == y {
      assert ReachIn(mem, mem[x].next, mem[y].next, n);
    } else {
      ReachNext(mem, mem[x].next, y, n - 1);
    }
  }

  lemma OffWalkIsStale(mem: Memory)
    requires HasWalk(mem)
    ensures IsStale(mem, OffWalk(mem)) && HEADER !in OffWalk(mem)
  {
    var stale := OffWalk(mem);
    WalkKnown(mem, HEADER);
    forall x | IsLinked(mem, x) && x !in stale
      ensures mem[x].next !in stale
    { WalkGoesOn(mem, x); }
  }

  lemma LinkToStale(mem: Memory, mem': Memory, c: Change, stale: set<Ref>, x: Ref)
    requires HasWalk(mem) && Changes(mem, mem', c) && IsStale(mem, stale) && IsLinked(mem', x) && x !in stale
    ensures mem'[x].next !in stale
  {
    hide OnWalk, HasWalk;
    if c.Links? { WalkKnown(mem, c.pred); }
    assert IsLinked(mem, x) ==> mem[x].next !in stale;
  }

  /** Nothing comes back to the walk, and no new link leads off it. */
  lemma StaleChange(mem: Memory, mem': Memory, c: Change, stale: set<Ref>)
    requires HasWalk(mem) && Changes(mem, mem', c) && IsStale(mem, stale)
    ensures IsStale(mem', stale)
  {
    hide OnWalk, HasWalk, Changes;
    ChangeEvolves(mem, mem', c);
    forall x | x in stale
      ensures IsLinked(mem', x) && !OnWalk(mem', x)
    {
      OnWalkChange(mem, mem', c, x);
      if c.Links? { NodeNotLinked(mem, mem', c); }
    }
    forall x | IsLinked(mem', x) && x !in stale
      ensures mem'[x].next !in stale
    { LinkToStale(mem, mem', c, stale, x); }
  }

  lemma NodeNotLinked(mem: Memory, mem': Memory, c: Change)
    requires Changes(mem, mem', c) && c.Links?
    ensures !IsLinked(mem, c.node)
  {
  }
}
