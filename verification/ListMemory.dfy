/** The bottom level of the skip list in memory: a chain of towers from the header
    to NIL, with marked towers that are still linked and others that have been
    unlinked but can still be walked.
  */
module ListMemory {
  import opened Refs

  /** `next` and `marked` are the tagged pointer `forward[0]`; `linked` says the tower has been made
      reachable at some time, `open` that it is linked at the level above and not marked there. */
  datatype Tower = Tower(key: int, value: int, next: Ref, marked: bool, linked: bool, open: bool)

  type Memory = seq<Tower>

  predicate IsLinked(mem: Memory, x: Ref) {
    0 <= x < |mem| && mem[x].linked
  }

  /** The successor of a linked tower is NIL or a linked tower whose key is not smaller. */
  predicate LinkOk(mem: Memory, x: Ref)
    requires IsLinked(mem, x)
  {
    mem[x].next != NIL ==>
      IsLinked(mem, mem[x].next) && mem[x].next != HEADER && (x != HEADER ==> mem[x].key <= mem[mem[x].next].key)
  }

  ghost predicate LinksOk(mem: Memory) {
    && IsLinked(mem, HEADER) && !mem[HEADER].marked
    && forall x :: IsLinked(mem, x) ==> LinkOk(mem, x)
  }

  /** The walk from the header. */
  ghost predicate IsWalk(mem: Memory, chain: seq<Ref>) {
    && |chain| > 0 && chain[0] == HEADER
    && (forall i :: 0 <= i < |chain| ==> IsLinked(mem, chain[i]))
    && (forall i :: 0 <= i < |chain| - 1 ==> mem[chain[i]].next == chain[i + 1])
    && mem[chain[|chain| - 1]].next == NIL
    && (forall i, j :: 0 <= i < j < |chain| ==> chain[i] != chain[j])
  }

  /** Only marked towers can be off the walk from the header. */
  ghost predicate WellFormed(mem: Memory, chain: seq<Ref>) {
    && LinksOk(mem) && IsWalk(mem, chain)
    && forall x :: IsLinked(mem, x) && !mem[x].marked ==> x in chain
  }

  /** Tower y can be reached from x in at most n steps. */
  predicate ReachIn(mem: Memory, x: Ref, y: Ref, n: nat)
    decreases n
  {
    x == y || (n > 0 && 0 <= x < |mem| && ReachIn(mem, mem[x].next, y, n - 1))
  }

  ghost predicate Reach(mem: Memory, x: Ref, y: Ref) {
    exists n: nat :: ReachIn(mem, x, y, n)
  }

  function Mark(mem: Memory, x: Ref): Memory
    requires 0 <= x < |mem|
  {
    mem[x := mem[x].(marked := true)]
  }

  function SetNext(mem: Memory, x: Ref, next: Ref): Memory
    requires 0 <= x < |mem|
  {
    mem[x := mem[x].(next := next)]
  }

  /** A CAS that links the prepared tower after pred. */
  function Link(mem: Memory, pred: Ref, node: Ref): Memory
    requires 0 <= pred < |mem| && 0 <= node < |mem|
  {
    SetNext(mem, pred, node)[node := SetNext(mem, pred, node)[node].(linked := true)]
  }

  lemma NextInChain(mem: Memory, chain: seq<Ref>, x: Ref)
    requires WellFormed(mem, chain) && x in chain
    ensures IsLinked(mem, x)
    ensures var i := Position(chain, x);
      if mem[x].next == NIL then i == |chain| - 1 else i + 1 < |chain| && chain[i + 1] == mem[x].next
  {
    var i := Position(chain, x);
    assert LinkOk(mem, x);
    assert i < |chain| - 1 ==> IsLinked(mem, chain[i + 1]);
  }

  lemma MarkKeeps(mem: Memory, chain: seq<Ref>, x: Ref)
    requires WellFormed(mem, chain) && IsLinked(mem, x) && x != HEADER
    ensures WellFormed(Mark(mem, x), chain)
  {
    forall y | IsLinked(Mark(mem, x), y)
      ensures LinkOk(Mark(mem, x), y)
    { assert LinkOk(mem, y); }
  }

  /** A store to the value of a tower, or to a tower that is not linked yet. */
  lemma StoreKeeps(mem: Memory, mem': Memory, chain: seq<Ref>)
    requires WellFormed(mem, chain) && |mem| <= |mem'|
    requires forall x :: 0 <= x < |mem'| && mem'[x].linked ==> x < |mem| && mem[x].linked
    requires forall x :: 0 <= x < |mem| && mem[x].linked ==>
      mem'[x].linked && mem'[x].key == mem[x].key && mem'[x].next == mem[x].next && mem'[x].marked == mem[x].marked
    ensures WellFormed(mem', chain)
  {
    forall y | IsLinked(mem', y)
      ensures LinkOk(mem', y)
    { assert LinkOk(mem, y); }
  }

  /** What the CAS that unlinks a marked tower needs. */
  ghost predicate CanUnlink(mem: Memory, cur: Ref, next: Ref) {
    IsLinked(mem, cur) && !mem[cur].marked && mem[cur].next == next && IsLinked(mem, next) && mem[next].marked
  }

  lemma UnlinkKeepsLinks(mem: Memory, cur: Ref, next: Ref)
    requires LinksOk(mem) && CanUnlink(mem, cur, next)
    ensures LinksOk(SetNext(mem, cur, mem[next].next))
  {
    var mem' := SetNext(mem, cur, mem[next].next);
    assert LinkOk(mem, cur) && LinkOk(mem, next);
    forall y | IsLinked(mem', y)
      ensures LinkOk(mem', y)
    { assert LinkOk(mem, y); }
  }

  lemma UnlinkKeepsWalk(mem: Memory, chain: seq<Ref>, cur: Ref, next: Ref, i: nat)
    requires IsWalk(mem, chain) && CanUnlink(mem, cur, next)
    requires i + 1 < |chain| && chain[i] == cur && chain[i + 1] == next
    ensures IsWalk(SetNext(mem, cur, mem[next].next), chain[..i + 1] + chain[i + 2..])
  {
    var chain' := chain[..i + 1] + chain[i + 2..];
    forall j | 0 <= j < |chain'|
      ensures chain'[j] == if j <= i then chain[j] else chain[j + 1]
    {
    }
  }

  /** The CAS that unlinks the marked successor of an unmarked tower. */
  lemma UnlinkKeeps(mem: Memory, chain: seq<Ref>, cur: Ref, next: Ref) returns (chain': seq<Ref>)
    requires WellFormed(mem, chain) && CanUnlink(mem, cur, next)
    ensures WellFormed(SetNext(mem, cur, mem[next].next), chain')
    ensures forall x :: x in chain' <==> x in chain && x != next
  {
    var i := Position(chain, cur);
    NextInChain(mem, chain, cur);
    assert LinkOk(mem, cur);
    UnlinkKeepsLinks(mem, cur, next);
    UnlinkKeepsWalk(mem, chain, cur, next, i);
    chain' := chain[..i + 1] + chain[i + 2..];
    assert chain == chain[..i + 1] + [next] + chain[i + 2..];
    assert next !in chain[..i + 1] && next !in chain[i + 2..];
    hide LinksOk, IsWalk;
  }

  /** What the CAS that links a new tower needs. */
  ghost predicate CanLink(mem: Memory, pred: Ref, node: Ref) {
    && IsLinked(mem, pred) && !mem[pred].marked
    && 0 < node < |mem| && !mem[node].linked && !mem[node].marked && mem[node].next == mem[pred].next
    && (pred != HEADER ==> mem[pred].key <= mem[node].key)
    && (mem[pred].next != NIL ==> IsLinked(mem, mem[pred].next) && mem[node].key <= mem[mem[pred].next].key)
  }

  lemma LinkKeepsLinks(mem: Memory, pred: Ref, node: Ref)
    requires LinksOk(mem) && CanLink(mem, pred, node)
    ensures LinksOk(Link(mem, pred, node))
  {
    var mem' := Link(mem, pred, node);
    assert LinkOk(mem, pred);
    forall y | IsLinked(mem', y)
      ensures LinkOk(mem', y)
    { assert y != node ==> LinkOk(mem, y); }
  }

  lemma PutInChain(chain: seq<Ref>, node: Ref, i: nat)
    requires i < |chain| && node !in chain
    requires forall j, k :: 0 <= j < k < |chain| ==> chain[j] != chain[k]
    ensures var chain' := chain[..i + 1] + [node] + chain[i + 1..];
      && |chain'| == |chain| + 1
      && (forall j :: 0 <= j < |chain'| ==>
            chain'[j] == if j <= i then chain[j] else if j == i + 1 then node else chain[j - 1])
      && (forall j, k :: 0 <= j < k < |chain'| ==> chain'[j] != chain'[k])
  {
  }

  lemma LinkKeepsWalk(mem: Memory, chain: seq<Ref>, pred: Ref, node: Ref, i: nat)
    requires IsWalk(mem, chain) && CanLink(mem, pred, node)
    requires i < |chain| && chain[i] == pred
    ensures IsWalk(Link(mem, pred, node), chain[..i + 1] + [node] + chain[i + 1..])
  {
    var mem', chain' := Link(mem, pred, node), chain[..i + 1] + [node] + chain[i + 1..];
    PutInChain(chain, node, i);
    forall j | 0 <= j < |chain'|
      ensures IsLinked(mem', chain'[j])
      ensures mem'[chain'[j]].next == if j + 1 < |chain'| then chain'[j + 1] else NIL
    {
    }
  }

  /** The CAS that links a new tower. */
  lemma LinkKeeps(mem: Memory, chain: seq<Ref>, pred: Ref, node: Ref) returns (chain': seq<Ref>)
    requires WellFormed(mem, chain) && CanLink(mem, pred, node)
    ensures WellFormed(Link(mem, pred, node), chain')
    ensures forall x :: x in chain' <==> x in chain || x == node
  {
    var i := Position(chain, pred);
    LinkKeepsLinks(mem, pred, node);
    LinkKeepsWalk(mem, chain, pred, node, i);
    chain' := chain[..i + 1] + [node] + chain[i + 1..];
    assert chain == chain[..i + 1] + chain[i + 1..];
    hide LinksOk, IsWalk;
  }

  lemma {:induction false} ReachMore(mem: Memory, x: Ref, y: Ref, n: nat, m: nat)
    requires ReachIn(mem, x, y, n) && n <= m
    ensures ReachIn(mem, x, y, m)
    decreases n
  {
    if x != y { ReachMore(mem, mem[x].next, y, n - 1, m - 1); }
  }

  /** Marks and stores that change no pointer on the way. */
  lemma {:induction false} ReachKept(mem: Memory, mem': Memory, x: Ref, y: Ref, n: nat)
    requires ReachIn(mem, x, y, n) && LinksOk(mem) && (x == NIL || IsLinked(mem, x)) && |mem| <= |mem'|
    requires forall z :: IsLinked(mem, z) ==> mem'[z].next == mem[z].next
    ensures ReachIn(mem', x, y, n)
    decreases n
  {
    if x != y {
      assert LinkOk(mem, x);
      ReachKept(mem, mem', mem[x].next, y, n - 1);
    }
  }

  /** An unlinked tower is skipped: whatever else was reachable still is, even from unlinked towers. */
  lemma {:induction false} ReachAcrossUnlink(mem: Memory, cur: Ref, next: Ref, x: Ref, y: Ref, n: nat)
    requires CanUnlink(mem, cur, next) && ReachIn(mem, x, y, n) && y != next
    ensures ReachIn(SetNext(mem, cur, mem[next].next), x, y, n)
    decreases n
  {
    var mem' := SetNext(mem, cur, mem[next].next);
    if x != y {
      if x == cur && n > 1 {
        assert ReachIn(mem, next, y, n - 1);
        ReachAcrossUnlink(mem, cur, next, mem[next].next, y, n - 2);
        ReachMore(mem', mem[next].next, y, n - 2, n - 1);
      } else {
        ReachAcrossUnlink(mem, cur, next, mem[x].next, y, n - 1);
      }
    }
  }

  /** A new tower makes the way longer. */
  lemma {:induction false} ReachAcrossLink(mem: Memory, pred: Ref, node: Ref, x: Ref, y: Ref, n: nat)
    requires LinksOk(mem) && CanLink(mem, pred, node) && ReachIn(mem, x, y, n) && (x == NIL || IsLinked(mem, x))
    ensures ReachIn(Link(mem, pred, node), x, y, 2 * n)
    decreases n
  {
    var mem' := Link(mem, pred, node);
    if x != y {
      assert LinkOk(mem, x);
      ReachAcrossLink(mem, pred, node, mem[x].next, y, n - 1);
      if x == pred {
        assert mem'[node].next == mem[x].next;
        assert ReachIn(mem', node, y, 2 * n - 1);
      } else {
        ReachMore(mem', mem[x].next, y, 2 * n - 2, 2 * n - 1);
      }
    }
  }

  /** Along the walk every later tower is reachable. */
  lemma {:induction false} ReachAlong(mem: Memory, chain: seq<Ref>, i: nat, j: nat)
    requires IsWalk(mem, chain) && i <= j < |chain|
    ensures Reach(mem, chain[i], chain[j])
    decreases j - i
  {
    if i < j {
      ReachAlong(mem, chain, i + 1, j);
      var n: nat :| ReachIn(mem, chain[i + 1], chain[j], n);
      assert ReachIn(mem, chain[i], chain[j], n + 1);
    } else {
      assert ReachIn(mem, chain[i], chain[j], 0);
    }
  }

  lemma {:induction false} WalkSorted(mem: Memory, chain: seq<Ref>, i: nat, j: nat)
    requires LinksOk(mem) && IsWalk(mem, chain) && 0 < i <= j < |chain|
    ensures mem[chain[i]].key <= mem[chain[j]].key
    decreases j - i
  {
    if i < j {
      WalkSorted(mem, chain, i + 1, j);
      assert LinkOk(mem, chain[i]);
    }
  }

  /** A tower on the walk reaches every one on the walk that has a larger key. */
  lemma ReachLarger(mem: Memory, chain: seq<Ref>, x: Ref, y: Ref)
    requires WellFormed(mem, chain) && x in chain && y in chain && y != HEADER
    requires x == HEADER || mem[x].key < mem[y].key
    ensures Reach(mem, x, y)
  {
    var i, j := Position(chain, x), Position(chain, y);
    if j < i {
      assert j > 0 by { assert chain[0] == HEADER; }
      WalkSorted(mem, chain, j, i);
      assert false;
    }
    ReachAlong(mem, chain, i, j);
  }

  lemma NilReachesNothing(mem: Memory, y: Ref, n: nat)
    ensures y != NIL ==> !ReachIn(mem, NIL, y, n)
  {
  }

  /** What is reachable from a tower has no smaller key. */
  lemma {:induction false} ReachSorted(mem: Memory, x: Ref, y: Ref, n: nat)
    requires LinksOk(mem) && IsLinked(mem, x) && IsLinked(mem, y) && x != HEADER && ReachIn(mem, x, y, n)
    ensures mem[x].key <= mem[y].key
    decreases n
  {
    if x != y {
      assert LinkOk(mem, x);
      NilReachesNothing(mem, y, n - 1);
      ReachSorted(mem, mem[x].next, y, n - 1);
    }
  }
}
