/** How far it is to the end of the list: from every tower that has ever been linked, also from
    unlinked ones, the walk ends.
  */
module ListDistance {
  import opened Refs
  import opened ListMemory
  import opened ListChanges

  /** The walk from x has ended after exactly n pointers. */
  predicate EndsAfter(mem: Memory, x: Ref, n: nat)
    decreases n
  {
    if x == NIL then n == 0 else n > 0 && 0 <= x < |mem| && EndsAfter(mem, mem[x].next, n - 1)
  }

  ghost predicate Ends(mem: Memory, x: Ref) {
    exists n: nat :: EndsAfter(mem, x, n)
  }

  ghost function Distance(mem: Memory, x: Ref): nat {
    if Ends(mem, x) then
      var n: nat :| EndsAfter(mem, x, n); n
    else 0
  }

  ghost predicate AllEnd(mem: Memory) {
    forall x :: IsLinked(mem, x) ==> Ends(mem, x)
  }

  lemma {:induction false} OneEnd(mem: Memory, x: Ref, n: nat, m: nat)
    requires EndsAfter(mem, x, n) && EndsAfter(mem, x, m)
    ensures n == m
    decreases n
  {
    if x != NIL { OneEnd(mem, mem[x].next, n - 1, m - 1); }
  }

  lemma DistanceIs(mem: Memory, x: Ref, n: nat)
    requires EndsAfter(mem, x, n)
    ensures Ends(mem, x) && Distance(mem, x) == n
  {
    OneEnd(mem, x, n, Distance(mem, x));
  }

  lemma DistanceNext(mem: Memory, x: Ref)
    requires Ends(mem, x) && 0 <= x < |mem|
    ensures Ends(mem, mem[x].next) && Distance(mem, x) == Distance(mem, mem[x].next) + 1
  {
    var n: nat :| EndsAfter(mem, x, n);
    DistanceIs(mem, x, n);
    DistanceIs(mem, mem[x].next, n - 1);
  }

  /** A walk on which no pointer has changed. */
  lemma {:induction false} EndsKept(mem: Memory, mem': Memory, x: Ref, n: nat)
    requires EndsAfter(mem, x, n) && LinksOk(mem) && (x == NIL || IsLinked(mem, x)) && |mem| <= |mem'|
    requires forall z :: IsLinked(mem, z) ==> mem'[z].next == mem[z].next
    ensures EndsAfter(mem', x, n)
    decreases n
  {
    if x != NIL {
      assert LinkOk(mem, x);
      EndsKept(mem, mem', mem[x].next, n - 1);
    }
  }

  /** Nor on one that begins nearer to the end than the only tower whose pointer has. */
  lemma {:induction false} EndsBefore(mem: Memory, mem': Memory, y: Ref, d: nat, x: Ref, n: nat)
    requires EndsAfter(mem, x, n) && EndsAfter(mem, y, d) && n < d && LinksOk(mem) && (x == NIL || IsLinked(mem, x))
    requires |mem| <= |mem'| && forall z :: IsLinked(mem, z) && z != y ==> mem'[z].next == mem[z].next
    ensures EndsAfter(mem', x, n)
    decreases n
  {
    if x != NIL {
      if x == y { OneEnd(mem, x, n, d); }
      assert LinkOk(mem, x);
      EndsBefore(mem, mem', y, d, mem[x].next, n - 1);
    }
  }

  /** If the walk from y still ends after its pointer has changed, so do all others. */
  lemma {:induction false} EndsThrough(mem: Memory, mem': Memory, y: Ref, x: Ref, n: nat)
    requires EndsAfter(mem, x, n) && LinksOk(mem) && (x == NIL || IsLinked(mem, x)) && Ends(mem', y)
    requires |mem| <= |mem'| && forall z :: IsLinked(mem, z) && z != y ==> mem'[z].next == mem[z].next
    ensures Ends(mem', x)
    decreases n
  {
    if x == NIL {
      assert EndsAfter(mem', x, 0);
    } else if x != y {
      assert LinkOk(mem, x);
      EndsThrough(mem, mem', y, mem[x].next, n - 1);
      var m: nat :| EndsAfter(mem', mem[x].next, m);
      assert EndsAfter(mem', x, m + 1);
    }
  }

  lemma EndsAtUnlink(mem: Memory, cur: Ref, next: Ref)
    requires LinksOk(mem) && AllEnd(mem) && CanUnlink(mem, cur, next)
    ensures var mem' := SetNext(mem, cur, mem[next].next);
      Ends(mem', cur) && Distance(mem', cur) < Distance(mem, next) + 1
  {
    var mem', after := SetNext(mem, cur, mem[next].next), mem[next].next;
    var d: nat :| EndsAfter(mem, cur, d);
    assert EndsAfter(mem, next, d - 1) && EndsAfter(mem, after, d - 2);
    assert LinkOk(mem, next);
    EndsBefore(mem, mem', cur, d, after, d - 2);
    assert EndsAfter(mem', cur, d - 1);
    DistanceIs(mem', cur, d - 1);
    DistanceIs(mem, next, d - 1);
  }

  lemma EndsAtLink(mem: Memory, pred: Ref, node: Ref)
    requires LinksOk(mem) && AllEnd(mem) && CanLink(mem, pred, node)
    ensures Ends(Link(mem, pred, node), pred) && Ends(Link(mem, pred, node), node)
  {
    var mem', succ := Link(mem, pred, node), mem[pred].next;
    var d: nat :| EndsAfter(mem, pred, d);
    assert EndsAfter(mem, succ, d - 1);
    assert LinkOk(mem, pred);
    EndsBefore(mem, mem', pred, d, succ, d - 1);
    assert EndsAfter(mem', node, d) && EndsAfter(mem', pred, d + 1);
  }

  lemma AllEndChange(mem: Memory, mem': Memory, c: Change)
    requires LinksOk(mem) && AllEnd(mem) && Changes(mem, mem', c)
    ensures AllEnd(mem')
  {
    if c.Unlinks? { EndsAtUnlink(mem, c.cur, c.next); }
    if c.Links? { EndsAtLink(mem, c.pred, c.node); }
    ChangeEvolves(mem, mem', c);
    forall x | IsLinked(mem', x)
      ensures Ends(mem', x)
    {
      if IsLinked(mem, x) {
        var n: nat :| EndsAfter(mem, x, n);
        match c
        case Unlinks(cur, next) => EndsThrough(mem, mem', cur, x, n);
        case Links(pred, node) => EndsThrough(mem, mem', pred, x, n);
        case _ => EndsKept(mem, mem', x, n);
      }
    }
  }
}
