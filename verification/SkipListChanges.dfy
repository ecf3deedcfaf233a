/** What inserting, marking, retiring and freeing a tower do to the skip list's memory. */
module SkipListChanges {
  import opened Epochs
  import opened Refs
  import opened TaggedPointers
  import opened SkipListLevels

  /** A reclaim list, linked through `reclaim_next`. */
  predicate IsList(towers: Towers, head: Ref, list: seq<Ref>)
    decreases list
  {
    if list == [] then head == NIL
    else head == list[0] && head in towers && IsList(towers, towers[head].reclaimNext, list[1..])
  }

  lemma {:induction false} IsListKept(towers: Towers, towers': Towers, head: Ref, list: seq<Ref>)
    requires IsList(towers, head, list)
    requires forall x :: x in list && x in towers ==> x in towers' && towers'[x].reclaimNext == towers[x].reclaimNext
    ensures IsList(towers', head, list)
    decreases list
  {
    if list != [] { IsListKept(towers, towers', towers[head].reclaimNext, list[1..]); }
  }

  ghost predicate ListsOk(towers: Towers, heads: seq<Ref>, lists: seq<seq<Ref>>) {
    && |heads| == |lists| == NUM_EPOCHS
    && forall e :: 0 <= e < NUM_EPOCHS ==> IsList(towers, heads[e], lists[e])
  }

  lemma ListsKept(towers: Towers, towers': Towers, heads: seq<Ref>, lists: seq<seq<Ref>>)
    requires ListsOk(towers, heads, lists)
    requires forall x :: x in Joined(lists) && x in towers ==>
      x in towers' && towers'[x].reclaimNext == towers[x].reclaimNext
    ensures ListsOk(towers', heads, lists)
  {
    forall e | 0 <= e < NUM_EPOCHS
      ensures IsList(towers', heads[e], lists[e])
    { IsListKept(towers, towers', heads[e], lists[e]); }
  }

  function Joined(lists: seq<seq<Ref>>): seq<Ref>
    requires |lists| == NUM_EPOCHS
  {
    lists[0] + lists[1] + lists[2] + lists[3]
  }

  lemma JoinedPush(lists: seq<seq<Ref>>, e: nat, x: Ref)
    requires |lists| == NUM_EPOCHS && e < NUM_EPOCHS
    ensures multiset(Joined(lists[e := [x] + lists[e]])) == multiset(Joined(lists)) + multiset{x}
  {
  }

  lemma JoinedPop(lists: seq<seq<Ref>>, e: nat)
    requires |lists| == NUM_EPOCHS && e < NUM_EPOCHS && lists[e] != []
    ensures multiset(Joined(lists)) == multiset(Joined(lists[e := lists[e][1..]])) + multiset{lists[e][0]}
  {
    var lists' := lists[e := lists[e][1..]];
    assert [lists[e][0]] + lists'[e] == lists[e];
    assert lists'[e := lists[e]] == lists;
    JoinedPush(lists', e, lists[e][0]);
  }

  /** Every tower in memory is in exactly one place, once: linked at the bottom level, on a reclaim
      list, or in the hand of the running operation. */
  ghost predicate Placed(towers: Towers, chain: seq<Ref>, lists: seq<seq<Ref>>, hand: multiset<Ref>) {
    |lists| == NUM_EPOCHS && multiset(chain) + multiset(Joined(lists)) + hand == multiset(towers.Keys)
  }

  /** The skip list between operations. */
  ghost predicate Whole(towers: Towers, chains: seq<seq<Ref>>, heads: seq<Ref>, lists: seq<seq<Ref>>) {
    && Shape(towers, chains) && Settled(towers, chains)
    && Placed(towers, chains[0], lists, multiset{}) && ListsOk(towers, heads, lists)
  }

  /** The map it stands for. */
  ghost function Stored(towers: Towers, chains: seq<seq<Ref>>): map<int, int>
    requires Levels(towers, chains)
  {
    assert LevelOk(towers, 0, chains[0]);
    Contents(towers, chains[0])
  }

  lemma PlacedOnce(towers: Towers, chain: seq<Ref>, lists: seq<seq<Ref>>, hand: multiset<Ref>, x: Ref)
    requires Placed(towers, chain, lists, hand)
    ensures (x in chain || x in Joined(lists) || x in hand) ==> x in towers
    ensures multiset(chain)[x] + multiset(Joined(lists))[x] + hand[x] == if x in towers then 1 else 0
    ensures !(x in chain && x in Joined(lists)) && !(x in chain && x in hand) && !(x in Joined(lists) && x in hand)
  {
    assert multiset(chain)[x] + multiset(Joined(lists))[x] + hand[x] == multiset(towers.Keys)[x];
    assert (x in chain <==> multiset(chain)[x] > 0) && (x in Joined(lists) <==> multiset(Joined(lists))[x] > 0);
  }

  lemma {:induction false} DistinctOnce(xs: seq<Ref>)
    requires forall i, j :: 0 <= i < j < |xs| ==> xs[i] != xs[j]
    ensures forall x :: multiset(xs)[x] == if x in xs then 1 else 0
  {
    if xs != [] {
      var n := |xs| - 1;
      DistinctOnce(xs[..n]);
      assert xs == xs[..n] + [xs[n]];
    }
  }

  lemma ChainOnce(towers: Towers, l: nat, chain: seq<Ref>)
    requires Sorted(towers, l, chain)
    ensures forall x :: multiset(chain)[x] == if x in chain then 1 else 0
  {
    forall i, j | 0 <= i < j < |chain|
      ensures chain[i] != chain[j]
    { InLevel(towers, l, chain, i, j); }
    DistinctOnce(chain);
  }

  /** `fill_tables` takes nothing from a skip list between operations. */
  lemma NothingToTrim(t: Towers, c: seq<seq<Ref>>, t': Towers, c': seq<seq<Ref>>, heads: seq<Ref>, lists: seq<seq<Ref>>)
    requires Whole(t, c, heads, lists) && Trimmed(t, c, t', c') && Shape(t', c')
    ensures Whole(t', c', heads, lists) && Stored(t', c') == Stored(t, c) && t'.Keys == t.Keys
    ensures |c| == |c'| == NUM_LEVELS && forall x :: x in c'[0] ==> x in c[0] && x in t && t'[x].key == t[x].key
  {
    forall l, x | 0 <= l < NUM_LEVELS
      ensures x in c'[l] <==> x in c[l]
    { assert x in c[l] ==> x in c[0] && !Marked(t, x); }
    forall x | x in t
      ensures SameTower(t, t', x)
    {
    }
    assert LevelOk(t, 0, c[0]) && LevelOk(t', 0, c'[0]);
    ContentsSame(t, c[0], t', c'[0]);
    ChainOnce(t, 0, c[0]);
    ChainOnce(t', 0, c'[0]);
    assert multiset(c'[0]) == multiset(c[0]);
    ListsKept(t, t', heads, lists);
  }

  /** The search has decided: the key is stored exactly if the successor at the bottom has it. */
  lemma SearchDecides(t: Towers, c: seq<seq<Ref>>, pred: Ref, succ: Ref, key: int)
    requires Shape(t, c) && Located(t, c[0], 0, pred, succ, key)
    ensures succ != NIL ==> succ in t
    ensures if succ != NIL && t[succ].key == key then key in Stored(t, c) && Stored(t, c)[key] == t[succ].value
            else key !in Stored(t, c)
    ensures |c| == NUM_LEVELS && (succ != NIL ==> succ in c[0] && succ != HEADER && !Marked(t, succ))
  {
    assert LevelOk(t, 0, c[0]);
    if succ != NIL && t[succ].key == key {
      ContentsAt(t, c[0], succ);
    } else {
      LocatedDecides(t, c[0], 0, pred, succ, key);
    }
  }

  /** Links and keys are all that counts for the shape, and only those of linked towers. */
  lemma SameLinks(t: Towers, c: seq<seq<Ref>>, t': Towers)
    requires Shape(t, c) && Settled(t, c) && t'.Keys <= t.Keys
    requires forall x :: x in c[0] ==> x in t'
    requires forall x :: x in t' ==> t'[x].key == t[x].key && t'[x].forward == t[x].forward
    ensures Shape(t', c) && Settled(t', c)
  {
    assert LevelOk(t, 0, c[0]);
    forall l | 0 <= l < NUM_LEVELS
      ensures LevelOk(t', l, c[l])
    { assert LevelOk(t, l, c[l]); SameLevel(t, t', l, c[l]); }
    hide LevelOk;
  }

  /** A new value for a key that is stored. */
  lemma ValueStored(t: Towers, c: seq<seq<Ref>>, heads: seq<Ref>, lists: seq<seq<Ref>>, x: Ref, value: int)
    requires Whole(t, c, heads, lists) && x in c[0] && x in t && x != HEADER
    ensures var t' := t[x := t[x].(value := value)];
      Whole(t', c, heads, lists) && Stored(t', c) == Stored(t, c)[t[x].key := value]
  {
    hide Joined, IsList, LinkAt, Uniform, Nested;
    var t' := t[x := t[x].(value := value)];
    SameLinks(t, c, t');
    assert LevelOk(t, 0, c[0]) && LevelOk(t', 0, c[0]);
    ContentsUpdated(t, c[0], t', c[0], x);
    ListsKept(t, t', heads, lists);
    assert t'.Keys == t.Keys;
  }

  /** A tower with all its pointers marked; targets and all else as before. */
  ghost predicate MarkedFrom(t: Towers, t': Towers, x: Ref, l: nat) {
    && x in t && t'.Keys == t.Keys && l <= |t[x].forward| == |t'[x].forward|
    && (forall y :: y in t && y != x ==> t'[y] == t[y])
    && t'[x].key == t[x].key && t'[x].value == t[x].value && t'[x].reclaimNext == t[x].reclaimNext
    && (forall m :: 0 <= m < |t[x].forward| ==>
          t'[x].forward[m] == Link(t[x].forward[m].to, t[x].forward[m].marked || m >= l))
  }

  lemma MarkedShape(t: Towers, t': Towers, chains: seq<seq<Ref>>, x: Ref)
    requires Shape(t, chains) && x != HEADER && MarkedFrom(t, t', x, 0)
    ensures Shape(t', chains) && Marked(t', x)
  {
    forall l | 0 <= l < NUM_LEVELS
      ensures LevelOk(t', l, chains[l])
    { assert LevelOk(t, l, chains[l]); SameLevel(t, t', l, chains[l]); }
    hide LevelOk;
  }

  lemma MarkedElements(t: Towers, c: seq<seq<Ref>>, t1: Towers, t': Towers, c': seq<seq<Ref>>, x: Ref,
                       l: nat, pred: Ref, succ: Ref)
    requires Shape(t, c) && Settled(t, c) && x in c[0] && x != HEADER && MarkedFrom(t, t1, x, 0)
    requires Trimmed(t1, c, t', c') && Shape(t', c') && l < NUM_LEVELS && Located(t', c'[l], l, pred, succ, t[x].key)
    ensures forall y :: y in c'[l] <==> y in c[l] && y != x
  {
    assert LevelOk(t', l, c'[l]);
    LocatedDecides(t', c'[l], l, pred, succ, t[x].key);
    assert SameTower(t1, t', x) && Marked(t1, x);
    forall y
      ensures y in c'[l] <==> y in c[l] && y != x
    { assert y in c[l] && y != x ==> !Marked(t, y) && !Marked(t1, y); }
  }

  /** The search after the marking has unlinked the tower from every level: it is in the remover's hand. */
  lemma MarkedUnlinked(t: Towers, c: seq<seq<Ref>>, t1: Towers, t': Towers, c': seq<seq<Ref>>, x: Ref,
                       preds: seq<Ref>, succs: seq<Ref>, heads: seq<Ref>, lists: seq<seq<Ref>>)
    requires Whole(t, c, heads, lists) && x in c[0] && x != HEADER && MarkedFrom(t, t1, x, 0)
    requires Trimmed(t1, c, t', c') && Shape(t', c') && |preds| == |succs| == NUM_LEVELS
    requires forall l :: 0 <= l < NUM_LEVELS ==> Located(t', c'[l], l, preds[l], succs[l], t[x].key)
    ensures Settled(t', c') && Placed(t', c'[0], lists, multiset{x}) && ListsOk(t', heads, lists)
    ensures Stored(t', c') == Stored(t, c) - {t[x].key}
  {
    hide Joined, IsList, Located, Contents;
    forall l | 0 <= l < NUM_LEVELS
      ensures forall y :: y in c'[l] <==> y in c[l] && y != x
    { MarkedElements(t, c, t1, t', c', x, l, preds[l], succs[l]); }
    forall y | y in t
      ensures SameTower(t1, t', y)
    {
    }
    assert LevelOk(t, 0, c[0]) && LevelOk(t', 0, c'[0]);
    ContentsRemoved(t, c[0], t', c'[0], x);
    ChainOnce(t, 0, c[0]);
    ChainOnce(t', 0, c'[0]);
    assert multiset(c'[0]) + multiset{x} == multiset(c[0]);
    ListsKept(t, t', heads, lists);
  }

  lemma RetireLists(t: Towers, lists: seq<seq<Ref>>, heads: seq<Ref>, x: Ref, e: nat)
    requires ListsOk(t, heads, lists) && e < NUM_EPOCHS && x in t && x !in Joined(lists)
    ensures ListsOk(t[x := t[x].(reclaimNext := heads[e])], heads[e := x], lists[e := [x] + lists[e]])
  {
    ListsKept(t, t[x := t[x].(reclaimNext := heads[e])], heads, lists);
    assert ([x] + lists[e])[1..] == lists[e];
  }

  lemma RetirePlaced(t: Towers, chain: seq<Ref>, lists: seq<seq<Ref>>, heads: seq<Ref>, x: Ref, e: nat)
    requires ListsOk(t, heads, lists) && e < NUM_EPOCHS && Placed(t, chain, lists, multiset{x})
    ensures x in t
    ensures var t' := t[x := t[x].(reclaimNext := heads[e])]; var lists' := lists[e := [x] + lists[e]];
      Placed(t', chain, lists', multiset{}) && ListsOk(t', heads[e := x], lists')
  {
    hide Joined, IsList;
    PlacedOnce(t, chain, lists, multiset{x}, x);
    RetireLists(t, lists, heads, x, e);
    JoinedPush(lists, e, x);
    assert t[x := t[x].(reclaimNext := heads[e])].Keys == t.Keys;
  }

  /** `add_to_reclaim_list` with the tower in hand. */
  lemma RetireKeeps(t: Towers, chains: seq<seq<Ref>>, heads: seq<Ref>, lists: seq<seq<Ref>>, x: Ref, e: nat)
    requires Shape(t, chains) && Settled(t, chains) && Placed(t, chains[0], lists, multiset{x})
      && ListsOk(t, heads, lists)
    requires e < NUM_EPOCHS
    ensures x in t && |heads| == |lists| == NUM_EPOCHS
    ensures var t' := t[x := t[x].(reclaimNext := heads[e])];
      Whole(t', chains, heads[e := x], lists[e := [x] + lists[e]]) && Stored(t', chains) == Stored(t, chains)
  {
    RetirePlaced(t, chains[0], lists, heads, x, e);
    RetireShape(t, chains, x, heads[e]);
    hide Shape, Settled, Placed, ListsOk;
  }

  lemma RetireShape(t: Towers, chains: seq<seq<Ref>>, x: Ref, next: Ref)
    requires Shape(t, chains) && Settled(t, chains) && x in t
    ensures var t' := t[x := t[x].(reclaimNext := next)];
      Shape(t', chains) && Settled(t', chains) && Stored(t', chains) == Stored(t, chains)
  {
    SameLinks(t, chains, t[x := t[x].(reclaimNext := next)]);
    assert LevelOk(t, 0, chains[0]);
    ContentsSame(t, chains[0], t[x := t[x].(reclaimNext := next)], chains[0]);
  }

  /** Freeing a tower that is not linked. */
  lemma FreeKeeps(t: Towers, chains: seq<seq<Ref>>, x: Ref)
    requires Shape(t, chains) && Settled(t, chains) && x in t && x !in chains[0]
    ensures Shape(t - {x}, chains) && Settled(t - {x}, chains)
    ensures Stored(t - {x}, chains) == Stored(t, chains)
  {
    assert LevelOk(t, 0, chains[0]);
    SameLinks(t, chains, t - {x});
    ContentsSame(t, chains[0], t - {x}, chains[0]);
  }

  lemma FreeFirstPlaced(t: Towers, chain: seq<Ref>, lists: seq<seq<Ref>>, e: nat)
    requires Placed(t, chain, lists, multiset{}) && e < NUM_EPOCHS && lists[e] != []
    ensures var x := lists[e][0]; var lists' := lists[e := lists[e][1..]];
      x in t && x !in chain && x !in Joined(lists') && Placed(t - {x}, chain, lists', multiset{})
  {
    var x, lists' := lists[e][0], lists[e := lists[e][1..]];
    JoinedPop(lists, e);
    hide Joined;
    PlacedOnce(t, chain, lists, multiset{}, x);
    assert multiset(Joined(lists'))[x] == 0;
    forall y
      ensures multiset(chain)[y] + multiset(Joined(lists'))[y] == multiset((t - {x}).Keys)[y]
    { PlacedOnce(t, chain, lists, multiset{}, y); }
  }

  lemma FreeFirstLists(t: Towers, lists: seq<seq<Ref>>, heads: seq<Ref>, e: nat)
    requires ListsOk(t, heads, lists) && e < NUM_EPOCHS && heads[e] != NIL
    requires lists[e] != [] ==> lists[e][0] !in Joined(lists[e := lists[e][1..]])
    ensures lists[e] != [] && heads[e] == lists[e][0] && heads[e] in t
    ensures ListsOk(t - {heads[e]}, heads[e := t[heads[e]].reclaimNext], lists[e := lists[e][1..]])
  {
    var x, lists' := heads[e], lists[e := lists[e][1..]];
    forall d | 0 <= d < NUM_EPOCHS
      ensures IsList(t, heads[e := t[x].reclaimNext][d], lists'[d])
    { assert IsList(t, heads[d], lists[d]); }
    ListsKept(t, t - {x}, heads[e := t[x].reclaimNext], lists');
  }

  /** The first tower of a reclaim list is freed. */
  lemma FreeFirst(t: Towers, chain: seq<Ref>, lists: seq<seq<Ref>>, heads: seq<Ref>, e: nat)
    requires ListsOk(t, heads, lists) && Placed(t, chain, lists, multiset{}) && e < NUM_EPOCHS && heads[e] != NIL
    ensures lists[e] != [] && heads[e] == lists[e][0] && heads[e] in t && heads[e] !in chain
    ensures var x := heads[e]; var lists' := lists[e := lists[e][1..]];
      ListsOk(t - {x}, heads[e := t[x].reclaimNext], lists') && Placed(t - {x}, chain, lists', multiset{})
  {
    hide Joined, Placed;
    assert IsList(t, heads[e], lists[e]);
    FreeFirstPlaced(t, chain, lists, e);
    FreeFirstLists(t, lists, heads, e);
  }

  /** The reclaimer frees the first tower of a list. */
  lemma FreeFirstKeeps(t: Towers, c: seq<seq<Ref>>, heads: seq<Ref>, lists: seq<seq<Ref>>, e: nat)
    requires Whole(t, c, heads, lists) && e < NUM_EPOCHS && heads[e] != NIL
    ensures lists[e] != [] && heads[e] == lists[e][0] && heads[e] in t && heads[e] != HEADER
    ensures var x := heads[e];
      && Whole(t - {x}, c, heads[e := t[x].reclaimNext], lists[e := lists[e][1..]])
      && Stored(t - {x}, c) == Stored(t, c)
  {
    FreeFirst(t, c[0], lists, heads, e);
    assert LevelOk(t, 0, c[0]);
    FreeKeeps(t, c, heads[e]);
  }

  /** What insertion leaves of the other towers. */
  ghost predicate Kept(t0: Towers, t: Towers, x: Ref)
    requires x in t0 && x in t
  {
    && t[x].key == t0[x].key && t[x].value == t0[x].value && t[x].reclaimNext == t0[x].reclaimNext
    && |t[x].forward| == |t0[x].forward|
    && forall m :: 0 <= m < |t[x].forward| ==> t[x].forward[m].marked == t0[x].forward[m].marked
  }

  /** Where a level wants its pointers changed for a key that is not on it. */
  ghost predicate Gap(t: Towers, chain: seq<Ref>, l: nat, pred: Ref, succ: Ref, key: int) {
    Located(t, chain, l, pred, succ, key) && (succ != NIL ==> t[succ].key != key)
  }

  /** The new tower is linked at the levels below lvl and has still to be linked above. */
  ghost predicate Inserting(t0: Towers, c0: seq<seq<Ref>>, t: Towers, c: seq<seq<Ref>>, node: Ref, tower: Tower,
                            lvl: nat,
                            preds: seq<Ref>, succs: seq<Ref>) {
    && |c0| == |c| == |preds| == |succs| == NUM_LEVELS && lvl <= |tower.forward| <= NUM_LEVELS
    && node != NIL && node != HEADER && node !in t0 && NIL !in t0 && t.Keys == t0.Keys + {node}
    && (forall x :: x in t0 ==> Kept(t0, t, x))
    && t[node].key == tower.key && t[node].value == tower.value && |t[node].forward| == |tower.forward|
    && (forall m :: 0 <= m < lvl ==> !t[node].forward[m].marked)
    && Levels(t, c)
    && (forall l, x :: 0 <= l < NUM_LEVELS && x in c0[l] ==> x in t0)
    && (forall l :: 0 <= l < lvl ==> forall x :: x in c[l] <==> x in c0[l] || x == node)
    && (forall l :: lvl <= l < NUM_LEVELS ==> c[l] == c0[l])
    && (forall l :: lvl <= l < |tower.forward| ==> Gap(t, c[l], l, preds[l], succs[l], tower.key))
  }

  lemma InsertBegins(t0: Towers, c0: seq<seq<Ref>>, heads: seq<Ref>, lists: seq<seq<Ref>>, node: Ref, tower: Tower,
                     preds: seq<Ref>, succs: seq<Ref>)
    requires Whole(t0, c0, heads, lists) && node !in t0 && node != NIL && 0 < |tower.forward| <= NUM_LEVELS
    requires |preds| == |succs| == NUM_LEVELS
    requires forall l :: 0 <= l < NUM_LEVELS ==> Located(t0, c0[l], l, preds[l], succs[l], tower.key)
    requires succs[0] != NIL ==> succs[0] in t0 && t0[succs[0]].key != tower.key
    ensures Inserting(t0, c0, t0[node := tower], c0, node, tower, 0, preds, succs)
    ensures |c0| == NUM_LEVELS && tower.key !in Stored(t0, c0)
  {
    var t := t0[node := tower];
    assert LevelOk(t0, 0, c0[0]);
    LocatedDecides(t0, c0[0], 0, preds[0], succs[0], tower.key);
    forall l | 0 <= l < NUM_LEVELS
      ensures LevelOk(t, l, c0[l])
      ensures Gap(t, c0[l], l, preds[l], succs[l], tower.key)
    {
      assert LevelOk(t0, l, c0[l]) && Located(t0, c0[l], l, preds[l], succs[l], tower.key);
      SameLevel(t0, t, l, c0[l]);
      assert succs[l] != NIL ==> succs[l] in c0[0];
    }
  }

  /** The two stores at one level: the tower's own pointer, then the CAS on its predecessor. */
  function LinkTower(t: Towers, node: Ref, l: nat, pred: Ref, succ: Ref): Towers
    requires node in t && l < |t[node].forward| && pred in t && l < |t[pred].forward|
  {
    SetForward(SetForward(t, node, l, Link(succ, false)), pred, l, Link(node, false))
  }

  lemma LinkTowerLevels(t: Towers, c: seq<seq<Ref>>, node: Ref, l: nat, pred: Ref, succ: Ref)
    requires Levels(t, c) && l < NUM_LEVELS && node in t && node != HEADER && l < |t[node].forward| && node !in c[l]
    requires NIL !in t && Gap(t, c[l], l, pred, succ, t[node].key)
    ensures pred in c[l] && Levels(LinkTower(t, node, l, pred, succ), c[l := With(c[l], Position(c[l], pred), node)])
  {
    var i, t1 := Position(c[l], pred), SetForward(t, node, l, Link(succ, false));
    assert LevelOk(t, l, c[l]) && LinkAt(t, l, c[l], i);
    assert i + 1 < |c[l]| ==> c[l][i + 1] in c[l];
    forall m | 0 <= m < NUM_LEVELS
      ensures LevelOk(t1, m, c[m])
    { assert LevelOk(t, m, c[m]); OtherLevel(t, node, l, Link(succ, false), m, c[m]); }
    LinkLevel(t1, l, c[l], i, node);
    forall m | 0 <= m < NUM_LEVELS && m != l
      ensures LevelOk(LinkTower(t, node, l, pred, succ), m, c[m])
    { OtherLevel(t1, pred, l, Link(node, false), m, c[m]); }
  }

  lemma LinkTowerGaps(t: Towers, c: seq<Ref>, node: Ref, l: nat, pred: Ref, succ: Ref, m: nat, p: Ref, s: Ref)
    requires node in t && l < |t[node].forward| && pred in t && l < |t[pred].forward| && m != l
    requires node !in c && Gap(t, c, m, p, s, t[node].key) && !t[pred].forward[l].marked
    ensures Gap(LinkTower(t, node, l, pred, succ), c, m, p, s, t[node].key)
  {
  }

  /** One level: the CAS finds what the search has left, and the tower joins the level. */
  lemma InsertLevel(t0: Towers, c0: seq<seq<Ref>>, t: Towers, c: seq<seq<Ref>>, node: Ref, tower: Tower, l: nat,
                    preds: seq<Ref>, succs: seq<Ref>)
    requires Inserting(t0, c0, t, c, node, tower, l, preds, succs) && l < |tower.forward|
    ensures node in t && l < |t[node].forward| && node != preds[l] && preds[l] in t && l < |t[preds[l]].forward|
    ensures t[preds[l]].forward[l] == Link(succs[l], false) && preds[l] in c[l]
    ensures Inserting(t0, c0, LinkTower(t, node, l, preds[l], succs[l]),
                      c[l := With(c[l], Position(c[l], preds[l]), node)],
                      node, tower, l + 1, preds, succs)
  {
    hide LevelOk;
    var pred, succ := preds[l], succs[l];
    assert Gap(t, c[l], l, pred, succ, tower.key);
    LinkTowerLevels(t, c, node, l, pred, succ);
    var t2, i := LinkTower(t, node, l, pred, succ), Position(c[l], pred);
    forall x | x in t0
      ensures Kept(t0, t2, x)
    { assert Kept(t0, t, x); }
    forall m | l < m < |tower.forward|
      ensures Gap(t2, c[m], m, preds[m], succs[m], tower.key)
    { LinkTowerGaps(t, c[m], node, l, pred, succ, m, preds[m], succs[m]); }
    assert c[l] == c[l][..i + 1] + c[l][i + 1..];
    hide Gap, Kept;
  }

  lemma InsertedShape(t0: Towers, c0: seq<seq<Ref>>, t: Towers, c: seq<seq<Ref>>, node: Ref, tower: Tower,
                      preds: seq<Ref>, succs: seq<Ref>)
    requires Shape(t0, c0) && Settled(t0, c0) && |tower.forward| > 0
    requires Inserting(t0, c0, t, c, node, tower, |tower.forward|, preds, succs)
    ensures Shape(t, c) && Settled(t, c)
  {
    hide LevelOk, Gap;
    forall x | x in t0
      ensures Kept(t0, t, x) && Marked(t, x) == Marked(t0, x)
    {
    }
    assert !Marked(t, node);
    forall l, x | 0 <= l < NUM_LEVELS
      ensures x in c[l] <==> x in c0[l] || (x == node && l < |tower.forward|)
      ensures x in c[l] <==> x in c[0] && x in t && l < |t[x].forward|
    { assert x in t0 ==> Kept(t0, t, x); }
  }

  lemma InsertedContents(t0: Towers, c0: seq<seq<Ref>>, t: Towers, c: seq<seq<Ref>>, node: Ref, tower: Tower,
                         preds: seq<Ref>, succs: seq<Ref>)
    requires Levels(t0, c0) && |tower.forward| > 0 && tower.key !in Stored(t0, c0)
    requires Inserting(t0, c0, t, c, node, tower, |tower.forward|, preds, succs)
    ensures Levels(t, c) && Stored(t, c) == Stored(t0, c0)[tower.key := tower.value]
  {
    hide Gap, LinkAt;
    assert LevelOk(t0, 0, c0[0]) && LevelOk(t, 0, c[0]);
    ContentsUpdated(t0, c0[0], t, c[0], node);
  }

  lemma InsertedPlaced(t0: Towers, c0: seq<seq<Ref>>, t: Towers, c: seq<seq<Ref>>, node: Ref, tower: Tower,
                       preds: seq<Ref>, succs: seq<Ref>, lists: seq<seq<Ref>>)
    requires Levels(t0, c0) && Placed(t0, c0[0], lists, multiset{}) && |tower.forward| > 0
    requires Inserting(t0, c0, t, c, node, tower, |tower.forward|, preds, succs)
    ensures Placed(t, c[0], lists, multiset{})
  {
    hide Gap, Joined, LinkAt, Kept;
    assert LevelOk(t0, 0, c0[0]) && LevelOk(t, 0, c[0]);
    ChainOnce(t0, 0, c0[0]);
    ChainOnce(t, 0, c[0]);
    assert multiset(c[0]) == multiset(c0[0]) + multiset{node};
    assert multiset(t.Keys) == multiset(t0.Keys) + multiset{node};
  }

  lemma InsertedLists(t0: Towers, chain: seq<Ref>, t: Towers, lists: seq<seq<Ref>>, heads: seq<Ref>)
    requires Placed(t0, chain, lists, multiset{}) && ListsOk(t0, heads, lists)
    requires forall x :: x in t0 ==> x in t && t[x].reclaimNext == t0[x].reclaimNext
    ensures ListsOk(t, heads, lists)
  {
    forall x | x in Joined(lists)
      ensures x in t0
    { PlacedOnce(t0, chain, lists, multiset{}, x); }
    ListsKept(t0, t, heads, lists);
  }

  /** The tower is linked at all its levels. */
  lemma Inserted(t0: Towers, c0: seq<seq<Ref>>, t: Towers, c: seq<seq<Ref>>, node: Ref, tower: Tower,
                 preds: seq<Ref>, succs: seq<Ref>, heads: seq<Ref>, lists: seq<seq<Ref>>)
    requires Whole(t0, c0, heads, lists) && |tower.forward| > 0 && tower.key !in Stored(t0, c0)
    requires Inserting(t0, c0, t, c, node, tower, |tower.forward|, preds, succs)
    ensures Whole(t, c, heads, lists) && Stored(t, c) == Stored(t0, c0)[tower.key := tower.value]
    ensures t.Keys == t0.Keys + {node} && t[node].key == tower.key && |t[node].forward| == |tower.forward|
  {
    InsertedShape(t0, c0, t, c, node, tower, preds, succs);
    InsertedContents(t0, c0, t, c, node, tower, preds, succs);
    InsertedPlaced(t0, c0, t, c, node, tower, preds, succs, lists);
    InsertedLists(t0, c0[0], t, lists, heads);
    hide Shape, Settled, Placed, ListsOk;
  }
}
