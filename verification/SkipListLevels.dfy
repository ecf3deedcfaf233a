/** The levels of a skip list in memory, as values: towers with tagged pointers, and
    the chain of each level from the header on.
  */
module SkipListLevels {
  import opened Refs
  import opened TaggedPointers

  /** `level` is `|forward| - 1`. */
  datatype Tower = Tower(key: int, value: int, forward: seq<Link>, reclaimNext: Ref)

  type Towers = map<Ref, Tower>

  predicate Marked(towers: Towers, x: Ref) {
    x in towers && |towers[x].forward| > 0 && towers[x].forward[0].marked
  }

  function SetForward(towers: Towers, x: Ref, l: nat, link: Link): Towers
    requires x in towers && l < |towers[x].forward|
  {
    towers[x := towers[x].(forward := towers[x].forward[l := link])]
  }

  function Next(chain: seq<Ref>, i: nat): Ref {
    if i + 1 < |chain| then chain[i + 1] else NIL
  }

  /** Tower i of the chain points to the next one. */
  predicate LinkAt(towers: Towers, l: nat, chain: seq<Ref>, i: nat)
    requires i < |chain|
  {
    chain[i] in towers && l < |towers[chain[i]].forward| && towers[chain[i]].forward[l].to == Next(chain, i)
  }

  /** A chain from the header on, strictly sorted by key. */
  ghost predicate Sorted(towers: Towers, l: nat, chain: seq<Ref>) {
    && |chain| > 0 && chain[0] == HEADER
    && (forall x :: x in chain ==> x in towers && l < |towers[x].forward|)
    && (forall i :: 0 < i < |chain| ==> chain[i] != HEADER)
    && (forall i, j :: 0 < i < j < |chain| ==> towers[chain[i]].key < towers[chain[j]].key)
  }

  ghost predicate LevelOk(towers: Towers, l: nat, chain: seq<Ref>) {
    Sorted(towers, l, chain) && forall i :: 0 <= i < |chain| ==> LinkAt(towers, l, chain, i)
  }

  ghost predicate TowersOk(towers: Towers) {
    && NIL !in towers && HEADER in towers
    && |towers[HEADER].forward| == NUM_LEVELS && (forall l :: 0 <= l < NUM_LEVELS ==> !towers[HEADER].forward[l].marked)
    && forall x :: x in towers ==> 0 < |towers[x].forward| <= NUM_LEVELS
  }

  ghost predicate Levels(towers: Towers, chains: seq<seq<Ref>>) {
    && |chains| == NUM_LEVELS
    && forall l :: 0 <= l < NUM_LEVELS ==> LevelOk(towers, l, chains[l])
  }

  /** A tower is marked at all its levels or at none. */
  ghost predicate Uniform(towers: Towers) {
    forall x, l :: x in towers && 0 <= l < |towers[x].forward| ==> towers[x].forward[l].marked == Marked(towers, x)
  }

  /** An unmarked tower in a level is in all the levels below. */
  ghost predicate Nested(towers: Towers, chains: seq<seq<Ref>>) {
    forall l, m, x :: 0 <= m < l < |chains| && x in chains[l] && !Marked(towers, x) ==> x in chains[m]
  }

  /** What `fill_tables` relies on; marked towers may still be linked. */
  ghost predicate Shape(towers: Towers, chains: seq<seq<Ref>>) {
    TowersOk(towers) && Levels(towers, chains) && Uniform(towers) && Nested(towers, chains)
  }

  lemma SameLevel(towers: Towers, towers': Towers, l: nat, chain: seq<Ref>)
    requires LevelOk(towers, l, chain)
    requires forall x :: x in chain ==>
      && x in towers' && towers'[x].key == towers[x].key
      && l < |towers'[x].forward| && towers'[x].forward[l].to == towers[x].forward[l].to
    ensures LevelOk(towers', l, chain)
  {
    forall i | 0 <= i < |chain|
      ensures LinkAt(towers', l, chain, i)
    { assert chain[i] in chain && LinkAt(towers, l, chain, i); }
  }

  /** A pointer of one level has no part in another. */
  lemma OtherLevel(towers: Towers, x: Ref, l: nat, link: Link, m: nat, chain: seq<Ref>)
    requires LevelOk(towers, m, chain) && x in towers && l < |towers[x].forward|
    requires m != l || x !in chain || link.to == towers[x].forward[l].to
    ensures LevelOk(SetForward(towers, x, l, link), m, chain)
  {
    SameLevel(towers, SetForward(towers, x, l, link), m, chain);
  }

  lemma InLevel(towers: Towers, l: nat, chain: seq<Ref>, i: nat, j: nat)
    requires Sorted(towers, l, chain) && i < |chain| && j < |chain|
    ensures chain[i] in chain && chain[j] in chain
    ensures chain[i] == chain[j] <==> i == j
    ensures i > 0 && j > 0 ==> (towers[chain[i]].key < towers[chain[j]].key <==> i < j)
  {
    if i < j {
      assert i > 0 ==> towers[chain[i]].key < towers[chain[j]].key;
    } else if j < i {
      assert j > 0 ==> towers[chain[j]].key < towers[chain[i]].key;
    }
  }

  function Without(chain: seq<Ref>, i: nat): seq<Ref>
    requires i < |chain|
  {
    chain[..i] + chain[i + 1..]
  }

  lemma UnlinkSorted(towers: Towers, l: nat, chain: seq<Ref>, i: nat)
    requires Sorted(towers, l, chain) && 0 < i < |chain|
    ensures Sorted(towers, l, Without(chain, i))
  {
    var chain' := Without(chain, i);
    forall j | 0 <= j < |chain'|
      ensures chain'[j] == if j < i then chain[j] else chain[j + 1]
    {
    }
    assert forall x :: x in chain' ==> x in chain;
  }

  lemma LinksSorted(towers: Towers, x: Ref, l: nat, link: Link, m: nat, chain: seq<Ref>)
    requires Sorted(towers, m, chain) && x in towers && l < |towers[x].forward|
    ensures Sorted(SetForward(towers, x, l, link), m, chain)
  {
  }

  lemma UnlinkAt(towers: Towers, l: nat, chain: seq<Ref>, i: nat, link: Link, j: nat)
    requires LevelOk(towers, l, chain) && i + 1 < |chain| && j + 1 < |chain| && link.to == Next(chain, i + 1)
    ensures chain[i] in chain && LinkAt(SetForward(towers, chain[i], l, link), l, Without(chain, i + 1), j)
  {
    hide Sorted;
    var m := if j <= i then j else j + 1;
    InLevel(towers, l, chain, i, m);
    assert LinkAt(towers, l, chain, m);
  }

  lemma UnlinkLevel(towers: Towers, l: nat, chain: seq<Ref>, i: nat)
    requires LevelOk(towers, l, chain) && i + 1 < |chain|
    ensures chain[i] in chain && chain[i + 1] in chain
    ensures LevelOk(SetForward(towers, chain[i], l, Link(towers[chain[i + 1]].forward[l].to, false)), l,
                    Without(chain, i + 1))
  {
    InLevel(towers, l, chain, i, i + 1);
    assert LinkAt(towers, l, chain, i + 1);
    var link := Link(towers[chain[i + 1]].forward[l].to, false);
    UnlinkSorted(towers, l, chain, i + 1);
    LinksSorted(towers, chain[i], l, link, l, Without(chain, i + 1));
    var towers', chain' := SetForward(towers, chain[i], l, link), Without(chain, i + 1);
    forall j | 0 <= j < |chain'|
      ensures LinkAt(towers', l, chain', j)
    { UnlinkAt(towers, l, chain, i, link, j); }
  }

  function With(chain: seq<Ref>, i: nat, node: Ref): seq<Ref>
    requires i < |chain|
  {
    chain[..i + 1] + [node] + chain[i + 1..]
  }

  ghost predicate Fits(towers: Towers, l: nat, chain: seq<Ref>, i: nat, node: Ref)
    requires Sorted(towers, l, chain) && i < |chain|
  {
    && node in towers && node != HEADER && node !in chain && l < |towers[node].forward|
    && (i > 0 ==> towers[chain[i]].key < towers[node].key)
    && (i + 1 < |chain| ==> towers[node].key < towers[chain[i + 1]].key)
  }

  lemma WithElements(chain: seq<Ref>, i: nat, node: Ref)
    requires i < |chain|
    ensures var chain' := With(chain, i, node);
      && (forall j :: 0 <= j < |chain'| ==>
            chain'[j] == if j <= i then chain[j] else if j == i + 1 then node else chain[j - 1])
      && (forall x :: x in chain' ==> x in chain || x == node)
  {
    var chain' := With(chain, i, node);
    forall j | 0 <= j < |chain'|
      ensures chain'[j] == if j <= i then chain[j] else if j == i + 1 then node else chain[j - 1]
    {
    }
  }

  lemma LinkOrder(towers: Towers, l: nat, chain: seq<Ref>, i: nat, node: Ref, j: nat, m: nat)
    requires Sorted(towers, l, chain) && i < |chain| && Fits(towers, l, chain, i, node) && 0 < j < m <= |chain|
    ensures var chain' := With(chain, i, node);
      chain'[j] in towers && chain'[m] in towers && towers[chain'[j]].key < towers[chain'[m]].key
  {
    WithElements(chain, i, node);
    if j == i + 1 {
      InLevel(towers, l, chain, i + 1, m - 1);
    } else if m == i + 1 {
      InLevel(towers, l, chain, j, i);
    } else {
      InLevel(towers, l, chain, if j <= i then j else j - 1, if m <= i then m else m - 1);
    }
  }

  lemma LinkSorted(towers: Towers, l: nat, chain: seq<Ref>, i: nat, node: Ref)
    requires Sorted(towers, l, chain) && i < |chain| && Fits(towers, l, chain, i, node)
    ensures Sorted(towers, l, With(chain, i, node))
  {
    var chain' := With(chain, i, node);
    WithElements(chain, i, node);
    forall j, m | 0 < j < m < |chain'|
      ensures towers[chain'[j]].key < towers[chain'[m]].key
    { LinkOrder(towers, l, chain, i, node, j, m); }
  }

  lemma LinkLevelAt(towers: Towers, l: nat, chain: seq<Ref>, i: nat, node: Ref, j: nat)
    requires LevelOk(towers, l, chain) && i < |chain| && Fits(towers, l, chain, i, node) && j <= |chain|
    requires towers[node].forward[l].to == Next(chain, i)
    ensures chain[i] in chain && LinkAt(SetForward(towers, chain[i], l, Link(node, false)), l, With(chain, i, node), j)
  {
    hide Sorted;
    if j != i + 1 {
      var m := if j <= i then j else j - 1;
      InLevel(towers, l, chain, i, m);
      assert LinkAt(towers, l, chain, m);
    }
  }

  /** A tower whose own pointer is set is linked between its neighbours. */
  lemma LinkLevel(towers: Towers, l: nat, chain: seq<Ref>, i: nat, node: Ref)
    requires LevelOk(towers, l, chain) && i < |chain| && Fits(towers, l, chain, i, node)
    requires towers[node].forward[l].to == Next(chain, i)
    ensures chain[i] in chain
    ensures LevelOk(SetForward(towers, chain[i], l, Link(node, false)), l, With(chain, i, node))
  {
    LinkSorted(towers, l, chain, i, node);
    InLevel(towers, l, chain, i, i);
    LinksSorted(towers, chain[i], l, Link(node, false), l, With(chain, i, node));
    var towers', chain' := SetForward(towers, chain[i], l, Link(node, false)), With(chain, i, node);
    forall j | 0 <= j < |chain'|
      ensures LinkAt(towers', l, chain', j)
    { LinkLevelAt(towers, l, chain, i, node, j); }
  }

  /** Towers may have been unlinked from levels, but only marked ones; nothing else has changed. */
  ghost predicate Trimmed(towers: Towers, chains: seq<seq<Ref>>, towers': Towers, chains': seq<seq<Ref>>) {
    && towers'.Keys == towers.Keys && |chains'| == |chains|
    && (forall x :: x in towers ==> SameTower(towers, towers', x))
    && (forall l, x :: 0 <= l < |chains| && x in chains'[l] ==> x in chains[l])
    && (forall l, x :: 0 <= l < |chains| && x in chains[l] && !Marked(towers, x) ==> x in chains'[l])
  }

  /** All but the links of an unmarked tower stay. */
  ghost predicate SameTower(towers: Towers, towers': Towers, x: Ref)
    requires x in towers && x in towers'
  {
    && towers'[x].key == towers[x].key && towers'[x].value == towers[x].value
    && towers'[x].reclaimNext == towers[x].reclaimNext && |towers'[x].forward| == |towers[x].forward|
    && (Marked(towers, x) <==> Marked(towers', x))
    && (Marked(towers, x) ==> towers'[x] == towers[x])
  }

  lemma TrimmedTransitive(t0: Towers, c0: seq<seq<Ref>>, t1: Towers, c1: seq<seq<Ref>>, t2: Towers, c2: seq<seq<Ref>>)
    requires Trimmed(t0, c0, t1, c1) && Trimmed(t1, c1, t2, c2)
    ensures Trimmed(t0, c0, t2, c2)
  {
    forall x | x in t0
      ensures SameTower(t0, t2, x)
    { assert SameTower(t0, t1, x) && SameTower(t1, t2, x); }
    forall l, x | 0 <= l < |c0| && x in c0[l] && !Marked(t0, x)
      ensures x in c2[l]
    {
      assert x in c1[l] && !Marked(t1, x);
    }
  }

  /** The CAS of `fill_tables` that unlinks the marked successor of tower i of level l. */
  lemma OnLevel(towers: Towers, l: nat, chain: seq<Ref>, i: nat)
    requires LevelOk(towers, l, chain) && i < |chain|
    ensures chain[i] in chain && chain[i] in towers && l < |towers[chain[i]].forward|
    ensures i > 0 <==> chain[i] != HEADER
  {
  }

  lemma UnlinkKeepsShape(towers: Towers, chains: seq<seq<Ref>>, l: nat, i: nat)
    requires Shape(towers, chains) && l < NUM_LEVELS && i + 1 < |chains[l]|
    requires !Marked(towers, chains[l][i]) && Marked(towers, chains[l][i + 1])
    ensures var (cur, next) := (chains[l][i], chains[l][i + 1]);
      && cur in towers && l < |towers[cur].forward| && next in towers && l < |towers[next].forward|
      && var towers' := SetForward(towers, cur, l, Link(towers[next].forward[l].to, false));
         var chains' := chains[l := Without(chains[l], i + 1)];
         Shape(towers', chains') && Trimmed(towers, chains, towers', chains')
  {
    hide Sorted;
    var cur, next, chain := chains[l][i], chains[l][i + 1], chains[l];
    OnLevel(towers, l, chain, i);
    OnLevel(towers, l, chain, i + 1);
    InLevel(towers, l, chain, i, i + 1);
    UnlinkLevel(towers, l, chain, i);
    var link := Link(towers[next].forward[l].to, false);
    var towers', chains' := SetForward(towers, cur, l, link), chains[l := Without(chain, i + 1)];
    forall m | 0 <= m < NUM_LEVELS
      ensures LevelOk(towers', m, chains'[m])
    { if m != l { OtherLevel(towers, cur, l, link, m, chains[m]); } }
    forall x
      ensures Marked(towers', x) == Marked(towers, x)
    {
    }
    WithoutElements(towers, l, chain, i + 1);
  }

  lemma WithoutElements(towers: Towers, l: nat, chain: seq<Ref>, i: nat)
    requires LevelOk(towers, l, chain) && i < |chain|
    ensures forall x :: x in Without(chain, i) <==> x in chain && x != chain[i]
  {
    forall j | 0 <= j < |chain|
      ensures j != i ==> chain[j] != chain[i]
    { InLevel(towers, l, chain, j, i); }
    assert chain == chain[..i] + [chain[i]] + chain[i + 1..];
  }

  /** Where `fill_tables` ends on a level: between an unmarked place to the left of the key and the
      first unmarked tower that is not. */
  ghost predicate Located(towers: Towers, chain: seq<Ref>, l: nat, pred: Ref, succ: Ref, key: int) {
    && pred in chain && pred in towers && (pred == HEADER || towers[pred].key < key)
    && l < |towers[pred].forward| && towers[pred].forward[l] == Link(succ, false)
    && (succ != NIL ==>
          succ in chain && succ != HEADER && succ in towers && towers[succ].key >= key && !Marked(towers, succ))
  }

  /** The neighbours decide whether the key is on the level. */
  lemma LocatedDecides(towers: Towers, chain: seq<Ref>, l: nat, pred: Ref, succ: Ref, key: int)
    requires TowersOk(towers) && LevelOk(towers, l, chain) && Located(towers, chain, l, pred, succ, key)
    ensures Next(chain, Position(chain, pred)) == succ
    ensures forall x :: x in chain && x != HEADER && x in towers && towers[x].key == key ==> x == succ
  {
    var i := Position(chain, pred);
    assert LinkAt(towers, l, chain, i);
    forall x | x in chain && x != HEADER && x in towers && towers[x].key == key
      ensures x == succ
    {
      var j := Position(chain, x);
      InLevel(towers, l, chain, i, j);
      if j > i { InLevel(towers, l, chain, i + 1, j); }
    }
  }

  /** Each tower is in exactly the levels up to its height, and no marked tower is linked. */
  ghost predicate Settled(towers: Towers, chains: seq<seq<Ref>>) {
    && |chains| == NUM_LEVELS
    && (forall x :: x in chains[0] ==> x in towers && !Marked(towers, x))
    && (forall l, x :: 0 <= l < NUM_LEVELS ==>
          (x in chains[l] <==> x in chains[0] && x in towers && l < |towers[x].forward|))
  }

  /** Each level is a sublist of the level below it. */
  lemma LevelIsSublist(towers: Towers, chains: seq<seq<Ref>>, l: nat, i: nat, j: nat)
    requires Levels(towers, chains) && Settled(towers, chains) && l + 1 < NUM_LEVELS && i < j < |chains[l + 1]|
    ensures var (x, y) := (chains[l + 1][i], chains[l + 1][j]);
      x in chains[l] && y in chains[l] && Position(chains[l], x) < Position(chains[l], y)
  {
    var x, y := chains[l + 1][i], chains[l + 1][j];
    assert x in chains[l + 1] && y in chains[l + 1];
    InLevel(towers, l + 1, chains[l + 1], i, j);
    InLevel(towers, l, chains[l], Position(chains[l], x), Position(chains[l], y));
    InLevel(towers, l, chains[l], Position(chains[l], x), 0);
    InLevel(towers, l, chains[l], Position(chains[l], y), 0);
    InLevel(towers, l + 1, chains[l + 1], i, 0);
    InLevel(towers, l + 1, chains[l + 1], j, 0);
  }

  /** The map a skip list stands for. */
  ghost function Contents(towers: Towers, chain: seq<Ref>): map<int, int>
    requires Sorted(towers, 0, chain)
  {
    map x | x in chain && x != HEADER :: towers[x].key := towers[x].value
  }

  lemma KeysDiffer(towers: Towers, l: nat, chain: seq<Ref>, x: Ref, y: Ref)
    requires Sorted(towers, l, chain) && x in chain && y in chain && x != HEADER && y != HEADER
    ensures towers[x].key == towers[y].key <==> x == y
  {
    InLevel(towers, l, chain, Position(chain, x), Position(chain, y));
  }

  lemma ContentsAt(towers: Towers, chain: seq<Ref>, x: Ref)
    requires Sorted(towers, 0, chain) && x in chain && x != HEADER
    ensures towers[x].key in Contents(towers, chain) && Contents(towers, chain)[towers[x].key] == towers[x].value
  {
    if y :| y in chain && y != HEADER && towers[y].key == towers[x].key { KeysDiffer(towers, 0, chain, x, y); }
  }

  lemma ContentsFrom(towers: Towers, chain: seq<Ref>, k: int) returns (x: Ref)
    requires Sorted(towers, 0, chain) && k in Contents(towers, chain)
    ensures x in chain && x != HEADER && towers[x].key == k && Contents(towers, chain)[k] == towers[x].value
  {
    x :| x in chain && x != HEADER && towers[x].key == k;
    ContentsAt(towers, chain, x);
  }

  /** Tower x has been given this value, or has joined the level with a new key. */
  lemma ContentsUpdated(t: Towers, c: seq<Ref>, t': Towers, c': seq<Ref>, x: Ref)
    requires Sorted(t, 0, c) && Sorted(t', 0, c') && x in c' && x != HEADER
    requires forall y :: y != x ==> (y in c' <==> y in c)
    requires forall y :: y != x && y in c ==> t'[y].key == t[y].key && t'[y].value == t[y].value
    requires if x in c then t'[x].key == t[x].key else t'[x].key !in Contents(t, c)
    ensures Contents(t', c') == Contents(t, c)[t'[x].key := t'[x].value]
  {
    hide Contents;
    var m, m', key := Contents(t, c), Contents(t', c'), t'[x].key;
    ContentsAt(t', c', x);
    forall k | k in m && k != key
      ensures k in m' && m'[k] == m[k]
    {
      var y := ContentsFrom(t, c, k);
      ContentsAt(t', c', y);
    }
    forall k | k in m' && k != key
      ensures k in m
    {
      var y := ContentsFrom(t', c', k);
      ContentsAt(t, c, y);
    }
  }

  lemma ContentsRemoved(t: Towers, c: seq<Ref>, t': Towers, c': seq<Ref>, x: Ref)
    requires Sorted(t, 0, c) && Sorted(t', 0, c') && x in c && x != HEADER
    requires forall y :: y in c' <==> y in c && y != x
    requires forall y :: y in c' ==> t'[y].key == t[y].key && t'[y].value == t[y].value
    ensures Contents(t', c') == Contents(t, c) - {t[x].key}
  {
    hide Contents;
    var m, m', key := Contents(t, c), Contents(t', c'), t[x].key;
    forall k | k in m && k != key
      ensures k in m' && m'[k] == m[k]
    {
      var y := ContentsFrom(t, c, k);
      ContentsAt(t', c', y);
    }
    forall k | k in m'
      ensures k in m && k != key
    {
      var y := ContentsFrom(t', c', k);
      ContentsAt(t, c, y);
      KeysDiffer(t, 0, c, x, y);
    }
  }

  lemma ContentsSame(t: Towers, c: seq<Ref>, t': Towers, c': seq<Ref>)
    requires Sorted(t, 0, c) && Sorted(t', 0, c')
    requires forall y :: y in c' <==> y in c
    requires forall y :: y in c ==> t'[y].key == t[y].key && t'[y].value == t[y].value
    ensures Contents(t', c') == Contents(t, c)
  {
    hide Contents;
    var m, m' := Contents(t, c), Contents(t', c');
    forall k | k in m
      ensures k in m' && m'[k] == m[k]
    {
      var y := ContentsFrom(t, c, k);
      ContentsAt(t', c', y);
    }
    forall k | k in m'
      ensures k in m
    {
      var y := ContentsFrom(t', c', k);
      ContentsAt(t, c, y);
    }
  }
}
