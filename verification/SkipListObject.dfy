/** The multi-level skip list as one thread at a time uses it: a map, with the
    epochs that decide when removed towers are freed.
  */
module SkipListObject {
  import opened Epochs
  import opened Refs
  import opened TaggedPointers
  import opened SkipListLevels
  import opened SkipListChanges
  import opened ListMachine
  import opened AtomicMap

  /** The results of a run of operations on a map, in order. */
  function EffectAll(contents: map<int, int>, ops: seq<Op>): (map<int, int>, seq<Result>) {
    if ops == [] then (contents, [])
    else
      var (before, results) := EffectAll(contents, ops[..|ops| - 1]);
      var (after, result) := Effect(before, ops[|ops| - 1]);
      (after, results + [result])
  }

  /** What the last insertion or removal of the key has left. */
  function LastWrite(ops: seq<Op>, key: int): Result {
    if ops == [] then Missing
    else
      var op := ops[|ops| - 1];
      if op.key != key || op.Search? then LastWrite(ops[..|ops| - 1], key)
      else if op.Insert? then Found(op.value) else Missing
  }

  lemma {:induction false} LookupIsLastWrite(ops: seq<Op>, key: int)
    ensures var m := EffectAll(map[], ops).0; LastWrite(ops, key) == if key in m then Found(m[key]) else Missing
  {
    if ops != [] { LookupIsLastWrite(ops[..|ops| - 1], key); }
  }

  /** In every run that starts with an empty skip list a search returns what the last insertion or removal
      of its key has left. */
  lemma {:induction false} SearchIsLastWrite(ops: seq<Op>, i: nat)
    requires i < |ops| && ops[i].Search?
    ensures |EffectAll(map[], ops).1| == |ops| && EffectAll(map[], ops).1[i] == LastWrite(ops[..i], ops[i].key)
    decreases |ops|
  {
    var n := |ops| - 1;
    ResultsLength(ops[..n]);
    if i == n {
      LookupIsLastWrite(ops[..n], ops[i].key);
    } else {
      SearchIsLastWrite(ops[..n], i);
      assert ops[..n][..i] == ops[..i];
    }
  }

  /** An insertion or a removal answers `Done`, whether or not the key was there. */
  lemma {:induction false} WritesAnswerDone(contents: map<int, int>, ops: seq<Op>, i: nat)
    requires i < |ops|
    ensures |EffectAll(contents, ops).1| == |ops|
    ensures !ops[i].Search? <==> EffectAll(contents, ops).1[i] == Done
    decreases |ops|
  {
    var n := |ops| - 1;
    if i < n {
      WritesAnswerDone(contents, ops[..n], i);
    } else if n > 0 {
      WritesAnswerDone(contents, ops[..n], 0);
    }
  }

  lemma {:induction false} ResultsLength(ops: seq<Op>)
    ensures |EffectAll(map[], ops).1| == |ops|
  {
    if ops != [] { ResultsLength(ops[..|ops| - 1]); }
  }

  /** A cell that lags behind the global epoch has moved on by one; no other has changed. */
  predicate Left(before: seq<int>, after: seq<int>, cell: nat, global: int) {
    && |after| == |before| && cell < |before|
    && (forall other :: 0 <= other < |before| && other != cell ==> after[other] == before[other])
    && after[cell] == if before[cell] == global then global else (before[cell] + 1) % NUM_EPOCHS
  }

  predicate AllAt(cells: seq<int>, epoch: int) {
    forall cell :: 0 <= cell < |cells| ==> cells[cell] == epoch
  }

  /** The CAS on cell c of a walk that has failed before. */
  predicate Takes(cells: seq<int>, c: nat)
    requires c < |cells|
  {
    cells[c] == if c == 0 then UNCLAIMED else cells[c - 1]
  }

  class SkipList {
    /** The memory that has been allocated for towers; the header is one of them. */
    var towers: Towers
    var maxLevel: nat
    var reclaimLists: seq<Ref>
    var reclaimLock: bool
    var globalEpoch: nat
    var localEpochs: seq<int>
    ghost var chains: seq<seq<Ref>>
    ghost var retired: seq<seq<Ref>>

    ghost predicate Valid()
      reads this
    {
      Whole(towers, chains, reclaimLists, retired) && EpochsOk()
    }

    ghost predicate EpochsOk()
      reads this
    {
      maxLevel < NUM_LEVELS && globalEpoch < NUM_EPOCHS
    }

    ghost function Map(): map<int, int>
      requires Valid()
      reads this
    {
      Stored(towers, chains)
    }

    /** The cell belongs to the calling thread. */
    predicate Claimed(cell: nat)
      reads this`localEpochs
    {
      cell < |localEpochs| && 0 <= localEpochs[cell] < NUM_EPOCHS
    }

    predicate KeepsClaims(before: seq<int>)
      reads this`localEpochs
    {
      && |localEpochs| == |before|
      && forall cell: nat :: cell < |before| && 0 <= before[cell] < NUM_EPOCHS ==> Claimed(cell)
    }

    /** The first four cells are set to -1; the others keep what was in the memory. */
    constructor (garbage: seq<int>)
      requires |garbage| == MAX_THREADS - NUM_EPOCHS
      ensures Valid() && Map() == map[] && globalEpoch == 0 && maxLevel == 0 && !reclaimLock
      ensures localEpochs == [-1, -1, -1, -1] + garbage && |localEpochs| == 256
    {
      towers := map[HEADER := Tower(0, 0, seq(NUM_LEVELS, _ => Link(NIL, false)), NIL)];
      maxLevel, reclaimLists, reclaimLock := 0, seq(NUM_EPOCHS, _ => NIL), false;
      globalEpoch, localEpochs := 0, seq(NUM_EPOCHS, _ => UNCLAIMED) + garbage;
      chains, retired := seq(NUM_LEVELS, _ => [HEADER]), seq(NUM_EPOCHS, _ => []);
      new;
      hide Whole, Stored;
      EmptyIsWhole();
      FourCells(garbage);
    }

    /** `epoch_init`: a failed CAS leaves the value it found in `previous`, so what it takes is cell 0 if
        that is unclaimed, and else the first cell that holds the same as the one before it. */
    method EpochInit() returns (cell: int)
      requires Valid()
      modifies this`localEpochs
      ensures Valid() && -1 <= cell < |localEpochs| && KeepsClaims(old(localEpochs))
      ensures forall c :: 0 <= c < |localEpochs| && (cell < 0 || c < cell) ==> !Takes(old(localEpochs), c)
      ensures if cell < 0 then localEpochs == old(localEpochs)
              else Takes(old(localEpochs), cell) && localEpochs == old(localEpochs)[cell := globalEpoch]
    {
      var previous := UNCLAIMED;
      for c := 0 to |localEpochs|
        invariant localEpochs == old(localEpochs) && previous == if c == 0 then UNCLAIMED else localEpochs[c - 1]
        invariant forall d :: 0 <= d < c ==> !Takes(localEpochs, d)
      {
        if localEpochs[c] == previous {
          localEpochs := localEpochs[c := globalEpoch];
          return c;
        }
        previous := localEpochs[c];
      }
      return -1;
    }

    /** The label for what is retired now; the thread has claimed its cell before. */
    function EnterEpoch(cell: nat): int
      requires Claimed(cell)
      reads this
    {
      localEpochs[cell]
    }

    method LeaveEpoch(cell: nat)
      requires Claimed(cell) && EpochsOk()
      modifies this`localEpochs
      ensures EpochsOk() && KeepsClaims(old(localEpochs)) && Left(old(localEpochs), localEpochs, cell, globalEpoch)
    {
      if localEpochs[cell] != globalEpoch {
        localEpochs := localEpochs[cell := (localEpochs[cell] + 1) % NUM_EPOCHS];
      }
    }

    /** Only memory that is allocated can be freed. */
    method Deallocate(x: Ref)
      requires x in towers
      modifies this`towers
      ensures towers == old(towers) - {x}
    {
      towers := towers - {x};
    }

    /** The allocator gives out an address that is not in use; what is in the memory there is arbitrary. */
    method Allocate(level: nat) returns (node: Ref, forward: seq<Link>)
      ensures node > 0 && node !in towers && |forward| == level + 1
    {
      UnusedAddress(towers.Keys);
      node :| node > 0 && node !in towers;
      assert |seq(level + 1, _ => Link(NIL, false))| == level + 1;
      forward :| |forward| == level + 1;
    }

    method CompareExchange(x: Ref, l: nat, expected: Link, desired: Link) returns (ok: bool, seen: Link)
      requires x in towers && l < |towers[x].forward|
      modifies this`towers
      ensures seen == old(towers)[x].forward[l] && (ok <==> seen == expected)
      ensures towers == if ok then SetForward(old(towers), x, l, desired) else old(towers)
    {
      seen := towers[x].forward[l];
      ok := seen == expected;
      if ok { towers := SetForward(towers, x, l, desired); }
    }

    /** The search at every level: it ends at the place of the key, unlinks marked towers on the way
        and leaves all others. */
    method FillTables(preds: array<Ref>, succs: array<Ref>, key: int, fromLevel: nat, toLevel: nat)
      requires Shape(towers, chains) && toLevel <= fromLevel < NUM_LEVELS
      requires preds.Length == succs.Length == NUM_LEVELS && preds != succs
      modifies this`towers, this`chains, preds, succs
      ensures Shape(towers, chains) && |chains| == NUM_LEVELS && Trimmed(old(towers), old(chains), towers, chains)
      ensures forall l :: toLevel <= l <= fromLevel ==> Located(towers, chains[l], l, preds[l], succs[l], key)
      ensures forall l :: 0 <= l < NUM_LEVELS && !(toLevel <= l <= fromLevel) ==> chains[l] == old(chains[l])
    {
      hide Shape, Trimmed, Marked, Located, Next, SetForward;
      var cur, lvl: int := HEADER, fromLevel;
      FillBegins(towers, chains, key, fromLevel);
      while toLevel <= lvl
        invariant toLevel - 1 <= lvl <= fromLevel
        invariant Shape(towers, chains) && Trimmed(old(towers), old(chains), towers, chains)
        invariant |chains| == |old(chains)| == NUM_LEVELS
        invariant Reached(towers, cur, key) && (lvl >= 0 ==> cur in chains[lvl])
        invariant Filled(towers, chains, preds[..], succs[..], key, lvl, fromLevel)
        invariant forall l :: 0 <= l < NUM_LEVELS && !(lvl < l <= fromLevel) ==> chains[l] == old(chains[l])
      {
        ghost var i := Position(chains[lvl], cur);
        LinkedAt(towers, chains, lvl, i);
        var next := towers[cur].forward[lvl].to;
        while next != NIL
          invariant Shape(towers, chains) && Trimmed(old(towers), old(chains), towers, chains)
          invariant |chains| == NUM_LEVELS && 0 <= i < |chains[lvl]| && chains[lvl][i] == cur
          invariant Reached(towers, cur, key) && Next(chains[lvl], i) == next
          invariant Filled(towers, chains, preds[..], succs[..], key, lvl, fromLevel)
          invariant forall l :: 0 <= l < NUM_LEVELS && !(lvl <= l <= fromLevel) ==> chains[l] == old(chains[l])
          decreases |chains[lvl]| - i
        {
          LinkedAt(towers, chains, lvl, i);
          LinkedAt(towers, chains, lvl, i + 1);
          var nextNext := towers[next].forward[lvl];
          if nextNext.marked {
            UnlinkKeepsFilled(towers, chains, lvl, i, preds[..], succs[..], key, fromLevel);
            TrimmedTransitive(old(towers), old(chains), towers, chains, UnlinkAfter(towers, chains, lvl, i),
                              ChainsAfter(chains, lvl, i));
            var ok, _ := CompareExchange(cur, lvl, Link(next, false), Link(nextNext.to, false));
            if !ok { assert false; }  // `goto reset_search` needs another thread
            chains := ChainsAfter(chains, lvl, i);
            next := towers[cur].forward[lvl].to;
          } else if towers[next].key < key {
            MoveOn(towers, chains, lvl, i, key);
            cur, next, i := next, nextNext.to, i + 1;
          } else {
            break;
          }
        }
        FilledMore(towers, chains, lvl, i, preds[..], succs[..], key, fromLevel);
        preds[lvl], succs[lvl] := cur, next;
        lvl := lvl - 1;
      }
    }

    /** `add_to_reclaim_list`: without other threads the CAS succeeds at once. */
    method AddToReclaimList(x: Ref, epoch: nat)
      requires Shape(towers, chains) && Settled(towers, chains) && ListsOk(towers, reclaimLists, retired)
      requires Placed(towers, chains[0], retired, multiset{x}) && epoch < NUM_EPOCHS
      modifies this`towers, this`reclaimLists, this`retired
      ensures Whole(towers, chains, reclaimLists, retired) && Stored(towers, chains) == Stored(old(towers), old(chains))
      ensures retired == old(retired)[epoch := [x] + old(retired)[epoch]]
    {
      hide Shape, Settled, Placed, Whole;
      RetireKeeps(towers, chains, reclaimLists, retired, x, epoch);
      var reclaimHead := reclaimLists[epoch];
      towers := towers[x := towers[x].(reclaimNext := reclaimHead)];
      reclaimLists := reclaimLists[epoch := x];
      retired := retired[epoch := [x] + retired[epoch]];
    }

    /** Every local epoch is the global one. */
    predicate AllCurrent()
      reads this
    {
      AllAt(localEpochs, globalEpoch)
    }

    /** Frees what was retired two epochs ago and moves on, if no cell lags behind. */
    method ReclaimNodes()
      requires Valid()
      modifies this`towers, this`reclaimLists, this`retired, this`globalEpoch, this`reclaimLock
      ensures Valid() && Map() == old(Map()) && reclaimLock == old(reclaimLock)
      ensures if !old(reclaimLock) && old(AllCurrent())
        then globalEpoch == (old(globalEpoch) + 1) % NUM_EPOCHS && var e := (old(globalEpoch) + 2) % NUM_EPOCHS;
             retired == old(retired)[e := []] && towers.Keys == old(towers).Keys - (set x | x in old(retired)[e])
        else towers == old(towers) && globalEpoch == old(globalEpoch) && retired == old(retired)
    {
      hide Whole, Stored;
      if reclaimLock { return; }
      reclaimLock := true;
      var changeEpoch := true;
      for cell := 0 to |localEpochs|
        invariant changeEpoch <==> forall other :: 0 <= other < cell ==> localEpochs[other] == globalEpoch
      {
        if localEpochs[cell] != globalEpoch { changeEpoch := false; break; }
      }
      if changeEpoch {
        var e := (globalEpoch + NUM_EPOCHS - 2) % NUM_EPOCHS;
        WholeKnown(towers, chains, reclaimLists, retired);
        ghost var freed: set<Ref> := {};
        var reclaimHead := reclaimLists[e];
        assert reclaimLists[e := reclaimHead] == reclaimLists;
        while reclaimHead != NIL
          modifies this`towers, this`retired
          invariant |retired| == |reclaimLists| == NUM_EPOCHS && |chains| == NUM_LEVELS
          invariant Whole(towers, chains, reclaimLists[e := reclaimHead], retired)
          invariant Levels(towers, chains) && Stored(towers, chains) == Stored(old(towers), old(chains))
          invariant towers.Keys == old(towers).Keys - freed
          invariant freed + (set x | x in retired[e]) == (set x | x in old(retired)[e])
          invariant retired == old(retired)[e := retired[e]]
          decreases |retired[e]|
        {
          FreeFirstKeeps(towers, chains, reclaimLists[e := reclaimHead], retired, e);
          WholeKnown(towers, chains, reclaimLists[e := reclaimHead], retired);
          assert reclaimLists[e := reclaimHead][e := towers[reclaimHead].reclaimNext]
              == reclaimLists[e := towers[reclaimHead].reclaimNext];
          var toBeFreed := reclaimHead;
          reclaimHead := towers[reclaimHead].reclaimNext;
          Deallocate(toBeFreed);
          freed := freed + {toBeFreed};
          retired := retired[e := retired[e][1..]];
          WholeKnown(towers, chains, reclaimLists[e := reclaimHead], retired);
        }
        WholeKnown(towers, chains, reclaimLists[e := reclaimHead], retired);
        reclaimLists := reclaimLists[e := NIL];
        globalEpoch := (globalEpoch + 1) % NUM_EPOCHS;
      }
      reclaimLock := false;
    }

    /** The search that every operation begins with, and whether it has found the key. */
    method Locate(preds: array<Ref>, succs: array<Ref>, key: int, fromLevel: nat) returns (cur: Ref, found: bool)
      requires Valid() && fromLevel < NUM_LEVELS
      requires preds.Length == succs.Length == NUM_LEVELS && preds != succs
      modifies this`towers, this`chains, preds, succs
      ensures Valid() && Map() == old(Map()) && towers.Keys == old(towers).Keys
      ensures |chains| == |old(chains)| == NUM_LEVELS && cur == succs[0]
      ensures forall l :: 0 <= l <= fromLevel ==> Located(towers, chains[l], l, preds[l], succs[l], key)
      ensures found <==> key in Map()
      ensures found ==> cur in old(chains)[0] && cur in old(towers) && old(towers)[cur].key == key
      ensures found ==>
        cur in chains[0] && cur in towers && cur != HEADER && !Marked(towers, cur) && towers[cur].key == key
        && towers[cur].value == Map()[key]
      ensures !found && cur != NIL ==> cur in towers && towers[cur].key != key
    {
      hide Whole, Shape, Levels, Stored, Located, Trimmed, Marked;
      WholeKnown(towers, chains, reclaimLists, retired);
      ghost var t, c := towers, chains;
      FillTables(preds, succs, key, fromLevel, 0);
      NothingToTrim(t, c, towers, chains, reclaimLists, retired);
      SearchDecides(towers, chains, preds[0], succs[0], key);
      cur := succs[0];
      found := cur != NIL && towers[cur].key == key;
    }

    method Search(cell: nat, key: int) returns (r: Result)
      requires Valid() && Claimed(cell)
      modifies this`towers, this`chains, this`localEpochs
      ensures Valid() && KeepsClaims(old(localEpochs)) && Left(old(localEpochs), localEpochs, cell, globalEpoch)
      ensures Map() == old(Map())
      ensures r == if key in Map() then Found(Map()[key]) else Missing
    {
      hide Whole, Shape, Levels, Stored, Located, Marked;
      var preds, succs := new Ref[NUM_LEVELS], new Ref[NUM_LEVELS];
      var startLevel := maxLevel;
      var cur, found := Locate(preds, succs, key, startLevel);
      if found {
        r := Found(towers[cur].value);
        LeaveEpoch(cell);
      } else {
        LeaveEpoch(cell);
        r := Missing;
      }
    }

    /** The loop of `insert` that links the new tower level by level, from the bottom up. */
    method LinkTower(preds: array<Ref>, succs: array<Ref>, node: Ref, ghost t0: Towers, ghost c0: seq<seq<Ref>>,
                     ghost tower: Tower)
      requires preds.Length == succs.Length == NUM_LEVELS == |chains| && |tower.forward| <= NUM_LEVELS
      requires Inserting(t0, c0, towers, chains, node, tower, 0, preds[..], succs[..])
      requires node in towers && |towers[node].forward| == |tower.forward|
      modifies this`towers, this`chains
      ensures |chains| == NUM_LEVELS
      ensures Inserting(t0, c0, towers, chains, node, tower, |tower.forward|, preds[..], succs[..])
    {
      hide Inserting;
      for lvl := 0 to |towers[node].forward|
        modifies this`towers, this`chains
        invariant |chains| == NUM_LEVELS && Inserting(t0, c0, towers, chains, node, tower, lvl, preds[..], succs[..])
      {
        InsertLevel(t0, c0, towers, chains, node, tower, lvl, preds[..], succs[..]);
        ghost var i := Position(chains[lvl], preds[lvl]);
        towers := SetForward(towers, node, lvl, Link(succs[lvl], false));
        var ok, _ := CompareExchange(preds[lvl], lvl, Link(succs[lvl], false), Link(node, false));
        if !ok { assert false; }  // the refill needs another thread
        chains := chains[lvl := With(chains[lvl], i, node)];
      }
    }

    /** `level` is what `generate_level` has drawn. */
    method Insert(cell: nat, key: int, value: int, level: nat)
      requires Valid() && Claimed(cell) && level < NUM_LEVELS
      modifies this`towers, this`chains, this`maxLevel, this`localEpochs
      ensures Valid() && KeepsClaims(old(localEpochs)) && Left(old(localEpochs), localEpochs, cell, globalEpoch)
      ensures Map() == old(Map())[key := value]
      ensures maxLevel == if key in old(Map()) || level <= old(maxLevel) then old(maxLevel) else level
      ensures key in old(Map()) ==> towers.Keys == old(towers).Keys
      ensures key !in old(Map()) ==> OneMore(old(towers), towers, key, level)
    {
      hide Whole, Shape, Levels, Stored, Located, Marked, Inserting, Left, KeepsClaims, Claimed;
      var preds, succs := new Ref[NUM_LEVELS], new Ref[NUM_LEVELS];
      var cur, found := Locate(preds, succs, key, NUM_LEVELS - 1);
      if found {
        ValueStored(towers, chains, reclaimLists, retired, cur, value);
        towers := towers[cur := towers[cur].(value := value)];
        LeaveEpoch(cell);
      } else {
        var node, forward := Allocate(level);
        ghost var t0, c0, tower := towers, chains, Tower(key, value, forward, NIL);
        InsertBegins(t0, c0, reclaimLists, retired, node, tower, preds[..], succs[..]);
        towers := towers[node := Tower(key, value, forward, NIL)];
        if level > maxLevel { maxLevel := level; }
        LinkTower(preds, succs, node, t0, c0, tower);
        Inserted(t0, c0, towers, chains, node, tower, preds[..], succs[..], reclaimLists, retired);
        LeaveEpoch(cell);
      }
    }

    /** The marking of a tower from the top down; the caller that marks the bottom has removed it. */
    method MarkTower(cur: Ref) returns (iMarkedIt: bool)
      requires cur in towers && |towers[cur].forward| > 0
      requires forall l :: 0 <= l < |towers[cur].forward| ==> !towers[cur].forward[l].marked
      modifies this`towers
      ensures iMarkedIt && MarkedFrom(old(towers), towers, cur, 0)
    {
      var top := |towers[cur].forward| - 1;
      for lvl := top + 1 downto 1
        modifies this`towers
        invariant MarkedFrom(old(towers), towers, cur, lvl)
      {
        var ok := false;
        while !ok
          modifies this`towers
          invariant MarkedFrom(old(towers), towers, cur, if ok then lvl else lvl + 1)
          decreases !ok
        {
          var next := towers[cur].forward[lvl];
          ok, next := CompareExchange(cur, lvl, next, Link(next.to, true));
        }
      }
      var next := Link(NIL, false);
      iMarkedIt := false;
      while !next.marked && !iMarkedIt
        modifies this`towers
        invariant MarkedFrom(old(towers), towers, cur, if iMarkedIt then 0 else 1) && (!iMarkedIt ==> !next.marked)
        decreases !iMarkedIt
      {
        next := Link(towers[cur].forward[0].to, false);
        iMarkedIt, next := CompareExchange(cur, 0, next, Link(next.to, true));
      }
    }

    /** Marks the tower and has a search unlink it. */
    method TakeOut(preds: array<Ref>, succs: array<Ref>, key: int, cur: Ref) returns (iMarkedIt: bool)
      requires Valid() && |chains| == NUM_LEVELS && preds.Length == succs.Length == NUM_LEVELS && preds != succs
      requires cur in chains[0] && cur in towers && cur != HEADER && !Marked(towers, cur) && towers[cur].key == key
      modifies this`towers, this`chains, preds, succs
      ensures iMarkedIt && Shape(towers, chains) && Settled(towers, chains) && ListsOk(towers, reclaimLists, retired)
      ensures |chains| == NUM_LEVELS && Placed(towers, chains[0], retired, multiset{cur})
      ensures Stored(towers, chains) == old(Map()) - {key}
    {
      hide Whole, Shape, Levels, Stored, Located, Marked, Trimmed, Settled, Placed, ListsOk, MarkedFrom;
      ghost var t, c := towers, chains;
      WholeKnown(t, c, reclaimLists, retired);
      TowerKnown(t, c, cur);
      iMarkedIt := MarkTower(cur);
      if iMarkedIt {
        ghost var t1 := towers;
        MarkedShape(t, t1, c, cur);
        FillTables(preds, succs, key, NUM_LEVELS - 1, 0);
        MarkedUnlinked(t, c, t1, towers, chains, cur, preds[..], succs[..], reclaimLists, retired);
      }
    }

    method Remove(cell: nat, key: int)
      requires Valid() && Claimed(cell)
      modifies this`towers, this`chains, this`localEpochs, this`reclaimLists, this`retired, this`globalEpoch,
        this`reclaimLock
      ensures Valid() && KeepsClaims(old(localEpochs)) && Left(old(localEpochs), localEpochs, cell, old(globalEpoch))
      ensures Map() == old(Map()) - {key}
      ensures key in old(Map()) ==>
        var drained := !old(reclaimLock) && AllAt(localEpochs, old(globalEpoch));
        && RetiredOne(old(towers), old(chains)[0], key, old(retired), retired, old(localEpochs)[cell],
                      old(globalEpoch), drained)
        && globalEpoch == if drained then (old(globalEpoch) + 1) % NUM_EPOCHS else old(globalEpoch)
      ensures key !in old(Map()) ==>
        towers.Keys == old(towers).Keys && retired == old(retired) && globalEpoch == old(globalEpoch)
    {
      hide Whole, Shape, Levels, Stored, Located, Marked, Trimmed, Settled, Placed, ListsOk, MarkedFrom, RetiredOne,
        AllAt, Left;
      var preds, succs := new Ref[NUM_LEVELS], new Ref[NUM_LEVELS];
      var epoch := EnterEpoch(cell);
      ghost var t, c := towers, chains;
      var cur, found := Locate(preds, succs, key, NUM_LEVELS - 1);
      if !found {
        LeaveEpoch(cell);
        return;
      }
      WholeKnown(towers, chains, reclaimLists, retired);
      var iMarkedIt := TakeOut(preds, succs, key, cur);
      if iMarkedIt { AddToReclaimList(cur, epoch); }
      LeaveEpoch(cell);
      if iMarkedIt { ReclaimNodes(); }
      RetiredIs(t, c[0], key, cur, old(retired), retired, epoch, old(globalEpoch),
                !old(reclaimLock) && AllAt(localEpochs, old(globalEpoch)));
    }

    method Perform(cell: nat, op: Op, level: nat) returns (r: Result)
      requires Valid() && Claimed(cell) && level < NUM_LEVELS
      modifies this
      ensures Valid() && KeepsClaims(old(localEpochs)) && (Map(), r) == Effect(old(Map()), op)
    {
      match op
      case Insert(key, value) => Insert(cell, key, value, level); r := Done;
      case Remove(key) => Remove(cell, key); r := Done;
      case Search(key) => r := Search(cell, key);
    }

    /** Whatever operations are run, with whatever heights drawn, by whatever threads one at a time: the
        results are those of a map. */
    method Run(cells: seq<nat>, ops: seq<Op>, levels: seq<nat>) returns (results: seq<Result>)
      requires Valid() && |cells| == |ops| == |levels|
      requires forall i :: 0 <= i < |ops| ==> Claimed(cells[i]) && levels[i] < NUM_LEVELS
      modifies this
      ensures Valid() && (Map(), results) == EffectAll(old(Map()), ops)
    {
      results := [];
      for i := 0 to |ops|
        invariant Valid() && (Map(), results) == EffectAll(old(Map()), ops[..i])
        invariant KeepsClaims(old(localEpochs))
      {
        var r := Perform(cells[i], ops[i], levels[i]);
        results := results + [r];
        assert ops[..i + 1][..i] == ops[..i];
      }
      assert ops[..|ops|] == ops;
    }

    /** The inner loop of the destructor: what is still on one reclaim list. */
    method FreeReclaimed(epoch: nat, first: Ref, ghost heads: seq<Ref>)
      requires ListsOk(towers, heads, retired) && Placed(towers, [HEADER], retired, multiset{}) && NIL !in towers
      requires epoch < NUM_EPOCHS && heads[epoch] == first
      modifies this`towers, this`retired
      ensures ListsOk(towers, heads[epoch := NIL], retired) && Placed(towers, [HEADER], retired, multiset{})
      ensures NIL !in towers && retired == old(retired)[epoch := []]
    {
      hide Joined, Placed, IsList;
      ghost var heads' := heads;
      var toDelete := first;
      while toDelete != NIL
        modifies this`towers, this`retired
        invariant ListsOk(towers, heads', retired) && Placed(towers, [HEADER], retired, multiset{}) && NIL !in towers
        invariant heads' == heads[epoch := toDelete] && retired == old(retired)[epoch := retired[epoch]]
        decreases |retired[epoch]|
      {
        FreeFirst(towers, [HEADER], retired, heads', epoch);
        var next := towers[toDelete].reclaimNext;
        Deallocate(toDelete);
        heads', retired := heads'[epoch := next], retired[epoch := retired[epoch][1..]];
        toDelete := next;
      }
      ListEnded(towers, heads', retired, epoch);
    }

    /** `skiplist_free`: every access is to memory that is still allocated, nothing is freed twice and
        nothing is left. */
    method Free()
      requires Valid()
      modifies this`towers, this`retired
      ensures towers == map[]
    {
      hide Joined, Placed, IsList;
      FreeBegins(towers, chains, reclaimLists, retired);
      ghost var t, chain, i := towers, chains[0], 1;
      assert LinkAt(t, 0, chain, 0);
      var toDelete := towers[HEADER].forward[0].to;
      while toDelete != NIL
        modifies this`towers
        invariant 0 < i <= |chain| && toDelete == Next(chain, i - 1) && HEADER in towers && NIL !in towers
        invariant forall j :: i <= j < |chain| ==> chain[j] in towers && towers[chain[j]] == t[chain[j]]
        invariant Placed(towers, [HEADER] + chain[i..], retired, multiset{}) && ListsOk(towers, reclaimLists, retired)
        decreases |chain| - i
      {
        assert LinkAt(t, 0, chain, i);
        FreeLinked(towers, chain, i, reclaimLists, retired);
        var next := towers[toDelete].forward[0].to;
        Deallocate(toDelete);
        i := i + 1;
        toDelete := next;
      }
      assert [HEADER] + chain[i..] == [HEADER];
      ghost var heads := reclaimLists;
      for epoch := 0 to NUM_EPOCHS
        modifies this`towers, this`retired
        invariant ListsOk(towers, heads, retired) && Placed(towers, [HEADER], retired, multiset{}) && NIL !in towers
        invariant forall e :: epoch <= e < NUM_EPOCHS ==> heads[e] == reclaimLists[e]
        invariant forall e :: 0 <= e < epoch ==> retired[e] == []
      {
        FreeReclaimed(epoch, reclaimLists[epoch], heads);
        heads := heads[epoch := NIL];
      }
      OnlyHeader(towers, retired);
      towers := towers - {HEADER};
    }
  }

  /** Tower x has been put on the reclaim list of this label; after that, if it says so, the list of two
      epochs ago has been freed. */
  predicate Listed(x: Ref, lists: seq<seq<Ref>>, lists': seq<seq<Ref>>, epoch: int, global: nat, drained: bool)
    requires |lists| == NUM_EPOCHS && 0 <= epoch < NUM_EPOCHS
  {
    var listed := lists[epoch := [x] + lists[epoch]];
    lists' == if drained then listed[(global + 2) % NUM_EPOCHS := []] else listed
  }

  /** That has happened to the tower of this key. */
  ghost predicate RetiredOne(t: Towers, chain: seq<Ref>, key: int, lists: seq<seq<Ref>>, lists': seq<seq<Ref>>,
                             epoch: int, global: nat,
                             drained: bool) {
    && |lists| == NUM_EPOCHS && 0 <= epoch < NUM_EPOCHS
    && exists x :: x in chain && x in t && t[x].key == key && Listed(x, lists, lists', epoch, global, drained)
  }

  lemma RetiredIs(t: Towers, chain: seq<Ref>, key: int, x: Ref, lists: seq<seq<Ref>>, lists': seq<seq<Ref>>, epoch: int,
                  global: nat, drained: bool)
    requires x in chain && x in t && t[x].key == key && |lists| == NUM_EPOCHS && 0 <= epoch < NUM_EPOCHS
    requires var listed := lists[epoch := [x] + lists[epoch]];
      lists' == if drained then listed[(global + 2) % NUM_EPOCHS := []] else listed
    ensures RetiredOne(t, chain, key, lists, lists', epoch, global, drained)
  {
    assert Listed(x, lists, lists', epoch, global, drained);
  }

  /** One tower has joined, with this key and height. */
  ghost predicate OneMore(t: Towers, t': Towers, key: int, level: nat) {
    exists node :: node !in t && t'.Keys == t.Keys + {node} && t'[node].key == key && |t'[node].forward| == level + 1
  }

  lemma FreeBegins(t: Towers, c: seq<seq<Ref>>, heads: seq<Ref>, lists: seq<seq<Ref>>)
    requires Whole(t, c, heads, lists)
    ensures |c| == NUM_LEVELS && LevelOk(t, 0, c[0]) && NIL !in t && c[0] == [HEADER] + c[0][1..]
    ensures forall j :: 0 <= j < |c[0]| ==> c[0][j] in c[0]
    ensures Placed(t, c[0], lists, multiset{}) && ListsOk(t, heads, lists)
  {
    assert LevelOk(t, 0, c[0]);
  }

  /** The next tower of the bottom level is freed. */
  lemma FreeLinked(t: Towers, chain: seq<Ref>, i: nat, heads: seq<Ref>, lists: seq<seq<Ref>>)
    requires 0 < i < |chain| && Placed(t, [HEADER] + chain[i..], lists, multiset{}) && ListsOk(t, heads, lists)
    ensures chain[i] in t && chain[i] != HEADER && chain[i] !in chain[i + 1..]
    ensures Placed(t - {chain[i]}, [HEADER] + chain[i + 1..], lists, multiset{})
      && ListsOk(t - {chain[i]}, heads, lists)
  {
    hide Joined;
    var x := chain[i];
    assert [HEADER] + chain[i..] == [HEADER, x] + chain[i + 1..];
    PlacedOnce(t, [HEADER] + chain[i..], lists, multiset{}, x);
    assert multiset([HEADER] + chain[i..]) == multiset{HEADER, x} + multiset(chain[i + 1..]);
    assert multiset([HEADER] + chain[i + 1..]) == multiset{HEADER} + multiset(chain[i + 1..]);
    forall y
      ensures multiset([HEADER] + chain[i + 1..])[y] + multiset(Joined(lists))[y] == multiset((t - {x}).Keys)[y]
    { PlacedOnce(t, [HEADER] + chain[i..], lists, multiset{}, y); }
    ListsKept(t, t - {x}, heads, lists);
  }

  lemma ListEnded(t: Towers, heads: seq<Ref>, lists: seq<seq<Ref>>, e: nat)
    requires ListsOk(t, heads, lists) && e < NUM_EPOCHS && heads[e] == NIL && NIL !in t
    ensures lists[e] == []
  {
    assert IsList(t, heads[e], lists[e]);
  }

  lemma OnlyHeader(t: Towers, lists: seq<seq<Ref>>)
    requires Placed(t, [HEADER], lists, multiset{}) && forall e :: 0 <= e < NUM_EPOCHS ==> lists[e] == []
    ensures t.Keys == {HEADER}
  {
    assert Joined(lists) == [];
    forall x
      ensures x in t.Keys <==> x == HEADER
    { PlacedOnce(t, [HEADER], lists, multiset{}, x); }
  }

  lemma TowerKnown(t: Towers, c: seq<seq<Ref>>, x: Ref)
    requires Shape(t, c) && x in t && !Marked(t, x)
    ensures 0 < |t[x].forward| <= NUM_LEVELS
    ensures forall l :: 0 <= l < |t[x].forward| ==> !t[x].forward[l].marked
  {
  }

  lemma FourCells(garbage: seq<int>)
    ensures seq(NUM_EPOCHS, _ => UNCLAIMED) + garbage == [-1, -1, -1, -1] + garbage
  {
    assert seq(NUM_EPOCHS, _ => UNCLAIMED) == [-1, -1, -1, -1];
  }

  /** What `skiplist_init` sets up. */
  lemma EmptyIsWhole()
    ensures var towers: Towers := map[HEADER := Tower(0, 0, seq(NUM_LEVELS, _ => Link(NIL, false)), NIL)];
      var chains := seq(NUM_LEVELS, _ => [HEADER]);
      && Whole(towers, chains, seq(NUM_EPOCHS, _ => NIL), seq(NUM_EPOCHS, _ => []))
      && Stored(towers, chains) == map[]
  {
    var towers: Towers := map[HEADER := Tower(0, 0, seq(NUM_LEVELS, _ => Link(NIL, false)), NIL)];
    var chains := seq(NUM_LEVELS, _ => [HEADER]);
    forall l | 0 <= l < NUM_LEVELS
      ensures LevelOk(towers, l, chains[l])
    { assert LinkAt(towers, l, chains[l], 0); }
    assert multiset(towers.Keys) == multiset{HEADER};
  }

  lemma WholeKnown(t: Towers, c: seq<seq<Ref>>, heads: seq<Ref>, lists: seq<seq<Ref>>)
    requires Whole(t, c, heads, lists)
    ensures |c| == NUM_LEVELS && |heads| == |lists| == NUM_EPOCHS && Levels(t, c) && Shape(t, c)
    ensures forall e :: 0 <= e < NUM_EPOCHS ==> (heads[e] == NIL <==> lists[e] == [])
  {
    forall e | 0 <= e < NUM_EPOCHS
      ensures heads[e] == NIL <==> lists[e] == []
    {
      assert IsList(t, heads[e], lists[e]);
      assert NIL !in t;
    }
  }

  lemma {:induction false} Bounded(xs: set<Ref>) returns (bound: Ref)
    ensures bound > 0 && forall x :: x in xs ==> x < bound
    decreases |xs|
  {
    bound := 1;
    if y :| y in xs {
      var rest := Bounded(xs - {y});
      assert forall x :: x in xs ==> x == y || x in xs - {y};
      bound := if y < rest then rest else y + 1;
    }
  }

  lemma UnusedAddress(used: set<Ref>)
    ensures exists x: Ref :: x > 0 && x !in used
  {
    var bound := Bounded(used);
    assert bound !in used;
  }

  /** An unmarked place to the left of the key. */
  predicate Reached(t: Towers, x: Ref, key: int) {
    x in t && !Marked(t, x) && (x == HEADER || t[x].key < key)
  }

  lemma LinkedAt(t: Towers, c: seq<seq<Ref>>, l: nat, i: nat)
    requires Shape(t, c) && l < NUM_LEVELS && i < |c[l]|
    ensures var x := c[l][i];
      && x in c[l] && x in t && l < |t[x].forward| && x != NIL && t[x].forward[l] == Link(Next(c[l], i), Marked(t, x))
      && (i > 0 ==> x != HEADER) && |c| == NUM_LEVELS && (!Marked(t, x) ==> forall m :: 0 <= m < l ==> x in c[m])
    ensures if i + 1 < |c[l]| then Next(c[l], i) == c[l][i + 1] != NIL else Next(c[l], i) == NIL
  {
    assert LevelOk(t, l, c[l]) && LinkAt(t, l, c[l], i);
    assert i + 1 < |c[l]| ==> c[l][i + 1] in c[l];
  }

  /** The tables are filled for the levels above lo. */
  ghost predicate Filled(t: Towers, c: seq<seq<Ref>>, preds: seq<Ref>, succs: seq<Ref>, key: int, lo: int, hi: nat) {
    && |preds| == |succs| == |c| == NUM_LEVELS
    && forall l :: 0 <= l && lo < l <= hi < NUM_LEVELS ==> Located(t, c[l], l, preds[l], succs[l], key)
  }

  lemma FillBegins(t: Towers, c: seq<seq<Ref>>, key: int, l: nat)
    requires Shape(t, c) && l < NUM_LEVELS
    ensures |c| == NUM_LEVELS && Trimmed(t, c, t, c) && Reached(t, HEADER, key) && HEADER in c[l]
  {
    assert LevelOk(t, l, c[l]);
  }

  ghost function UnlinkAfter(t: Towers, c: seq<seq<Ref>>, l: nat, i: nat): Towers
    requires Shape(t, c) && l < NUM_LEVELS && i + 1 < |c[l]|
  {
    LinkedAt(t, c, l, i);
    LinkedAt(t, c, l, i + 1);
    SetForward(t, c[l][i], l, Link(t[c[l][i + 1]].forward[l].to, false))
  }

  ghost function ChainsAfter(c: seq<seq<Ref>>, l: nat, i: nat): seq<seq<Ref>>
    requires l < |c| && i + 1 < |c[l]|
  {
    c[l := Without(c[l], i + 1)]
  }

  lemma UnlinkKeepsFilled(t: Towers, c: seq<seq<Ref>>, l: nat, i: nat, preds: seq<Ref>, succs: seq<Ref>, key: int,
                          hi: nat)
    requires Shape(t, c) && l < NUM_LEVELS && i + 1 < |c[l]| && Filled(t, c, preds, succs, key, l, hi)
    requires Reached(t, c[l][i], key) && Marked(t, c[l][i + 1])
    ensures var (t', c') := (UnlinkAfter(t, c, l, i), ChainsAfter(c, l, i));
      && Shape(t', c') && Trimmed(t, c, t', c') && Filled(t', c', preds, succs, key, l, hi)
      && Reached(t', c[l][i], key) && |c'[l]| == |c[l]| - 1 && c'[l][i] == c[l][i]
      && c[l][i] in t' && l < |t'[c[l][i]].forward| && Next(c'[l], i) == t'[c[l][i]].forward[l].to
  {
    LinkedAt(t, c, l, i);
    LinkedAt(t, c, l, i + 1);
    UnlinkKeepsShape(t, c, l, i);
    hide Shape, Trimmed;
  }

  lemma MoveOn(t: Towers, c: seq<seq<Ref>>, l: nat, i: nat, key: int)
    requires Shape(t, c) && l < NUM_LEVELS && i + 1 < |c[l]| && !Marked(t, c[l][i + 1])
    requires c[l][i + 1] in t && t[c[l][i + 1]].key < key
    ensures var next := c[l][i + 1];
      Reached(t, next, key) && l < |t[next].forward| && t[next].forward[l].to == Next(c[l], i + 1)
  {
    LinkedAt(t, c, l, i + 1);
  }

  /** The walk of a level has ended at its place. */
  lemma FilledMore(t: Towers, c: seq<seq<Ref>>, l: nat, i: nat, preds: seq<Ref>, succs: seq<Ref>, key: int, hi: nat)
    requires Shape(t, c) && l <= hi < NUM_LEVELS && i < |c[l]| && Filled(t, c, preds, succs, key, l, hi)
    requires Reached(t, c[l][i], key)
    requires var next := Next(c[l], i); next != NIL ==> next in t && t[next].key >= key && !Marked(t, next)
    ensures Filled(t, c, preds[l := c[l][i]], succs[l := Next(c[l], i)], key, l - 1, hi)
    ensures forall m :: 0 <= m < l ==> c[l][i] in c[m]
  {
    LinkedAt(t, c, l, i);
    if i + 1 < |c[l]| { LinkedAt(t, c, l, i + 1); }
    hide Shape;
  }
}
