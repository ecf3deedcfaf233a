/** The stack as one thread with exclusive access to it sees it: the reclaim pass,
    the destructor and the check at the end of the benchmark, on the memory the
    concurrent machine leaves behind.
  */
module StackObject {
  import opened Cells
  import opened StackMachine
  import opened NodeOwnership

  ghost predicate IsChain(heap: Heap, list: seq<Ptr>) {
    && (forall d :: 0 <= d < |list| ==> list[d] in heap)
    && (|list| > 0 ==> heap[list[0]].next == NULL)
    && (forall d {:trigger heap[list[d]]} :: 0 < d < |list| ==> heap[list[d]].next == list[d - 1])
  }

  /** All the memory there is: every node is once in one of two lists (each from the bottom up). */
  ghost predicate Layout(heap: Heap, stack: seq<Ptr>, reclaim: seq<Ptr>) {
    && NULL !in heap
    && IsChain(heap, stack) && IsChain(heap, reclaim)
    && forall a :: multiset(stack)[a] + multiset(reclaim)[a] == if a in heap then 1 else 0
  }

  /** The nodes of a list, from the top down, that some hazard slot names. */
  function Survivors(list: seq<Ptr>, hazards: seq<Ptr>): seq<Ptr> {
    if list == [] then []
    else var k := |list| - 1; (if list[k] in hazards then [list[k]] else []) + Survivors(list[..k], hazards)
  }

  lemma ChainTop(heap: Heap, list: seq<Ptr>)
    requires IsChain(heap, list) && list != []
    ensures Top(list) in heap && heap[Top(list)].next == Top(list[..|list| - 1])
    ensures multiset(list) == multiset(list[..|list| - 1]) + multiset{Top(list)}
  {
    var k := |list| - 1;
    assert list == list[..k] + [list[k]];
    assert k == 0 ==> heap[list[0]].next == NULL;
  }

  lemma ChainPrefix(heap: Heap, heap': Heap, list: seq<Ptr>, k: nat)
    requires IsChain(heap, list) && k <= |list|
    requires forall a :: a in list[..k] ==> a in heap' && heap'[a] == heap[a]
    ensures IsChain(heap', list[..k])
  {
    assert forall d :: 0 <= d < k ==> list[..k][d] in list[..k];
  }

  lemma ChainLooks(heap: Heap, list: seq<Ptr>, k: nat)
    requires IsChain(heap, list) && k <= |list| && Top(list[..k]) != NULL
    ensures k > 0 && Top(list[..k]) == list[k - 1] && list[k - 1] in heap
    ensures heap[list[k - 1]].next == Top(list[..k - 1])
  {
    assert list[..k] != [];
    assert k == 1 ==> heap[list[0]].next == NULL;
  }

  /** The sequences of a reclaim pass with the bottom k nodes still to be looked at. */
  ghost predicate Sorted(list: seq<Ptr>, k: nat, freed: seq<Ptr>, kept: seq<Ptr>, hazards: seq<Ptr>) {
    && k <= |list|
    && multiset(freed) + multiset(kept) + multiset(list[..k]) == multiset(list)
    && (forall a :: a in freed ==> a !in hazards)
    && (forall a :: a in kept ==> a in hazards)
    && kept + Survivors(list[..k], hazards) == Survivors(list, hazards)
  }

  /** The memory of a reclaim pass. */
  ghost predicate PassMemory(before: Heap, heap: Heap, freed: seq<Ptr>, kept: seq<Ptr>) {
    && heap.Keys == before.Keys - (set a | a in freed)
    && (forall a :: a in heap ==> heap[a].data == before[a].data && (a !in kept ==> heap[a] == before[a]))
    && IsChain(heap, kept)
  }

  lemma SurvivorsStep(list: seq<Ptr>, k: nat, kept: seq<Ptr>, hazards: seq<Ptr>)
    requires 0 < k <= |list|
    ensures multiset(list[..k]) == multiset(list[..k - 1]) + multiset{list[k - 1]}
    ensures kept + Survivors(list[..k], hazards)
         == (if list[k - 1] in hazards then kept + [list[k - 1]] else kept) + Survivors(list[..k - 1], hazards)
  {
    assert list[..k][..k - 1] == list[..k - 1];
    assert list[..k] == list[..k - 1] + [list[k - 1]];
  }

  lemma PassStep(list: seq<Ptr>, k: nat, freed: seq<Ptr>, kept: seq<Ptr>, hazards: seq<Ptr>)
    requires Sorted(list, k, freed, kept, hazards) && k > 0
    ensures var a := list[k - 1];
      && (a in hazards ==> Sorted(list, k - 1, freed, kept + [a], hazards))
      && (a !in hazards ==> Sorted(list, k - 1, freed + [a], kept, hazards))
  {
    hide Survivors;
    SurvivorsStep(list, k, kept, hazards);
  }

  /** A node still to be looked at is neither freed nor kept. */
  lemma Untouched(stack: seq<Ptr>, list: seq<Ptr>, before: Heap, k: nat, freed: seq<Ptr>, kept: seq<Ptr>,
                  hazards: seq<Ptr>)
    requires Layout(before, stack, list) && Sorted(list, k, freed, kept, hazards)
    ensures forall a :: a in list[..k] ==> a in list && a !in freed && a !in kept && a !in stack
    ensures forall a :: a in stack ==> a in before && a !in freed && a !in kept
  {
    forall a | a in list[..k]
      ensures a in list && a !in freed && a !in kept && a !in stack
    {
      assert multiset(list)[a] <= 1 && multiset(list[..k])[a] >= 1;
      assert multiset(freed)[a] + multiset(kept)[a] + multiset(list[..k])[a] == multiset(list)[a];
    }
    forall a | a in stack
      ensures a in before && a !in freed && a !in kept
    {
      assert multiset(stack)[a] >= 1;
      assert multiset(freed)[a] + multiset(kept)[a] + multiset(list[..k])[a] == multiset(list)[a] == 0;
    }
  }

  lemma PassBegins(list: seq<Ptr>, heap: Heap, hazards: seq<Ptr>)
    ensures Sorted(list, |list|, [], [], hazards) && PassMemory(heap, heap, [], []) && Top([]) == NULL
      && list[..|list|] == list
  {
    assert list[..|list|] == list;
  }

  /** The node the pass looks at is as the stack left it, and so is the rest of the list. */
  lemma PassLooks(stack: seq<Ptr>, list: seq<Ptr>, before: Heap, heap: Heap, k: nat, freed: seq<Ptr>, kept: seq<Ptr>,
                  hazards: seq<Ptr>)
    requires Layout(before, stack, list) && Sorted(list, k, freed, kept, hazards)
      && PassMemory(before, heap, freed, kept)
    requires k <= |list| && Top(list[..k]) != NULL
    ensures k > 0
    ensures var a := Top(list[..k]);
      && a in heap && a != NULL && a !in kept && a == list[k - 1] && heap[a].next == Top(list[..k - 1])
    ensures IsChain(heap, kept)
  {
    hide Sorted, IsChain;
    ChainLooks(before, list, k);
    Untouched(stack, list, before, k, freed, kept, hazards);
    assert list[k - 1] in list[..k];
  }

  lemma PassFrees(before: Heap, heap: Heap, freed: seq<Ptr>, kept: seq<Ptr>, a: Ptr)
    requires PassMemory(before, heap, freed, kept) && a in heap && a !in kept
    ensures PassMemory(before, heap - {a}, freed + [a], kept)
  {
    ChainPrefix(heap, heap - {a}, kept, |kept|);
    assert kept[..|kept|] == kept;
  }

  lemma PassKeeps(before: Heap, heap: Heap, freed: seq<Ptr>, kept: seq<Ptr>, a: Ptr, next: Ptr)
    requires PassMemory(before, heap, freed, kept) && a in heap
    requires IsChain(heap[a := heap[a].(next := next)], kept + [a])
    ensures PassMemory(before, heap[a := heap[a].(next := next)], freed, kept + [a])
  {
  }

  /** What a reclaim pass over `list` has to achieve: it frees exactly the nodes no slot names, keeps
      the others once each, and leaves data and the stack alone. */
  ghost predicate Reclaimed(stack: seq<Ptr>, list: seq<Ptr>, before: Heap, heap: Heap, freed: seq<Ptr>, kept: seq<Ptr>,
                            hazards: seq<Ptr>) {
    && kept == Survivors(list, hazards) && |kept| <= |hazards|
    && multiset(freed) + multiset(kept) == multiset(list)
    && (forall a :: a in list ==> (a in freed <==> a !in hazards))
    && heap.Keys == before.Keys - (set a | a in freed)
    && (forall a :: a in heap ==> heap[a].data == before[a].data)
    && (forall a :: a in stack ==> a in heap && heap[a] == before[a])
  }

  lemma NullTopAt(heap: Heap, list: seq<Ptr>, k: nat)
    requires IsChain(heap, list) && NULL !in heap && k <= |list| && Top(list[..k]) == NULL
    ensures k == 0
  {
    assert forall d :: 0 <= d < k ==> list[d] != NULL;
  }

  lemma PassSorted(list: seq<Ptr>, freed: seq<Ptr>, kept: seq<Ptr>, hazards: seq<Ptr>)
    requires Sorted(list, 0, freed, kept, hazards)
    ensures kept == Survivors(list, hazards) && multiset(freed) + multiset(kept) == multiset(list)
  {
    assert kept + Survivors(list[..0], hazards) == kept;
  }

  /** When nothing is left to look at, the nodes are sorted. */
  lemma PassCounts(stack: seq<Ptr>, list: seq<Ptr>, before: Heap, freed: seq<Ptr>, kept: seq<Ptr>, hazards: seq<Ptr>,
                   a: Ptr)
    requires Layout(before, stack, list) && Sorted(list, 0, freed, kept, hazards)
    ensures multiset(stack)[a] + multiset(kept)[a] == if a in before && a !in freed then 1 else 0
    ensures multiset(kept)[a] <= multiset(hazards)[a]
    ensures a in list ==> (a in freed <==> a !in hazards)
  {
    hide IsChain;
    assert multiset(freed) + multiset(kept) == multiset(list);
    assert multiset(freed)[a] + multiset(kept)[a] == multiset(list)[a];
    assert a in kept ==> a in hazards;
    assert a in list <==> multiset(list)[a] > 0;
  }

  lemma PassDone(stack: seq<Ptr>, list: seq<Ptr>, before: Heap, k: nat, freed: seq<Ptr>, kept: seq<Ptr>,
                 hazards: seq<Ptr>)
    requires Layout(before, stack, list) && k <= |list| && Top(list[..k]) == NULL
    ensures k == 0
  {
    NullTopAt(before, list, k);
  }

  lemma PassLayout(stack: seq<Ptr>, list: seq<Ptr>, before: Heap, heap: Heap, freed: seq<Ptr>, kept: seq<Ptr>,
                   hazards: seq<Ptr>)
    requires Layout(before, stack, list) && Sorted(list, 0, freed, kept, hazards)
      && PassMemory(before, heap, freed, kept)
    ensures Layout(heap, stack, kept)
  {
    hide IsChain, Sorted;
    Untouched(stack, list, before, 0, freed, kept, hazards);
    ChainPrefix(before, heap, stack, |stack|);
    assert stack[..|stack|] == stack;
    forall a
      ensures multiset(stack)[a] + multiset(kept)[a] == if a in heap then 1 else 0
    { PassCounts(stack, list, before, freed, kept, hazards, a); }
  }

  /** When nothing is left to look at, the memory is laid out again. */
  lemma PassEnds(stack: seq<Ptr>, list: seq<Ptr>, before: Heap, heap: Heap, k: nat, freed: seq<Ptr>, kept: seq<Ptr>,
                 hazards: seq<Ptr>)
    requires Layout(before, stack, list) && Sorted(list, k, freed, kept, hazards)
      && PassMemory(before, heap, freed, kept)
    requires k <= |list| && Top(list[..k]) == NULL
    ensures Layout(heap, stack, kept)
    ensures Reclaimed(stack, list, before, heap, freed, kept, hazards)
  {
    hide Layout, IsChain, Sorted, Survivors;
    PassDone(stack, list, before, k, freed, kept, hazards);
    forall a
      ensures multiset(kept)[a] <= multiset(hazards)[a]
      ensures a in list ==> (a in freed <==> a !in hazards)
    { PassCounts(stack, list, before, freed, kept, hazards, a); }
    PassSorted(list, freed, kept, hazards);
    Untouched(stack, list, before, 0, freed, kept, hazards);
    PassLayout(stack, list, before, heap, freed, kept, hazards);
    AtMostSlots(kept, hazards);
  }

  /** Distinct nodes that are all named by slots are no more than the slots. */
  lemma {:induction false} AtMostSlots(kept: seq<Ptr>, hazards: seq<Ptr>)
    requires forall a :: multiset(kept)[a] <= multiset(hazards)[a]
    ensures |kept| <= |hazards|
  {
    assert multiset(kept) <= multiset(hazards);
    assert |multiset(hazards) - multiset(kept)| == |multiset(hazards)| - |multiset(kept)|;
  }

  function Reversed(xs: seq<Ptr>): seq<Ptr> {
    if xs == [] then [] else var k := |xs| - 1; [xs[k]] + Reversed(xs[..k])
  }

  lemma {:induction false} ReversedElements(xs: seq<Ptr>)
    ensures multiset(Reversed(xs)) == multiset(xs)
  {
    if xs != [] {
      ReversedElements(xs[..|xs| - 1]);
      assert xs == xs[..|xs| - 1] + [xs[|xs| - 1]];
    }
  }

  /** The memory without these nodes. */
  function Minus(heap: Heap, nodes: seq<Ptr>): Heap {
    map a | a in heap && a !in nodes :: heap[a]
  }

  lemma FreeBegins(heap: Heap, list: seq<Ptr>)
    ensures list[..|list|] == list && Minus(heap, []) == heap
  {
  }

  lemma {:induction false} InListOnce(list: seq<Ptr>, k: nat, freed: seq<Ptr>)
    requires 0 < k <= |list| && (forall a :: multiset(list)[a] <= 1)
    requires freed + Reversed(list[..k]) == Reversed(list)
    ensures freed + [list[k - 1]] + Reversed(list[..k - 1]) == Reversed(list)
    ensures list[k - 1] !in freed
  {
    assert list[..k][..k - 1] == list[..k - 1];
    ReversedElements(list);
    ReversedElements(list[..k]);
    var a := list[k - 1];
    assert list[..k][k - 1] == a;
    assert multiset(Reversed(list)) == multiset(freed) + multiset(Reversed(list[..k]));
    assert multiset(freed)[a] + multiset(list[..k])[a] == multiset(list)[a];
  }

  /** The next node to free is still there, and only once. */
  lemma FreeLooks(before: Heap, heap: Heap, list: seq<Ptr>, k: nat, freed: seq<Ptr>)
    requires IsChain(before, list) && (forall a :: multiset(list)[a] <= 1)
    requires k <= |list| && Top(list[..k]) != NULL
    requires freed + Reversed(list[..k]) == Reversed(list) && heap == Minus(before, freed)
    ensures k > 0
    ensures var a := Top(list[..k]);
      && a in heap && heap[a].next == Top(list[..k - 1])
      && freed + [a] + Reversed(list[..k - 1]) == Reversed(list)
      && heap - {a} == Minus(before, freed + [a])
      && DataOf(before, freed + [a]) == DataOf(before, freed) + [heap[a].data]
  {
    hide Reversed, IsChain, Top;
    ChainLooks(before, list, k);
    InListOnce(list, k, freed);
    assert DataOf(before, freed + [list[k - 1]]) == DataOf(before, freed) + [before[list[k - 1]].data];
  }

  lemma FreeDone(before: Heap, list: seq<Ptr>, k: nat, freed: seq<Ptr>)
    requires IsChain(before, list) && NULL !in before && k <= |list| && Top(list[..k]) == NULL
    requires freed + Reversed(list[..k]) == Reversed(list)
    ensures freed == Reversed(list)
  {
    assert list[..k] == [];
  }

  /** Both lists together are all the memory, each node once. */
  lemma FreeEnds(heap: Heap, stack: seq<Ptr>, reclaim: seq<Ptr>)
    requires Layout(heap, stack, reclaim)
    ensures IsChain(Minus(heap, Reversed(stack)), reclaim) && DataOf(Minus(heap, Reversed(stack)), []) == []
    ensures Minus(Minus(heap, Reversed(stack)), Reversed(reclaim)) == map[]
    ensures multiset(Reversed(stack) + Reversed(reclaim)) == multiset(heap.Keys)
    ensures forall a :: multiset(stack)[a] <= 1 && multiset(reclaim)[a] <= 1
  {
    hide Reversed;
    ReversedElements(stack);
    ReversedElements(reclaim);
    forall a
      ensures a in Reversed(stack) <==> a in stack
      ensures a in Reversed(reclaim) <==> a in reclaim
      ensures multiset(stack)[a] + multiset(reclaim)[a] == multiset(heap.Keys)[a]
      ensures a in heap ==> (a in stack <==> a !in reclaim)
    {
      assert a in Reversed(stack) <==> multiset(Reversed(stack))[a] > 0;
      assert a in Reversed(reclaim) <==> multiset(Reversed(reclaim))[a] > 0;
      assert a in stack <==> multiset(stack)[a] > 0;
      assert a in reclaim <==> multiset(reclaim)[a] > 0;
    }
    ChainPrefix(heap, Minus(heap, Reversed(stack)), reclaim, |reclaim|);
    assert reclaim[..|reclaim|] == reclaim;
  }

  datatype Option = None | Some(value: nat)

  lemma NullTop(heap: Heap, stack: seq<Ptr>, reclaim: seq<Ptr>)
    requires Layout(heap, stack, reclaim)
    ensures Top(stack) == NULL <==> stack == []
  {
  }

  /** The head of a stack that is not empty. */
  lemma PopLayout(heap: Heap, stack: seq<Ptr>, reclaim: seq<Ptr>)
    requires Layout(heap, stack, reclaim) && Top(stack) != NULL
    ensures stack != [] && Top(stack) in heap && heap[Top(stack)].next == Top(stack[..|stack| - 1])
    ensures Top(stack) !in reclaim && IsChain(heap, reclaim)
  {
    ChainTop(heap, stack);
    assert multiset(stack)[Top(stack)] + multiset(reclaim)[Top(stack)] == 1;
  }

  /** The popped node now is the top of the reclaim list. */
  lemma RetireLayout(before: Heap, heap: Heap, stack: seq<Ptr>, reclaim: seq<Ptr>, a: Ptr)
    requires stack != [] && a == Top(stack) && reclaim != [] && a == Top(reclaim) && a in before
    requires Layout(before, stack, reclaim[..|reclaim| - 1]) && IsChain(heap, reclaim)
    requires heap == before[a := before[a].(next := heap[a].next)]
    ensures Layout(heap, stack[..|stack| - 1], reclaim)
    ensures forall b :: b in stack[..|stack| - 1] ==> b in heap && b in before && heap[b] == before[b]
  {
    ChainTop(before, stack);
    ChainTop(heap, reclaim);
    var k := |stack| - 1;
    forall b | b in stack[..k]
      ensures b in heap && b in before && heap[b] == before[b]
    {
      assert multiset(stack[..k])[b] >= 1;
      assert multiset(stack)[a] + multiset(reclaim[..|reclaim| - 1])[a] == 1;
    }
    ChainPrefix(before, heap, stack, k);
  }

  lemma StackKept(before: Heap, mid: Heap, heap: Heap, stack: seq<Ptr>, reclaim: seq<Ptr>, freed: seq<Ptr>,
                  kept: seq<Ptr>, hazards: seq<Ptr>)
    requires Reclaimed(stack, reclaim, mid, heap, freed, kept, hazards)
    requires forall b :: b in stack ==> b in before && b in mid && mid[b] == before[b]
    ensures forall b :: b in stack ==> b in heap && heap[b] == before[b]
    ensures kept == Survivors(reclaim, hazards)
  {
  }

  function DataOf(heap: Heap, nodes: seq<Ptr>): seq<nat> {
    seq(|nodes|, i requires 0 <= i < |nodes| => if nodes[i] in heap then heap[nodes[i]].data else 0)
  }

  class Stack {
    var heap: map<Ptr, Node>
    var head: Ptr
    var toReclaim: Ptr
    var reclaimCounter: nat
    const hazards: array<Ptr>
    ghost var stack: seq<Ptr>
    ghost var reclaim: seq<Ptr>

    ghost predicate Valid()
      reads this, hazards
    {
      && hazards.Length == MAX_HAZARD_POINTERS
      && Layout(heap, stack, reclaim)
      && head == Top(stack) && toReclaim == Top(reclaim)
    }

    /** The memory that other threads have left. */
    constructor (heap: map<Ptr, Node>, head: Ptr, toReclaim: Ptr, counter: nat, slots: seq<Ptr>,
                 ghost stack: seq<Ptr>, ghost reclaim: seq<Ptr>)
      requires Layout(heap, stack, reclaim) && head == Top(stack) && toReclaim == Top(reclaim)
      requires |slots| == MAX_HAZARD_POINTERS
      ensures Valid() && fresh(hazards) && hazards[..] == slots
      ensures this.heap == heap && this.head == head && this.toReclaim == toReclaim && reclaimCounter == counter
      ensures this.stack == stack && this.reclaim == reclaim
    {
      this.heap, this.head, this.toReclaim, reclaimCounter := heap, head, toReclaim, counter;
      this.stack, this.reclaim := stack, reclaim;
      hazards := new Ptr[MAX_HAZARD_POINTERS](i requires 0 <= i < |slots| => slots[i]);
    }

    method OutstandingHazardPointersFor(danger: Ptr) returns (found: bool)
      ensures found <==> danger in hazards[..]
    {
      for i := 0 to hazards.Length
        invariant danger !in hazards[..i]
      {
        if hazards[i] == danger { return true; }
      }
      return false;
    }

    /** The weak CAS may fail spuriously any number of times before it succeeds. */
    method AddToReclaimList(node: Ptr)
      requires node in heap && node != NULL
      requires IsChain(heap, reclaim) && toReclaim == Top(reclaim) && node !in reclaim
      modifies this`heap, this`toReclaim, this`reclaim
      ensures heap == old(heap)[node := old(heap)[node].(next := old(toReclaim))]
      ensures reclaim == old(reclaim) + [node] && toReclaim == Top(reclaim)
      ensures IsChain(heap, reclaim)
    {
      var failures: nat := *;
      var linked := false;
      while !linked
        invariant reclaim == old(reclaim)
        invariant heap == old(heap) || heap == old(heap)[node := old(heap)[node].(next := old(toReclaim))]
        invariant !linked ==> toReclaim == old(toReclaim)
        invariant linked ==> toReclaim == node && heap == old(heap)[node := old(heap)[node].(next := old(toReclaim))]
        decreases failures, !linked
      {
        var reclaimHead := toReclaim;
        heap := heap[node := heap[node].(next := reclaimHead)];
        if failures == 0 && toReclaim == heap[node].next {
          toReclaim := node;
          linked := true;
        } else {
          heap := heap[node := heap[node].(next := toReclaim)];
          failures := failures - 1;
        }
      }
      reclaim := reclaim + [node];
    }

    /** One pass with the hazards fixed and no other retirer: it frees exactly the listed nodes no slot
        names and lists the others again, once each, at most as many as there are slots. */
    method DeleteNodesWithNoHazards() returns (freed: seq<Ptr>)
      requires Valid()
      modifies this`heap, this`toReclaim, this`reclaim
      ensures Valid()
      ensures Reclaimed(stack, old(reclaim), old(heap), heap, freed, reclaim, hazards[..])
    {
      hide Sorted, PassMemory, IsChain, Layout, Reclaimed, Survivors, Top;
      ghost var list, before, hz := reclaim, heap, hazards[..];
      ghost var k: nat := |list|;
      PassBegins(list, heap, hz);
      var current := toReclaim;
      toReclaim, reclaim := NULL, [];
      freed := [];
      while current != NULL
        invariant k <= |list| && Sorted(list, k, freed, reclaim, hz) && PassMemory(before, heap, freed, reclaim)
        invariant current == Top(list[..k]) && toReclaim == Top(reclaim)
        decreases k
      {
        PassLooks(stack, list, before, heap, k, freed, reclaim, hz);
        PassStep(list, k, freed, reclaim, hz);
        k := k - 1;
        var next := heap[current].next;
        var outstanding := OutstandingHazardPointersFor(current);
        if !outstanding {
          PassFrees(before, heap, freed, reclaim, current);
          heap := heap - {current};
          freed := freed + [current];
        } else {
          ghost var was, kept := heap, reclaim;
          AddToReclaimList(current);
          PassKeeps(before, was, freed, kept, current, heap[current].next);
        }
        current := next;
      }
      PassEnds(stack, list, before, heap, k, freed, reclaim, hz);
    }

    /** `stack_pop` by the only thread, which owns this hazard slot: neither loop comes round again. */
    method Pop(slot: nat) returns (result: Option)
      requires Valid() && slot < MAX_HAZARD_POINTERS
      modifies this`heap, this`head, this`toReclaim, this`stack, this`reclaim, this`reclaimCounter, hazards
      ensures Valid()
      ensures hazards[..] == old(hazards[..])[slot := NULL]
      ensures old(stack) == [] ==>
        result == None && stack == [] && heap == old(heap) && reclaim == old(reclaim)
          && reclaimCounter == old(reclaimCounter)
      ensures old(stack) != [] ==>
        && result == Some(old(heap)[Top(old(stack))].data) && stack == old(stack)[..|old(stack)| - 1]
        && forall a :: a in stack ==> a in heap && heap[a] == old(heap)[a]
      ensures old(stack) != [] ==>
        var (listed, count) := (old(reclaim) + [Top(old(stack))], (old(reclaimCounter) + 1) % UNSIGNED_RANGE);
        if count < 128 then reclaim == listed && reclaimCounter == count
        else reclaim == Survivors(listed, hazards[..]) && reclaimCounter == 0
    {
      hide IsChain, Layout, Reclaimed, Survivors;
      var oldHead := head;
      hazards[slot] := oldHead;
      var validated := head;
      assert validated == oldHead;
      if oldHead == NULL {
        hazards[slot] := NULL;
        NullTop(heap, stack, reclaim);
        return None;
      }
      ghost var before, was := heap, stack;
      PopLayout(heap, stack, reclaim);
      head, stack := heap[oldHead].next, stack[..|stack| - 1];
      hazards[slot] := NULL;
      result := Some(heap[oldHead].data);
      AddToReclaimList(oldHead);
      RetireLayout(before, heap, was, reclaim, oldHead);
      reclaimCounter := (reclaimCounter + 1) % UNSIGNED_RANGE;
      if reclaimCounter >= RECLAIM_THRESHOLD {
        reclaimCounter := 0;
        ghost var mid := heap;
        ghost var list := reclaim;
        var freed := DeleteNodesWithNoHazards();
        StackKept(before, mid, heap, stack, list, freed, reclaim, hazards[..]);
      }
    }

    /** Frees one of the lists from the top, handing the data to the destructor if there is one. */
    method FreeList(root: Ptr, ghost list: seq<Ptr>, destroy: bool) returns (freed: seq<Ptr>, destroyed: seq<nat>)
      requires IsChain(heap, list) && NULL !in heap && root == Top(list)
      requires forall a :: multiset(list)[a] <= 1
      modifies this`heap
      ensures freed == Reversed(list) && heap == Minus(old(heap), freed)
      ensures destroyed == if destroy then DataOf(old(heap), freed) else []
    {
      hide IsChain, Reversed, Minus, Top;
      ghost var before := heap;
      ghost var k: nat := |list|;
      var toDelete := root;
      freed, destroyed := [], [];
      FreeBegins(heap, list);
      while toDelete != NULL
        invariant k <= |list| && toDelete == Top(list[..k])
        invariant freed + Reversed(list[..k]) == Reversed(list) && heap == Minus(before, freed)
        invariant destroyed == if destroy then DataOf(before, freed) else []
        decreases k
      {
        FreeLooks(before, heap, list, k, freed);
        k := k - 1;
        var next := heap[toDelete].next;
        if destroy { destroyed := destroyed + [heap[toDelete].data]; }
        heap := heap - {toDelete};
        freed := freed + [toDelete];
        toDelete := next;
      }
      FreeDone(before, list, k, freed);
    }

    /** `stack_free`, called when no other thread uses the stack: every node that is left is freed, each
        once, and the data of those still in the stack goes to the destructor, top first. */
    method StackFree(hasDestructor: bool) returns (freed: seq<Ptr>, destroyed: seq<nat>)
      requires Valid()
      modifies this`heap
      ensures heap == map[]
      ensures multiset(freed) == multiset(old(heap).Keys)
      ensures destroyed == if hasDestructor then DataOf(old(heap), Reversed(stack)) else []
    {
      FreeEnds(heap, stack, reclaim);
      freed, destroyed := FreeList(head, stack, hasDestructor);
      var more, _ := FreeList(toReclaim, reclaim, false);
      freed := freed + more;
    }
  }
}
