/** Who owns which node, for any number of linked lists and of private hands.

    `place` names for every allocated node the one list cell or the one hand it
    is in. The lemmas say that each kind of memory access the stack makes keeps
    this picture exact; they know nothing of program counters.
  */
module NodeOwnership {
  import opened StackMachine

  datatype Place = InList(list: nat, depth: nat) | Held(owner: nat)

  type Heap = map<Ptr, Node>
  type Places = map<Ptr, Place>

  function Top(list: seq<Ptr>): Ptr {
    if list == [] then NULL else list[|list| - 1]
  }

  /** List l as a chain in the heap, from the bottom up. */
  ghost predicate ListOk(heap: Heap, place: Places, l: nat, list: seq<Ptr>) {
    && (forall d :: 0 <= d < |list| ==> list[d] in heap && list[d] in place && place[list[d]] == InList(l, d))
    && (|list| > 0 ==> heap[list[0]].next == NULL)
    && (forall d {:trigger heap[list[d]]} :: 0 < d < |list| ==> heap[list[d]].next == list[d - 1])
  }

  ghost predicate NodeOk(lists: seq<seq<Ptr>>, held: seq<Ptr>, a: Ptr, p: Place) {
    match p
    case InList(l, d) => l < |lists| && d < |lists[l]| && lists[l][d] == a
    case Held(w) => w < |held| && held[w] == a
  }

  /** `lists[l]` hangs off `roots[l]`, thread u holds `held[u]` (or NULL), and every allocated
      node is in exactly one of them. */
  ghost predicate Owned(heap: Heap, roots: seq<Ptr>, held: seq<Ptr>, lists: seq<seq<Ptr>>, place: Places) {
    && NULL !in heap
    && place.Keys == heap.Keys
    && |roots| == |lists|
    && (forall l :: 0 <= l < |lists| ==> ListOk(heap, place, l, lists[l]) && roots[l] == Top(lists[l]))
    && (forall a :: a in place ==> NodeOk(lists, held, a, place[a]))
    && (forall u :: 0 <= u < |held| && held[u] != NULL ==> held[u] in place && place[held[u]] == Held(u))
  }

  lemma OwnedKnown(heap: Heap, roots: seq<Ptr>, held: seq<Ptr>, lists: seq<seq<Ptr>>, place: Places, t: nat)
    requires Owned(heap, roots, held, lists, place) && t < |held|
    ensures held[t] != NULL ==> held[t] in heap
    ensures forall l :: 0 <= l < |lists| ==>
      held[t] !in lists[l] && forall a :: a in lists[l] ==> a in heap && a in place
  {
    forall l | 0 <= l < |lists|
      ensures held[t] !in lists[l] && forall a :: a in lists[l] ==> a in heap && a in place
    { assert ListOk(heap, place, l, lists[l]); }
  }

  lemma ListKept(heap: Heap, heap': Heap, place: Places, place': Places, l: nat, list: seq<Ptr>)
    requires ListOk(heap, place, l, list)
    requires forall a :: a in list ==> a in heap && a in heap' && heap'[a] == heap[a]
    requires forall a :: a in list ==> a in place && a in place' && place'[a] == place[a]
    ensures ListOk(heap', place', l, list)
  {
  }

  lemma Allocate(heap: Heap, roots: seq<Ptr>, held: seq<Ptr>, lists: seq<seq<Ptr>>, place: Places, t: nat, a: Ptr,
                 node: Node)
    requires Owned(heap, roots, held, lists, place)
    requires t < |held| && held[t] == NULL && a != NULL && a !in heap
    ensures Owned(heap[a := node], roots, held[t := a], lists, place[a := Held(t)])
  {
    hide ListOk;
    OwnedKnown(heap, roots, held, lists, place, t);
    forall l | 0 <= l < |lists|
      ensures ListOk(heap[a := node], place[a := Held(t)], l, lists[l])
    { ListKept(heap, heap[a := node], place, place[a := Held(t)], l, lists[l]); }
  }

  /** Any store to a node in hand. */
  lemma WriteHeld(heap: Heap, roots: seq<Ptr>, held: seq<Ptr>, lists: seq<seq<Ptr>>, place: Places, t: nat, node: Node)
    requires Owned(heap, roots, held, lists, place)
    requires t < |held| && held[t] != NULL
    ensures held[t] in heap
    ensures Owned(heap[held[t] := node], roots, held, lists, place)
  {
    hide ListOk;
    OwnedKnown(heap, roots, held, lists, place, t);
    forall l | 0 <= l < |lists|
      ensures ListOk(heap[held[t] := node], place, l, lists[l])
    { ListKept(heap, heap[held[t] := node], place, place, l, lists[l]); }
  }

  lemma ListPushed(heap: Heap, place: Places, l: nat, list: seq<Ptr>, a: Ptr)
    requires ListOk(heap, place, l, list) && a in heap && a !in list && heap[a].next == Top(list)
    ensures ListOk(heap, place[a := InList(l, |list|)], l, list + [a])
  {
  }

  /** A CAS that makes the node in hand the new root of list l. */
  lemma Publish(heap: Heap, roots: seq<Ptr>, held: seq<Ptr>, lists: seq<seq<Ptr>>, place: Places, t: nat, l: nat)
    requires Owned(heap, roots, held, lists, place)
    requires t < |held| && held[t] != NULL && l < |lists|
    requires held[t] in heap && heap[held[t]].next == roots[l]
    ensures Owned(heap, roots[l := held[t]], held[t := NULL], lists[l := lists[l] + [held[t]]],
                  place[held[t] := InList(l, |lists[l]|)])
  {
    hide ListOk;
    OwnedKnown(heap, roots, held, lists, place, t);
    var lists' := lists[l := lists[l] + [held[t]]];
    var place' := place[held[t] := InList(l, |lists[l]|)];
    forall m | 0 <= m < |lists'|
      ensures ListOk(heap, place', m, lists'[m])
    {
      if m == l {
        ListPushed(heap, place, l, lists[l], held[t]);
      } else {
        ListKept(heap, heap, place, place', m, lists[m]);
      }
    }
  }

  lemma TopCell(heap: Heap, place: Places, l: nat, list: seq<Ptr>)
    requires ListOk(heap, place, l, list) && list != []
    ensures Top(list) in heap && place[Top(list)] == InList(l, |list| - 1)
    ensures heap[Top(list)].next == Top(list[..|list| - 1])
  {
    assert |list| == 1 ==> heap[list[0]].next == NULL;
  }

  /** List l is still in place when a node outside its first k cells moves. */
  lemma KeepPrefix(heap: Heap, place: Places, l: nat, list: seq<Ptr>, k: nat, a: Ptr, p: Place)
    requires ListOk(heap, place, l, list) && k <= |list| && a in place
    requires place[a].InList? && place[a].list == l ==> k <= place[a].depth
    ensures ListOk(heap, place[a := p], l, list[..k])
  {
    forall d | 0 <= d < k
      ensures list[d] != a
    {
    }
  }

  /** Taking the top of list l into the hand. */
  lemma Unpublish(heap: Heap, roots: seq<Ptr>, held: seq<Ptr>, lists: seq<seq<Ptr>>, place: Places, t: nat, l: nat)
    requires Owned(heap, roots, held, lists, place)
    requires t < |held| && held[t] == NULL && l < |lists| && roots[l] != NULL
    ensures lists[l] != [] && roots[l] in heap && place[roots[l]] == InList(l, |lists[l]| - 1)
    ensures Owned(heap, roots[l := heap[roots[l]].next], held[t := roots[l]], lists[l := lists[l][..|lists[l]| - 1]],
                  place[roots[l] := Held(t)])
  {
    hide ListOk;
    TopCell(heap, place, l, lists[l]);
    var a, k := roots[l], |lists[l]| - 1;
    var lists' := lists[l := lists[l][..k]];
    var place' := place[a := Held(t)];
    forall m | 0 <= m < |lists'|
      ensures ListOk(heap, place', m, lists'[m])
    {
      KeepPrefix(heap, place, m, lists[m], |lists'[m]|, a, Held(t));
      assert lists[m][..|lists'[m]|] == lists'[m];
    }
    forall b | b in place'
      ensures NodeOk(lists', held[t := a], b, place'[b])
    {
      assert NodeOk(lists, held, b, place[b]);
    }
  }

  function Moved(place: Places, from: nat, to: nat): Places {
    map a | a in place :: if place[a].InList? && place[a].list == from then InList(to, place[a].depth) else place[a]
  }

  lemma MovedList(heap: Heap, place: Places, from: nat, to: nat, m: nat, list: seq<Ptr>)
    requires ListOk(heap, place, if m == to then from else m, list) && m != from && from != to
    ensures ListOk(heap, Moved(place, from, to), m, list)
  {
  }

  lemma MovedNode(lists: seq<seq<Ptr>>, held: seq<Ptr>, from: nat, to: nat, place: Places, a: Ptr)
    requires from < |lists| && to < |lists| && from != to && lists[to] == []
    requires a in place && NodeOk(lists, held, a, place[a])
    ensures NodeOk(lists[to := lists[from]][from := []], held, a, Moved(place, from, to)[a])
  {
  }

  /** The atomic exchange that takes a whole list. */
  lemma TakeAll(heap: Heap, roots: seq<Ptr>, held: seq<Ptr>, lists: seq<seq<Ptr>>, place: Places, from: nat, to: nat)
    requires Owned(heap, roots, held, lists, place)
    requires from < |lists| && to < |lists| && from != to && roots[to] == NULL
    ensures Owned(heap, roots[to := roots[from]][from := NULL], held, lists[to := lists[from]][from := []],
                  Moved(place, from, to))
  {
    EmptyList(heap, place, to, lists[to]);
    hide ListOk, NodeOk;
    var lists', place' := lists[to := lists[from]][from := []], Moved(place, from, to);
    EmptyOk(heap, place', from);
    forall m | 0 <= m < |lists'| && m != from
      ensures ListOk(heap, place', m, lists'[m])
    { MovedList(heap, place, from, to, m, lists'[m]); }
    forall a | a in place'
      ensures NodeOk(lists', held, a, place'[a])
    { MovedNode(lists, held, from, to, place, a); }
  }

  lemma EmptyOk(heap: Heap, place: Places, l: nat)
    ensures ListOk(heap, place, l, [])
  {
  }

  lemma EmptyList(heap: Heap, place: Places, l: nat, list: seq<Ptr>)
    requires ListOk(heap, place, l, list) && NULL !in heap
    ensures Top(list) == NULL ==> list == []
  {
  }

  lemma Release(heap: Heap, roots: seq<Ptr>, held: seq<Ptr>, lists: seq<seq<Ptr>>, place: Places, t: nat)
    requires Owned(heap, roots, held, lists, place)
    requires t < |held| && held[t] != NULL
    ensures held[t] in heap
    ensures Owned(heap - {held[t]}, roots, held[t := NULL], lists, place - {held[t]})
  {
    hide ListOk;
    OwnedKnown(heap, roots, held, lists, place, t);
    forall l | 0 <= l < |lists|
      ensures ListOk(heap - {held[t]}, place - {held[t]}, l, lists[l])
    { ListKept(heap, heap - {held[t]}, place, place - {held[t]}, l, lists[l]); }
  }
}
