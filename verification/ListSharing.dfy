/** What happens when threads share keys: exactly then two towers can come to hold one
    key, since the refill after a failed CAS does not look at the key again, and exactly
    then a tower can be retired while it is still linked.
  */
module ListSharing {
  import opened Refs
  import opened ListMemory
  import opened ListMachine
  import opened ListInvariant
  import opened ListHistory
  import opened ListOwnership
  import opened ListLinearizability

  /** Each operation is called by a thread that may use its key. */
  predicate Respects(users: int -> set<nat>, s: State, e: Event) {
    (e.action.Call? ==> e.thread in users(e.action.op.key)) && ComesDown(s, e)
  }

  ghost predicate IsUsersRun(users: int -> set<nat>, states: seq<State>, events: seq<Event>, threads: nat) {
    IsRun(states, events, threads) && forall i :: 0 <= i < |events| ==> Respects(users, states[i], events[i])
  }

  ghost predicate NoSharedKey(users: int -> set<nat>, threads: nat) {
    forall key, t: nat, u: nat :: t < threads && u < threads && t in users(key) && u in users(key) ==> t == u
  }

  /** No reachable state has two live towers with one key. */
  ghost predicate AlwaysUnique(users: int -> set<nat>, threads: nat) {
    forall states: seq<State>, events: seq<Event>, i: nat ::
      IsUsersRun(users, states, events, threads) && i < |states| ==> Unique(states[i].mem)
  }

  /** No reachable state has a retired tower that a walk from the header still meets. */
  ghost predicate AlwaysUnlinked(users: int -> set<nat>, threads: nat) {
    forall states: seq<State>, events: seq<Event>, i: nat ::
      IsUsersRun(users, states, events, threads) && i < |states| ==> RetiredOff(states[i])
  }

  // Without a shared key.

  ghost function OwnerOf(users: int -> set<nat>, threads: nat, key: int): nat {
    if exists t: nat :: t < threads && t in users(key) then
      var t: nat :| t < threads && t in users(key); t
    else 0
  }

  lemma UsersOwn(users: int -> set<nat>, states: seq<State>, events: seq<Event>, threads: nat)
    requires IsUsersRun(users, states, events, threads) && NoSharedKey(users, threads)
    ensures IsOwnedRun(key => OwnerOf(users, threads, key), states, events, threads)
  {
    forall i | 0 <= i < |events|
      ensures Disciplined(key => OwnerOf(users, threads, key), states[i], events[i])
    {
      RunKeepsInv(states, events, threads, i);
      assert Enabled(states[i], events[i]) && Respects(users, states[i], events[i]);
    }
  }

  lemma OwnedSuffices(users: int -> set<nat>, threads: nat)
    requires NoSharedKey(users, threads)
    ensures AlwaysUnique(users, threads) && AlwaysUnlinked(users, threads)
  {
    forall states: seq<State>, events: seq<Event>, i: nat | IsUsersRun(users, states, events, threads) && i < |states|
      ensures Unique(states[i].mem) && RetiredOff(states[i])
    {
      var owner := key => OwnerOf(users, threads, key);
      UsersOwn(users, states, events, threads);
      OwnedRunKeepsInv(owner, states, events, threads, i);
      RetiredAreOff(owner, states, events, threads, i);
    }
  }

  // With a shared key.

  ghost predicate CanReach(users: int -> set<nat>, threads: nat, s: State) {
    exists states: seq<State>, events: seq<Event> :: IsUsersRun(users, states, events, threads) && states[|events|] == s
  }

  lemma Then(users: int -> set<nat>, threads: nat, s: State, e: Event, s': State)
    requires CanReach(users, threads, s) && Enabled(s, e) && Respects(users, s, e) && s' == Step(s, e)
    ensures CanReach(users, threads, s')
  {
    var states: seq<State>, events: seq<Event> :| IsUsersRun(users, states, events, threads) && states[|events|] == s;
    var states', events' := states + [s'], events + [e];
    assert IsUsersRun(users, states', events', threads) && states'[|events'|] == s';
  }

  /** Who shares what. */
  datatype Pair = Pair(threads: nat, t: nat, u: nat, key: int)

  ghost predicate Shares(users: int -> set<nat>, p: Pair) {
    p.t < p.threads && p.u < p.threads && p.t != p.u && p.t in users(p.key) && p.u in users(p.key)
  }

  /** All but the two threads are idle. */
  function At(p: Pair, mem: Memory, a: Thread, b: Thread, retired: seq<Ref>): State
    requires p.t < p.threads && p.u < p.threads
  {
    State(mem, Init(p.threads).threads[p.t := a][p.u := b], retired)
  }

  /** A step of the first of the two. */
  lemma MoveT(users: int -> set<nat>, p: Pair, mem: Memory, a: Thread, b: Thread, retired: seq<Ref>, action: Action,
              mem': Memory, a': Thread, retired': seq<Ref>)
    requires Shares(users, p)
    requires var s := At(p, mem, a, b, retired); var e := Event(p.t, action);
      && CanReach(users, p.threads, s) && Enabled(s, e) && Respects(users, s, e)
      && Step(s, e) == State(mem', s.threads[p.t := a'], retired')
    ensures CanReach(users, p.threads, At(p, mem', a', b, retired'))
  {
    var s, s' := At(p, mem, a, b, retired), At(p, mem', a', b, retired');
    assert s.threads[p.t := a'] == s'.threads;
    Then(users, p.threads, s, Event(p.t, action), s');
  }

  /** A step of the second. */
  lemma MoveU(users: int -> set<nat>, p: Pair, mem: Memory, a: Thread, b: Thread, retired: seq<Ref>, action: Action,
              mem': Memory, b': Thread, retired': seq<Ref>)
    requires Shares(users, p)
    requires var s := At(p, mem, a, b, retired); var e := Event(p.u, action);
      && CanReach(users, p.threads, s) && Enabled(s, e) && Respects(users, s, e)
      && Step(s, e) == State(mem', s.threads[p.u := b'], retired')
    ensures CanReach(users, p.threads, At(p, mem', a, b', retired'))
  {
    var s, s' := At(p, mem, a, b, retired), At(p, mem', a, b', retired');
    assert s.threads[p.u := b'] == s'.threads;
    Then(users, p.threads, s, Event(p.u, action), s');
  }

  const IDLE := Thread(Idle, Search(0))

  function Header(next: Ref): Tower {
    Tower(0, 0, next, false, true, false)
  }

  /** The towers that the two insert. */
  function First(p: Pair, marked: bool): Tower {
    Tower(p.key, 1, NIL, marked, true, false)
  }

  function Second(p: Pair, next: Ref, linked: bool): Tower {
    Tower(p.key, 2, next, false, linked, false)
  }

  function DoT(p: Pair, pc: Pc): Thread {
    Thread(pc, Insert(p.key, 1))
  }

  function DoU(p: Pair, pc: Pc): Thread {
    Thread(pc, Insert(p.key, 2))
  }

  function Del(p: Pair, pc: Pc): Thread {
    Thread(pc, Remove(p.key))
  }

  /** The first has missed the key. */
  lemma OneMisses(users: int -> set<nat>, p: Pair)
    requires Shares(users, p)
    ensures CanReach(users, p.threads, At(p, [Header(NIL)], DoT(p, InsertAlloc(HEADER, NIL)), IDLE, []))
  {
    var mem := [Header(NIL)];
    var s0 := At(p, mem, IDLE, IDLE, []);
    assert s0.threads == Init(p.threads).threads;
    assert IsUsersRun(users, [s0], [], p.threads) && [s0][0] == s0;
    MoveT(users, p, mem, IDLE, IDLE, [], Call(Insert(p.key, 1)), mem, DoT(p, FillLoad(Locate, HEADER)), []);
    MoveT(users, p, mem, DoT(p, FillLoad(Locate, HEADER)), IDLE, [], Tau,
          mem, DoT(p, FillNext(Locate, HEADER, NIL)), []);
    MoveT(users, p, mem, DoT(p, FillNext(Locate, HEADER, NIL)), IDLE, [], Tau,
          mem, DoT(p, InsertAlloc(HEADER, NIL)), []);
  }

  /** Both have. */
  lemma BothMiss(users: int -> set<nat>, p: Pair)
    requires Shares(users, p)
    ensures CanReach(users, p.threads,
                     At(p, [Header(NIL)], DoT(p, InsertAlloc(HEADER, NIL)), DoU(p, InsertAlloc(HEADER, NIL)), []))
  {
    OneMisses(users, p);
    var mem, a := [Header(NIL)], DoT(p, InsertAlloc(HEADER, NIL));
    MoveU(users, p, mem, a, IDLE, [], Call(Insert(p.key, 2)), mem, DoU(p, FillLoad(Locate, HEADER)), []);
    MoveU(users, p, mem, a, DoU(p, FillLoad(Locate, HEADER)), [], Tau, mem, DoU(p, FillNext(Locate, HEADER, NIL)), []);
    MoveU(users, p, mem, a, DoU(p, FillNext(Locate, HEADER, NIL)), [], Tau, mem, DoU(p, InsertAlloc(HEADER, NIL)), []);
  }

  /** The first links its tower. */
  lemma OneLinks(users: int -> set<nat>, p: Pair)
    requires Shares(users, p)
    ensures CanReach(users, p.threads,
                     At(p, [Header(1), First(p, false)], DoT(p, IndexLink(1)), DoU(p, InsertAlloc(HEADER, NIL)), []))
  {
    BothMiss(users, p);
    var b, tower := DoU(p, InsertAlloc(HEADER, NIL)), Tower(p.key, 1, NIL, false, false, false);
    MoveT(users, p, [Header(NIL)], DoT(p, InsertAlloc(HEADER, NIL)), b, [], Tau,
          [Header(NIL), tower], DoT(p, InsertStore(1, HEADER, NIL)), []);
    assert SetNext([Header(NIL), tower], 1, NIL) == [Header(NIL), tower];
    MoveT(users, p, [Header(NIL), tower], DoT(p, InsertStore(1, HEADER, NIL)), b, [], Tau,
          [Header(NIL), tower], DoT(p, InsertCas(1, HEADER, NIL)), []);
    assert Link([Header(NIL), tower], HEADER, 1) == [Header(1), First(p, false)];
    MoveT(users, p, [Header(NIL), tower], DoT(p, InsertCas(1, HEADER, NIL)), b, [], Tau,
          [Header(1), First(p, false)], DoT(p, IndexLink(1)), []);
  }

  function Linked(p: Pair): Memory {
    [Header(1), First(p, false), Second(p, NIL, false)]
  }

  /** The second fails its CAS. */
  lemma OtherFails(users: int -> set<nat>, p: Pair)
    requires Shares(users, p)
    ensures CanReach(users, p.threads,
                     At(p, Linked(p), DoT(p, IndexLink(1)), DoU(p, FillLoad(Relocate(2), HEADER)), []))
  {
    OneLinks(users, p);
    var a, mem, mem' := DoT(p, IndexLink(1)), [Header(1), First(p, false)], Linked(p);
    MoveU(users, p, mem, a, DoU(p, InsertAlloc(HEADER, NIL)), [], Tau, mem', DoU(p, InsertStore(2, HEADER, NIL)), []);
    assert SetNext(mem', 2, NIL) == mem';
    MoveU(users, p, mem', a, DoU(p, InsertStore(2, HEADER, NIL)), [], Tau, mem', DoU(p, InsertCas(2, HEADER, NIL)), []);
    MoveU(users, p, mem', a, DoU(p, InsertCas(2, HEADER, NIL)), [], Tau,
          mem', DoU(p, FillLoad(Relocate(2), HEADER)), []);
  }

  function Ready2(p: Pair): Memory {
    [Header(1), First(p, false), Second(p, 1, false)]
  }

  /** It searches again, passes nothing and is about to link its tower in front of the first. */
  lemma OtherRefills(users: int -> set<nat>, p: Pair)
    requires Shares(users, p)
    ensures CanReach(users, p.threads, At(p, Ready2(p), DoT(p, IndexLink(1)), DoU(p, InsertCas(2, HEADER, 1)), []))
  {
    OtherFails(users, p);
    var a, mem := DoT(p, IndexLink(1)), Linked(p);
    MoveU(users, p, mem, a, DoU(p, FillLoad(Relocate(2), HEADER)), [], Tau, mem,
          DoU(p, FillNext(Relocate(2), HEADER, 1)), []);
    MoveU(users, p, mem, a, DoU(p, FillNext(Relocate(2), HEADER, 1)), [], Tau,
          mem, DoU(p, InsertStore(2, HEADER, 1)), []);
    assert SetNext(mem, 2, 1) == Ready2(p);
    MoveU(users, p, mem, a, DoU(p, InsertStore(2, HEADER, 1)), [], Tau, Ready2(p), DoU(p, InsertCas(2, HEADER, 1)), []);
  }

  function Doubled(p: Pair, marked: bool): Memory {
    [Header(2), First(p, marked), Second(p, 1, true)]
  }

  /** Two live towers with the same key. */
  lemma SameKeyTwice(users: int -> set<nat>, p: Pair)
    requires Shares(users, p)
    ensures exists s :: CanReach(users, p.threads, s) && Live(s.mem, 1, p.key) && Live(s.mem, 2, p.key)
  {
    OtherRefills(users, p);
    assert Link(Ready2(p), HEADER, 2) == Doubled(p, false);
    MoveU(users, p, Ready2(p), DoT(p, IndexLink(1)), DoU(p, InsertCas(2, HEADER, 1)), [], Tau,
          Doubled(p, false), DoU(p, IndexLink(2)), []);
    var s := At(p, Doubled(p, false), DoT(p, IndexLink(1)), DoU(p, IndexLink(2)), []);
    assert CanReach(users, p.threads, s) && Live(s.mem, 1, p.key) && Live(s.mem, 2, p.key);
  }

  /** Before that the first thread begins to remove the tower it has just inserted. */
  /** The first returns and calls the removal. */
  lemma RemoverCalls(users: int -> set<nat>, p: Pair)
    requires Shares(users, p)
    ensures CanReach(users, p.threads,
                     At(p, Ready2(p), Del(p, FillLoad(Locate, HEADER)), DoU(p, InsertCas(2, HEADER, 1)), []))
  {
    OtherRefills(users, p);
    var b, mem := DoU(p, InsertCas(2, HEADER, 1)), Ready2(p);
    MoveT(users, p, mem, DoT(p, IndexLink(1)), b, [], Tau, mem, DoT(p, Return(Done)), []);
    MoveT(users, p, mem, DoT(p, Return(Done)), b, [], Tau, mem, DoT(p, Idle), []);
    MoveT(users, p, mem, DoT(p, Idle), b, [], Call(Remove(p.key)), mem, Del(p, FillLoad(Locate, HEADER)), []);
  }

  lemma RemoverFinds(users: int -> set<nat>, p: Pair)
    requires Shares(users, p)
    ensures CanReach(users, p.threads, At(p, Ready2(p), Del(p, IndexMark(1)), DoU(p, InsertCas(2, HEADER, 1)), []))
  {
    RemoverCalls(users, p);
    var b, mem := DoU(p, InsertCas(2, HEADER, 1)), Ready2(p);
    MoveT(users, p, mem, Del(p, FillLoad(Locate, HEADER)), b, [], Tau, mem, Del(p, FillNext(Locate, HEADER, 1)), []);
    MoveT(users, p, mem, Del(p, FillNext(Locate, HEADER, 1)), b, [], Tau, mem, Del(p, IndexMark(1)), []);
  }

  /** It is about to mark the tower when the other is linked in front of it. */
  lemma OtherGetsAhead(users: int -> set<nat>, p: Pair)
    requires Shares(users, p)
    ensures CanReach(users, p.threads, At(p, Doubled(p, false), Del(p, MarkCas(1, NIL)), DoU(p, IndexLink(2)), []))
  {
    RemoverFinds(users, p);
    var b, mem := DoU(p, InsertCas(2, HEADER, 1)), Ready2(p);
    assert SetOpen(mem, 1, false) == mem;
    MoveT(users, p, mem, Del(p, IndexMark(1)), b, [], Tau, mem, Del(p, MarkLoad(1)), []);
    MoveT(users, p, mem, Del(p, MarkLoad(1)), b, [], Tau, mem, Del(p, MarkCas(1, NIL)), []);
    assert Link(mem, HEADER, 2) == Doubled(p, false);
    MoveU(users, p, mem, Del(p, MarkCas(1, NIL)), b, [], Tau, Doubled(p, false), DoU(p, IndexLink(2)), []);
  }

  lemma RemoverMarks(users: int -> set<nat>, p: Pair)
    requires Shares(users, p)
    ensures CanReach(users, p.threads,
                     At(p, Doubled(p, true), Del(p, FillLoad(Unlink(1), HEADER)), DoU(p, IndexLink(2)), []))
  {
    OtherGetsAhead(users, p);
    assert Mark(Doubled(p, false), 1) == Doubled(p, true);
    MoveT(users, p, Doubled(p, false), Del(p, MarkCas(1, NIL)), DoU(p, IndexLink(2)), [], Tau,
          Doubled(p, true), Del(p, FillLoad(Unlink(1), HEADER)), []);
  }

  /** Its search stops at the other tower: what it retires is still linked. */
  lemma RetiredStillLinked(users: int -> set<nat>, p: Pair)
    requires Shares(users, p)
    ensures exists s :: CanReach(users, p.threads, s) && 1 in s.retired && OnWalk(s.mem, 1)
  {
    RemoverMarks(users, p);
    var b, mem := DoU(p, IndexLink(2)), Doubled(p, true);
    MoveT(users, p, mem, Del(p, FillLoad(Unlink(1), HEADER)), b, [], Tau,
          mem, Del(p, FillNext(Unlink(1), HEADER, 2)), []);
    MoveT(users, p, mem, Del(p, FillNext(Unlink(1), HEADER, 2)), b, [], Tau, mem, Del(p, RetireTower(1)), []);
    MoveT(users, p, mem, Del(p, RetireTower(1)), b, [], Tau, mem, Del(p, Return(Done)), [1]);
    var s := At(p, mem, Del(p, Return(Done)), b, [1]);
    assert ReachIn(mem, 1, 1, 0) && ReachIn(mem, 2, 1, 1) && ReachIn(mem, HEADER, 1, 2);
    assert CanReach(users, p.threads, s) && 1 in s.retired && OnWalk(s.mem, 1);
  }

  // Exactly then.

  lemma SharedPair(users: int -> set<nat>, threads: nat) returns (p: Pair)
    requires !NoSharedKey(users, threads)
    ensures p.threads == threads && Shares(users, p)
  {
    var key, t: nat, u: nat :| t < threads && u < threads && t in users(key) && u in users(key) && t != u;
    p := Pair(threads, t, u, key);
  }

  /** The keys of the list stay unique in all runs if and only if no two threads use one key. */
  lemma UniqueExactly(users: int -> set<nat>, threads: nat)
    ensures AlwaysUnique(users, threads) <==> NoSharedKey(users, threads)
  {
    if NoSharedKey(users, threads) {
      OwnedSuffices(users, threads);
    } else {
      var p := SharedPair(users, threads);
      SameKeyTwice(users, p);
      var s :| CanReach(users, threads, s) && Live(s.mem, 1, p.key) && Live(s.mem, 2, p.key);
      var states: seq<State>, events: seq<Event> :| IsUsersRun(users, states, events, threads) && states[|events|] == s;
      assert !Unique(states[|events|].mem);
    }
  }

  /** Retired towers are unlinked in all runs if and only if no two threads use one key. */
  lemma UnlinkedExactly(users: int -> set<nat>, threads: nat)
    ensures AlwaysUnlinked(users, threads) <==> NoSharedKey(users, threads)
  {
    if NoSharedKey(users, threads) {
      OwnedSuffices(users, threads);
    } else {
      var p := SharedPair(users, threads);
      RetiredStillLinked(users, p);
      var s :| CanReach(users, threads, s) && 1 in s.retired && OnWalk(s.mem, 1);
      var states: seq<State>, events: seq<Event> :| IsUsersRun(users, states, events, threads) && states[|events|] == s;
      assert !RetiredOff(states[|events|]);
    }
  }
}
