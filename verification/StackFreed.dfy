/** Nodes really are freed: one thread pushes and pops 128 values, and the reclaim pass of the
    128th pop frees all 128 nodes.
  */
module StackFreed {
  import opened StackMachine
  import opened StackLimits

  /** Nodes 1 to n, each leading to the one before. */
  function Nodes(n: nat): (nodes: map<Ptr, Node>)
    ensures forall a :: a in nodes <==> 1 <= a <= n
    ensures forall a :: a in nodes ==> nodes[a] == Node(a - 1, 0)
  {
    if n == 0 then map[] else Nodes(n - 1)[n := Node(n - 1, 0)]
  }

  /** The thread owns slot 0, n nodes have been popped and wait to be freed, the counter says so. */
  function Popped(n: nat, counter: nat, pc: Pc): State {
    State(Nodes(n), NULL, n,
          seq(MAX_HAZARD_POINTERS, _ => NULL), seq(MAX_HAZARD_POINTERS, i => if i == 0 then 1 else 0), counter,
          [Thread(pc, 0, true, 0)], false)
  }

  function Last(states: seq<State>): State
    requires |states| > 0
  {
    states[|states| - 1]
  }

  /** One more step of the only thread. */
  lemma Go(states: seq<State>, events: seq<Event>, action: Action) returns (states': seq<State>, events': seq<Event>)
    requires IsRun(states, events, 1) && Enabled(Last(states), Event(0, action))
    ensures IsRun(states', events', 1) && states <= states' && Last(states') == Step(Last(states), Event(0, action))
  {
    Extend(states, events, 1, Event(0, action));
    states', events' := states + [Step(Last(states), Event(0, action))], events + [Event(0, action)];
  }

  /** A pop that finds nothing: from now on the thread owns slot 0. */
  lemma Begin() returns (states: seq<State>, events: seq<Event>)
    ensures IsRun(states, events, 1) && Last(states) == Popped(0, 0, Idle)
  {
    states, events := [Init(1)], [];
    states, events := Go(states, events, Call(Pop));
    states, events := Go(states, events, Tau);
    assert Last(states) == Popped(0, 0, PopLoad);
    states, events := EmptyPop(states, events);
  }

  lemma EmptyPop(states: seq<State>, events: seq<Event>) returns (states': seq<State>, events': seq<Event>)
    requires IsRun(states, events, 1) && Last(states) == Popped(0, 0, PopLoad)
    ensures IsRun(states', events', 1) && states <= states' && Last(states') == Popped(0, 0, Idle)
  {
    states', events' := Go(states, events, Tau);
    states', events' := Go(states', events', Tau);
    states', events' := Go(states', events', Tau);
    states', events' := Go(states', events', Tau);
    states', events' := Go(states', events', Tau);
    assert Last(states') == Popped(0, 0, Idle);
  }

  /** One node is on the stack. */
  function Pushed(n: nat, counter: nat, pc: Pc): State {
    Popped(n, counter, pc).(heap := Nodes(n)[n + 1 := Node(NULL, 0)], head := n + 1)
  }

  lemma MakeNode(states: seq<State>, events: seq<Event>, n: nat) returns (states': seq<State>, events': seq<Event>)
    requires IsRun(states, events, 1) && Last(states) == Popped(n, n, Idle)
    ensures IsRun(states', events', 1) && states <= states'
    ensures Last(states') == Pushed(n, n, PushLoad(n + 1)).(head := NULL)
  {
    hide IsRun;
    states', events' := Go(states, events, Call(Push(0)));
    assert Last(states') == Popped(n, n, PushAlloc(0));
    states', events' := Go(states', events', Malloc(n + 1, Node(NULL, 0)));
    assert Last(states') == Pushed(n, n, PushData(0, n + 1)).(head := NULL);
    states', events' := Go(states', events', Tau);
    assert Last(states') == Pushed(n, n, PushLoad(n + 1)).(head := NULL);
  }

  lemma PushOne(states: seq<State>, events: seq<Event>, n: nat) returns (states': seq<State>, events': seq<Event>)
    requires IsRun(states, events, 1) && Last(states) == Popped(n, n, Idle)
    ensures IsRun(states', events', 1) && states <= states' && Last(states') == Pushed(n, n, Idle)
  {
    hide IsRun;
    states', events' := MakeNode(states, events, n);
    states', events' := Go(states', events', Tau);
    states', events' := Go(states', events', Tau);
    states', events' := Go(states', events', Tau);
    states', events' := Go(states', events', Tau);
    assert Last(states') == Pushed(n, n, Idle);
  }

  /** Up to where the node has been validated. */
  lemma FindOne(states: seq<State>, events: seq<Event>, n: nat) returns (states': seq<State>, events': seq<Event>)
    requires IsRun(states, events, 1) && Last(states) == Pushed(n, n, Idle)
    ensures IsRun(states', events', 1) && states <= states'
    ensures Last(states') == Pushed(n, n, PopNext(n + 1)).(hazards := seq(MAX_HAZARD_POINTERS, _ => NULL)[0 := n + 1])
  {
    hide IsRun;
    states', events' := Go(states, events, Call(Pop));
    states', events' := Go(states', events', Tau);
    assert Last(states') == Pushed(n, n, PopPublish(n + 1));
    states', events' := Go(states', events', Tau);
    states', events' := Go(states', events', Tau);
  }

  /** Up to where the value has been read. */
  lemma PopOne(states: seq<State>, events: seq<Event>, n: nat) returns (states': seq<State>, events': seq<Event>)
    requires IsRun(states, events, 1) && Last(states) == Pushed(n, n, Idle)
    ensures IsRun(states', events', 1) && states <= states'
    ensures Last(states') == Pushed(n, n, RetireLoad(n + 1, FromPop)).(head := NULL)
  {
    hide IsRun;
    states', events' := FindOne(states, events, n);
    states', events' := Go(states', events', Tau);
    states', events' := Go(states', events', Tau);
    states', events' := Go(states', events', Tau);
    assert Last(states') == Pushed(n, n, PopData(n + 1)).(head := NULL);
    states', events' := Go(states', events', Tau);
    assert Last(states') == Pushed(n, n, RetireLoad(n + 1, FromPop)).(head := NULL);
  }

  lemma RetireIt(states: seq<State>, events: seq<Event>, n: nat) returns (states': seq<State>, events': seq<Event>)
    requires IsRun(states, events, 1) && Last(states) == Pushed(n, n, RetireLoad(n + 1, FromPop)).(head := NULL)
    ensures IsRun(states', events', 1) && states <= states' && Last(states') == Popped(n + 1, n, Count)
  {
    hide IsRun;
    states', events' := Go(states, events, Tau);
    states', events' := Go(states', events', Tau);
    states', events' := Go(states', events', Tau);
    assert Last(states') == Popped(n + 1, n, Count);
  }

  /** A push and a pop up to where the pop counts. */
  lemma Round(states: seq<State>, events: seq<Event>, n: nat) returns (states': seq<State>, events': seq<Event>)
    requires IsRun(states, events, 1) && Last(states) == Popped(n, n, Idle)
    ensures IsRun(states', events', 1) && states <= states' && Last(states') == Popped(n + 1, n, Count)
  {
    hide IsRun;
    states', events' := PushOne(states, events, n);
    states', events' := PopOne(states', events', n);
    states', events' := RetireIt(states', events', n);
  }

  /** Below 128 pops nothing is freed. */
  lemma {:induction false} Rounds(n: nat) returns (states: seq<State>, events: seq<Event>)
    requires n < 128
    ensures IsRun(states, events, 1) && Last(states) == Popped(n, n, Idle)
  {
    if n == 0 {
      states, events := Begin();
    } else {
      states, events := Rounds(n - 1);
      states, events := Round(states, events, n - 1);
      states, events := Go(states, events, Tau);
      assert Last(states) == Popped(n, n, PopReturn(true));
      states, events := Go(states, events, Tau);
      assert Last(states) == Popped(n, n, Idle);
    }
  }

  /** Nodes 1 to n are left of the list that the pass has taken. */
  function Passing(n: nat, pc: Pc): State {
    Popped(n, 0, pc).(toReclaim := NULL)
  }

  lemma {:induction false} LookAll(states: seq<State>, events: seq<Event>, n: nat, slots: nat)
    returns (states': seq<State>, events': seq<Event>)
    requires IsRun(states, events, 1) && n > 0 && slots <= 64 && Last(states) == Passing(n, PassScan(n, n - 1, 0))
    ensures IsRun(states', events', 1) && states <= states' && Last(states') == Passing(n, PassScan(n, n - 1, slots))
  {
    hide IsRun;
    if slots == 0 {
      states', events' := states, events;
    } else {
      states', events' := LookAll(states, events, n, slots - 1);
      states', events' := Go(states', events', Tau);
      assert Last(states') == Passing(n, PassScan(n, n - 1, slots));
    }
  }

  lemma {:induction false} FreeAll(states: seq<State>, events: seq<Event>, n: nat)
    returns (states': seq<State>, events': seq<Event>)
    requires IsRun(states, events, 1) && n > 0 && Last(states) == Passing(n, PassNext(n))
    ensures IsRun(states', events', 1) && states <= states' && Last(states') == Passing(0, PopReturn(true))
    decreases n
  {
    hide IsRun;
    states', events' := Go(states, events, Tau);
    assert Last(states') == Passing(n, PassScan(n, n - 1, 0));
    states', events' := LookAll(states', events', n, 64);
    states', events' := Go(states', events', Tau);
    states', events' := Go(states', events', Tau);
    assert Nodes(n) - {n} == Nodes(n - 1);
    if n == 1 {
      assert Last(states') == Passing(0, PopReturn(true));
    } else {
      assert Last(states') == Passing(n - 1, PassNext(n - 1));
      states', events' := FreeAll(states', events', n - 1);
    }
  }

  /** After 128 pops, all 128 nodes still allocated, comes the pass; after it none is. */
  lemma NodesAreFreed() returns (states: seq<State>, events: seq<Event>, i: nat)
    ensures IsRun(states, events, 1) && i < |states|
    ensures |states[i].heap| == 128 && states[i].head == NULL && !states[i].fault
    ensures Last(states) == Passing(0, Idle) && Last(states).heap == map[]
  {
    hide IsRun, Step, Enabled;
    states, events := Rounds(127);
    states, events := Round(states, events, 127);
    i := |states| - 1;
    var before := states;
    states, events := StartPass(states, events);
    states, events := FreeAll(states, events, 128);
    states, events := Finish(states, events);
    assert before <= states && states[i] == Last(before);
    CountNodes(128);
  }

  /** The counter has reached twice the number of slots. */
  lemma StartPass(states: seq<State>, events: seq<Event>) returns (states': seq<State>, events': seq<Event>)
    requires IsRun(states, events, 1) && Last(states) == Popped(128, 127, Count)
    ensures IsRun(states', events', 1) && states <= states' && Last(states') == Passing(128, PassNext(128))
  {
    hide IsRun;
    states', events' := Go(states, events, Tau);
    assert Last(states') == Popped(128, 128, Reset);
    states', events' := Go(states', events', Tau);
    assert Last(states') == Popped(128, 0, PassTake);
    states', events' := Go(states', events', Tau);
    assert Last(states') == Passing(128, PassNext(128));
  }

  lemma Finish(states: seq<State>, events: seq<Event>) returns (states': seq<State>, events': seq<Event>)
    requires IsRun(states, events, 1) && Last(states) == Passing(0, PopReturn(true))
    ensures IsRun(states', events', 1) && states <= states' && Last(states') == Passing(0, Idle)
  {
    hide IsRun;
    states', events' := Go(states, events, Tau);
    assert Last(states') == Passing(0, Idle);
  }

  lemma {:induction false} CountNodes(n: nat)
    ensures |Nodes(n)| == n
  {
    if n > 0 { CountNodes(n - 1); }
  }
}
