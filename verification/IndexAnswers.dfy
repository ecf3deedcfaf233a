/** The answers of the skip list with all its levels, on any keys and with any number of threads: an insertion
    or a removal always answers `Done`, a search never does.
  */
module IndexAnswers {
  import opened IndexMachine
  import L = ListMachine

  /** What a thread is doing fits the operation it was called for. */
  predicate Fits(op: L.Op, pc: Pc) {
    match pc
    case FillLoad(goal, _, _) => GoalFits(op, goal)
    case FillNext(goal, _, _, _) => GoalFits(op, goal)
    case FillCas(goal, _, _, _, _) => GoalFits(op, goal)
    case Return(r) => op.Search? <==> r != L.Done
    case SearchRead(_) => op.Search?
    case Idle => true
    case _ => !op.Search?
  }

  predicate GoalFits(op: L.Op, goal: Goal) {
    goal.Locate? || !op.Search?
  }

  predicate Working(s: State, t: nat) {
    t < |s.threads| && !s.threads[t].pc.Idle?
  }

  lemma FitsStep(s: State, e: Event)
    requires Enabled(s, e) && Fits(s.threads[e.thread].op, s.threads[e.thread].pc)
    ensures e.thread < |Step(s, e).threads|
    ensures var th' := Step(s, e).threads[e.thread];
      && Fits(th'.op, th'.pc)
      && th'.op == if s.threads[e.thread].pc.Idle? then e.action.op else s.threads[e.thread].op
  {
  }

  lemma OthersAlone(s: State, e: Event, t: nat)
    requires Enabled(s, e) && e.thread != t < |s.threads|
    ensures |Step(s, e).threads| == |s.threads| && Step(s, e).threads[t] == s.threads[t]
  {
  }

  /** Thread t has been working since the call it made at step k. */
  lemma {:induction false} WorksOn(states: seq<State>, events: seq<Event>, threads: nat, t: nat, k: nat, j: nat)
    requires IsRun(states, events, threads) && k < j < |states| && events[k].thread == t
    requires t < |states[k].threads| && states[k].threads[t].pc.Idle?
    requires forall m :: k < m <= j ==> Working(states[m], t)
    ensures Working(states[j], t) && events[k].action.Call? && states[j].threads[t].op == events[k].action.op
    ensures Fits(states[j].threads[t].op, states[j].threads[t].pc)
    decreases j
  {
    hide Step, Fits, Enabled;
    assert Enabled(states[j - 1], events[j - 1]) && Working(states[j], t);
    if j == k + 1 {
      CallFits(states[k], events[k]);
      FitsStep(states[k], events[k]);
    } else {
      assert Working(states[j - 1], t);
      WorksOn(states, events, threads, t, k, j - 1);
      if events[j - 1].thread == t {
        FitsStep(states[j - 1], events[j - 1]);
      } else {
        OthersAlone(states[j - 1], events[j - 1], t);
      }
    }
  }

  lemma CallFits(s: State, e: Event)
    requires Enabled(s, e) && s.threads[e.thread].pc.Idle?
    ensures e.action.Call? && Fits(s.threads[e.thread].op, s.threads[e.thread].pc)
  {
  }

  /** Whatever the others do, on whatever keys: the answer to an insertion or a removal is `Done`, whether or
      not the key was there; that to a search is not. */
  lemma WritesAnswerDone(states: seq<State>, events: seq<Event>, threads: nat, t: nat, k: nat, j: nat)
    requires IsRun(states, events, threads) && k < j < |states| && events[k].thread == t
    requires t < |states[k].threads| && states[k].threads[t].pc.Idle?
    requires forall m :: k < m <= j ==> Working(states[m], t)
    requires Working(states[j], t) && states[j].threads[t].pc.Return?
    ensures events[k].action.Call?
    ensures !events[k].action.op.Search? <==> states[j].threads[t].pc.result == L.Done
  {
    hide Step, Enabled;
    assert Working(states[j], t);
    WorksOn(states, events, threads, t, k, j);
  }
}
