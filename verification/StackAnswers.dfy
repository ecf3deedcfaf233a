/** What `stack_pop` answers, in terms of the pushes and pops that took effect before it. */
module StackAnswers {
  import opened StackMachine
  import opened AtomicStack
  import opened StackLaw
  import L = StackLinearizability

  /** The operations that take effect before step i leave no value for a pop. */
  ghost predicate AllTaken(atoms: seq<Atomic>, trace: seq<(nat, Visible)>, i: nat)
    requires |atoms| == |trace| + 1 && i <= |trace|
  {
    Pushes(atoms, trace, 0, i) == Takes(atoms, trace, 0, i)
  }

  /** At step i the pop of thread t takes effect: it finds nothing, or takes this value, the latest not taken. */
  ghost predicate Pops(atoms: seq<Atomic>, trace: seq<(nat, Visible)>, t: nat, i: nat, found: bool, value: nat)
    requires |atoms| == |trace| + 1 && i < |trace|
  {
    && trace[i].0 == t && TakesEffectAt(atoms, trace, i) && CalledAt(atoms, trace, i) == Pop
    && (found <==> !AllTaken(atoms, trace, i))
    && (found ==> exists p :: LatestNotTaken(atoms, trace, p, i) && CalledAt(atoms, trace, p) == Push(value))
  }

  /** In every run, `stack_pop` fails exactly if all values pushed before it took effect had been taken, and
      otherwise hands out the latest value not taken; it takes effect between its call and its return. */
  lemma PopAnswers(states: seq<State>, events: seq<Event>, threads: nat, j: nat)
    requires IsRun(states, events, threads) && threads <= 64 && j < |events|
    requires Enabled(states[j], events[j]) && states[j].threads[events[j].thread].pc.PopReturn?
    ensures var th, t := states[j].threads[events[j].thread], events[j].thread;
      var atoms, trace := L.Atoms(states, events), L.Trace(states, events);
      exists k, i :: 0 <= k < i < j && trace[k] == (t, Invoke(Pop)) && Silent(trace, t, k + 1, j)
                  && Pops(atoms, trace, t, i, th.pc.found, th.out)
  {
    hide Step, Enabled, TakesEffectAt, LatestNotTaken, IsRun, L.Visibly, IsAtomicRun, Pushes, Takes;
    ReturnShown(states, events, threads, j);
    var th, t := states[j].threads[events[j].thread], events[j].thread;
    var atoms, trace := L.Atoms(states, events), L.Trace(states, events);
    L.Linearizable(states, events, threads);
    AnswersAreEffects(atoms, trace, threads, j);
    var k, i :| 0 <= k < i < j && Answered(atoms, trace, t, k, i, trace[j].1.result) && Silent(trace, t, k + 1, j);
    LastInFirstOut(atoms, trace, threads, i);
    EffectIsPop(atoms, trace, threads, t, k, i, th.pc.found, th.out);
  }

  lemma ReturnShown(states: seq<State>, events: seq<Event>, threads: nat, j: nat)
    requires IsRun(states, events, threads) && threads <= 64 && j < |events|
    requires Enabled(states[j], events[j]) && states[j].threads[events[j].thread].pc.PopReturn?
    ensures |states| == |events| + 1 && forall i :: 0 <= i < |events| ==> Enabled(states[i], events[i])
    ensures events[j].thread < |states[j].threads| == threads
    ensures var th := states[j].threads[events[j].thread];
      L.Trace(states, events)[j] == (events[j].thread, Respond(if th.pc.found then Popped(th.out) else Empty))
  {
    hide Step;
    L.RunKeepsInv(states, events, threads, j);
  }

  /** Only a pop answers like this. */
  lemma EffectIsPop(atoms: seq<Atomic>, trace: seq<(nat, Visible)>, threads: nat, t: nat, k: nat, i: nat, found: bool,
                    value: nat)
    requires IsAtomicRun(atoms, trace, threads) && k < i < |trace|
    requires Answered(atoms, trace, t, k, i, if found then Popped(value) else Empty)
    ensures CalledAt(atoms, trace, i) == Pop && Pops(atoms, trace, t, i, found, value)
  {
    hide Pushes, Takes, AtomicStep;
    LastInFirstOut(atoms, trace, threads, i);
    if found {
      var p :| LatestNotTaken(atoms, trace, p, i)
            && AnswerAt(atoms, trace, i) == Popped(CalledAt(atoms, trace, p).value);
      assert CalledAt(atoms, trace, p) == Push(value);
    }
  }
}
