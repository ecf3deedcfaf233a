/** The specification of the stack: every operation takes effect at one moment. */
module AtomicStack {
  import opened StackMachine

  datatype Result = Pushed | Popped(value: nat) | Empty

  datatype Status = Ready | Called(op: Op) | Done(result: Result)

  /** `contents` from the bottom up. */
  datatype Atomic = Atomic(contents: seq<nat>, status: seq<Status>)

  /** What a client sees of a step. */
  datatype Visible = Invoke(op: Op) | Respond(result: Result) | Hidden

  function AtomicInit(threads: nat): Atomic {
    Atomic([], seq(threads, _ => Ready))
  }

  function Effect(contents: seq<nat>, op: Op): (seq<nat>, Result) {
    match op
    case Push(v) => (contents + [v], Pushed)
    case Pop =>
      if contents == [] then (contents, Empty)
      else (contents[..|contents| - 1], Popped(contents[|contents| - 1]))
  }

  predicate Commits(a: Atomic, a': Atomic, t: nat) {
    && t < |a.status| && a.status[t].Called?
    && var (contents, result) := Effect(a.contents, a.status[t].op);
       a' == Atomic(contents, a.status[t := Done(result)])
  }

  predicate AtomicStep(a: Atomic, a': Atomic, t: nat, v: Visible) {
    && t < |a.status|
    && match v
       case Invoke(op) => a.status[t].Ready? && a' == a.(status := a.status[t := Called(op)])
       case Respond(r) => a.status[t] == Done(r) && a' == a.(status := a.status[t := Ready])
       case Hidden => a' == a || Commits(a, a', t)
  }

  /** Step i is made by thread `trace[i].0` and shows `trace[i].1`. */
  ghost predicate IsAtomicRun(atoms: seq<Atomic>, trace: seq<(nat, Visible)>, threads: nat) {
    && |atoms| == |trace| + 1
    && atoms[0] == AtomicInit(threads)
    && forall i :: 0 <= i < |trace| ==> AtomicStep(atoms[i], atoms[i + 1], trace[i].0, trace[i].1)
  }
}
