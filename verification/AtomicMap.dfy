/** The specification of the skip list: a map whose operations take effect at one moment. */
module AtomicMap {
  import opened ListMachine

  datatype Status = Ready | Called(op: Op) | Finished(result: Result)

  datatype Atomic = Atomic(contents: map<int, int>, status: seq<Status>)

  /** What a client sees of a step. */
  datatype Visible = Invoke(op: Op) | Respond(result: Result) | Hidden

  function AtomicInit(threads: nat): Atomic {
    Atomic(map[], seq(threads, _ => Ready))
  }

  function Effect(contents: map<int, int>, op: Op): (map<int, int>, Result) {
    match op
    case Insert(key, value) => (contents[key := value], Done)
    case Remove(key) => (contents - {key}, Done)
    case Search(key) => (contents, if key in contents then Found(contents[key]) else Missing)
  }

  predicate Commits(a: Atomic, a': Atomic, t: nat) {
    && t < |a.status| && a.status[t].Called?
    && var (contents, result) := Effect(a.contents, a.status[t].op);
       a' == Atomic(contents, a.status[t := Finished(result)])
  }

  predicate AtomicStep(a: Atomic, a': Atomic, t: nat, v: Visible) {
    && t < |a.status|
    && match v
       case Invoke(op) => a.status[t].Ready? && a' == a.(status := a.status[t := Called(op)])
       case Respond(r) => a.status[t] == Finished(r) && a' == a.(status := a.status[t := Ready])
       case Hidden => a' == a || Commits(a, a', t)
  }

  /** Step i is made by thread `trace[i].0` and shows `trace[i].1`. */
  ghost predicate IsAtomicRun(atoms: seq<Atomic>, trace: seq<(nat, Visible)>, threads: nat) {
    && |atoms| == |trace| + 1
    && atoms[0] == AtomicInit(threads)
    && forall i :: 0 <= i < |trace| ==> AtomicStep(atoms[i], atoms[i + 1], trace[i].0, trace[i].1)
  }
}
