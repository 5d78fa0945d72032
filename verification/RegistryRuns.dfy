/** The root registry over any sequence of registrations, deletions and checks: each
  provider lives a life of its own, and leaves only when deleted or when found silent
  for more than five minutes. */
module RegistryRuns {
  import opened Collections
  import opened Wildcard
  import opened Registry

  datatype Op =
    | Registered(service: string, id: string, info: Provider)
    | Deleted(service: string, id: string)
    | Checked(probes: (string, string) -> Probe)

  /** What the handlers and the check do to the table. */
  ghost function Apply(m: Table, op: Op): Table {
    match op
    case Registered(service, id, info) => Put(m, service, id, info)
    case Deleted(service, id) => Without(m, service, id)
    case Checked(probes) => Walked(m, "*", Judged(probes))
  }

  ghost function RunOps(ops: seq<Op>): Table {
    if ops == [] then map[] else Apply(RunOps(ops[..|ops| - 1]), ops[|ops| - 1])
  }

  function Kept(v: Verdict): Option<Provider> {
    if v.Keep? then Some(v.info) else None
  }

  /** One provider of one service, looked at by itself. */
  function Fate(ops: seq<Op>, service: string, id: string): Option<Provider> {
    if ops == [] then None
    else
      var before, op := Fate(ops[..|ops| - 1], service, id), ops[|ops| - 1];
      match op
      case Registered(n, p, info) => if n == service && p == id then Some(info) else before
      case Deleted(n, p) => if n == service && p == id then None else before
      case Checked(probes) => if before.None? then None else Kept(Judge(before.value, probes(service, id)))
  }

  lemma CheckedEntry(m: Table, probes: (string, string) -> Probe, service: string, id: string)
    ensures var e := Entry(m, service, id);
            Entry(Walked(m, "*", Judged(probes)), service, id)
            == if e.None? then None else Kept(Judge(e.value, probes(service, id)))
  {
    StarMatchesAll(service);
  }

  /** What the table holds of a provider depends on nothing that happens to others. */
  lemma {:induction false} EachForItself(ops: seq<Op>, service: string, id: string)
    ensures Entry(RunOps(ops), service, id) == Fate(ops, service, id)
  {
    if ops != [] {
      var init, op := ops[..|ops| - 1], ops[|ops| - 1];
      EachForItself(init, service, id);
      match op
      case Registered(_, _, _) =>
      case Deleted(_, _) =>
      case Checked(probes) => CheckedEntry(RunOps(init), probes, service, id);
    }
  }

  /** When the provider was last registered or answered a probe. */
  function LastSeen(ops: seq<Op>, service: string, id: string): Option<int> {
    if ops == [] then None
    else
      var before, op := LastSeen(ops[..|ops| - 1], service, id), ops[|ops| - 1];
      match op
      case Registered(n, p, info) => if n == service && p == id then Some(info.timeStamp) else before
      case Deleted(_, _) => before
      case Checked(probes) =>
        if probes(service, id).ok && Fate(ops[..|ops| - 1], service, id).Some? then Some(probes(service, id).now)
        else before
  }

  lemma {:induction false} StampIsLastSeen(ops: seq<Op>, service: string, id: string)
    requires Fate(ops, service, id).Some?
    ensures LastSeen(ops, service, id) == Some(Fate(ops, service, id).value.timeStamp)
  {
    var init, op := ops[..|ops| - 1], ops[|ops| - 1];
    if !(op.Registered? && op.service == service && op.id == id) {
      StampIsLastSeen(init, service, id);
    }
  }

  /** A registered provider is still in the table after the next operation unless that
      deletes it or is a check that finds it silent more than five minutes after it was
      last registered or reached; and in those cases it is not. */
  lemma LeavesOnlyWhenSilent(ops: seq<Op>, op: Op, service: string, id: string)
    requires Entry(RunOps(ops), service, id).Some?
    ensures LastSeen(ops, service, id).Some?
    ensures Entry(RunOps(ops + [op]), service, id).None? <==>
              || (op.Deleted? && op.service == service && op.id == id)
              || (op.Checked? && !op.probes(service, id).ok
                  && op.probes(service, id).now > LastSeen(ops, service, id).value + FIVE_MINUTES)
  {
    EachForItself(ops, service, id);
    StampIsLastSeen(ops, service, id);
    EachForItself(ops + [op], service, id);
    assert (ops + [op])[..|ops|] == ops;
  }
}
