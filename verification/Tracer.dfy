/** The message tracing sessions of messagetracing_svc.go, handlers one at a time.

  The tracer keeps at most `cap` sessions in a list, most recently touched first, and
  a map from tracing id to list element.  `Touch` and `Read` say what a record and a
  read do to the list of sessions; the class is the code. */
module Tracer {
  import opened Collections

  /** A tracing id; readers use uuid 0 to ask for everything. */
  datatype Id = Id(uuid: nat, seqNum: nat)

  type Record = nat

  datatype Session = Session(id: Id, records: seq<Record>)

  // ----- What an operation does to the sessions -----

  function Find(c: seq<Session>, id: Id, from: nat := 0): (i: nat)
    requires from <= |c|
    ensures from <= i <= |c| && (i < |c| ==> c[i].id == id)
    ensures forall j :: from <= j < i ==> c[j].id != id
    decreases |c| - from
  {
    if from == |c| || c[from].id == id then from else Find(c, id, from + 1)
  }

  predicate Has(c: seq<Session>, id: Id) {
    Find(c, id) < |c|
  }

  function Without(c: seq<Session>, i: nat): seq<Session>
    requires i < |c|
  {
    c[..i] + c[i + 1..]
  }

  /** The record joins its session, which moves to the front; a new session pushes the
      last one out when the list is full. */
  function Touch(c: seq<Session>, cap: nat, id: Id, r: Record): seq<Session> {
    var i := Find(c, id);
    if i < |c| then [Session(id, c[i].records + [r])] + Without(c, i)
    else if |c| >= cap && c != [] then [Session(id, [r])] + c[..|c| - 1]
    else [Session(id, [r])] + c
  }

  function Evicted(c: seq<Session>, cap: nat, id: Id): seq<Session> {
    if !Has(c, id) && |c| >= cap && c != [] then [c[|c| - 1]] else []
  }

  /** Sessions a read takes out of the list: all of them for uuid 0. */
  function Taken(c: seq<Session>, id: Id): seq<Session> {
    if id.uuid == 0 then c else if Has(c, id) then [c[Find(c, id)]] else []
  }

  function Left(c: seq<Session>, id: Id): seq<Session> {
    if id.uuid == 0 then [] else if Has(c, id) then Without(c, Find(c, id)) else c
  }

  function Records(ss: seq<Session>): seq<Record> {
    if ss == [] then [] else ss[0].records + Records(ss[1..])
  }

  // ----- Runs -----

  datatype Op = Trace(id: Id, r: Record) | Read(id: Id)

  /** Sessions that left the list, and whether a reader got them. */
  datatype Gone = Gone(s: Session, returned: bool)

  datatype State = State(c: seq<Session>, gone: seq<Gone>)

  function Mark(ss: seq<Session>, returned: bool): seq<Gone> {
    if ss == [] then [] else Mark(ss[..|ss| - 1], returned) + [Gone(ss[|ss| - 1], returned)]
  }

  function Step(cap: nat, s: State, op: Op): State {
    match op
    case Trace(id, r) => State(Touch(s.c, cap, id, r), s.gone + Mark(Evicted(s.c, cap, id), false))
    case Read(id) => State(Left(s.c, id), s.gone + Mark(Taken(s.c, id), true))
  }

  function Run(cap: nat, ops: seq<Op>): State {
    if ops == [] then State([], []) else Step(cap, Run(cap, ops[..|ops| - 1]), ops[|ops| - 1])
  }

  ghost predicate Distinct(c: seq<Session>) {
    forall i, j :: 0 <= i < j < |c| ==> c[i].id != c[j].id
  }

  lemma FrontDistinct(s: Session, c: seq<Session>)
    requires Distinct(c) && forall k :: 0 <= k < |c| ==> c[k].id != s.id
    ensures Distinct([s] + c)
  {
  }

  lemma TouchKeepsDistinct(c: seq<Session>, cap: nat, id: Id, r: Record)
    requires Distinct(c)
    ensures Distinct(Touch(c, cap, id, r))
    ensures cap >= 1 && |c| <= cap ==> |Touch(c, cap, id, r)| <= cap
  {
    var i := Find(c, id);
    if i < |c| {
      WithoutDistinct(c, i);
      forall k | 0 <= k < |c| - 1 ensures Without(c, i)[k].id != id {
        WithoutIs(c, i, k);
      }
      FrontDistinct(Session(id, c[i].records + [r]), Without(c, i));
    } else if |c| >= cap && c != [] {
      FrontDistinct(Session(id, [r]), c[..|c| - 1]);
    } else {
      FrontDistinct(Session(id, [r]), c);
    }
  }

  lemma {:induction false} AlwaysDistinct(cap: nat, ops: seq<Op>)
    requires cap >= 1
    ensures Distinct(Run(cap, ops).c) && |Run(cap, ops).c| <= cap
  {
    if ops != [] {
      AlwaysDistinct(cap, ops[..|ops| - 1]);
      var s, op := Run(cap, ops[..|ops| - 1]), ops[|ops| - 1];
      if op.Trace? {
        TouchKeepsDistinct(s.c, cap, op.id, op.r);
      }
    }
  }

  // ----- Conservation -----

  /** The records accepted for an id, in order. */
  function Accepted(ops: seq<Op>, id: Id): seq<Record> {
    if ops == [] then []
    else
      var op := ops[|ops| - 1];
      if op.Trace? && op.id == id then Accepted(ops[..|ops| - 1], id) + [op.r] else Accepted(ops[..|ops| - 1], id)
  }

  function GoneFor(gone: seq<Gone>, id: Id): seq<Record> {
    if gone == [] then []
    else
      var g := gone[|gone| - 1];
      if g.s.id == id then GoneFor(gone[..|gone| - 1], id) + g.s.records else GoneFor(gone[..|gone| - 1], id)
  }

  function Held(c: seq<Session>, id: Id): seq<Record> {
    if Has(c, id) then c[Find(c, id)].records else []
  }

  lemma GoneAppend(gone: seq<Gone>, g: Gone, id: Id)
    ensures GoneFor(gone + [g], id) == if g.s.id == id then GoneFor(gone, id) + g.s.records else GoneFor(gone, id)
  {
    assert (gone + [g])[..|gone|] == gone;
  }

  lemma FindIs(c: seq<Session>, i: nat)
    requires Distinct(c) && i < |c|
    ensures Find(c, c[i].id) == i
  {
  }

  lemma TouchFront(c: seq<Session>, cap: nat, id: Id, r: Record)
    requires Distinct(c)
    ensures Held(Touch(c, cap, id, r), id) == Held(c, id) + [r]
  {
    assert Touch(c, cap, id, r)[0].id == id;
  }

  /** Where a session that is not the one touched, nor pushed out, comes to be. */
  lemma TouchMoves(c: seq<Session>, cap: nat, other: Id, r: Record, id: Id)
    requires Distinct(c) && Has(c, id) && other != id
    requires Has(c, other) || |c| < cap || c[|c| - 1].id != id
    ensures Find(Touch(c, cap, other, r), id) == if Find(c, other) < Find(c, id) then Find(c, id) else Find(c, id) + 1
    ensures Has(Touch(c, cap, other, r), id)
  {
    var t := Touch(c, cap, other, r);
    var j, i := Find(c, id), Find(c, other);
    TouchKeepsDistinct(c, cap, other, r);
    FindIs(t, if i < j then j else j + 1);
  }

  lemma TouchDrops(c: seq<Session>, cap: nat, id: Id, r: Record)
    requires Distinct(c) && Evicted(c, cap, id) != [] && c[|c| - 1].id != id
    ensures var last := c[|c| - 1]; Held(Touch(c, cap, id, r), last.id) == [] && Held(c, last.id) == last.records
  {
    FindIs(c, |c| - 1);
  }

  lemma TouchSpares(c: seq<Session>, cap: nat, id: Id, r: Record, k: Id)
    requires Distinct(c) && k != id && (Evicted(c, cap, id) != [] ==> k != c[|c| - 1].id)
    ensures Held(Touch(c, cap, id, r), k) == Held(c, k)
  {
    if Has(c, k) {
      TouchMoves(c, cap, id, r, k);
    }
  }

  lemma TouchHolds(c: seq<Session>, cap: nat, id: Id, r: Record, k: Id)
    requires Distinct(c)
    ensures k == id ==> Held(Touch(c, cap, id, r), k) == Held(c, k) + [r]
    ensures k != id && (Evicted(c, cap, id) != [] ==> k != c[|c| - 1].id) ==>
            Held(Touch(c, cap, id, r), k) == Held(c, k)
    ensures k != id && Evicted(c, cap, id) != [] && k == c[|c| - 1].id ==>
              Held(Touch(c, cap, id, r), k) == [] && Held(c, k) == c[|c| - 1].records
  {
    if k == id {
      TouchFront(c, cap, id, r);
    } else if Evicted(c, cap, id) != [] && k == c[|c| - 1].id {
      TouchDrops(c, cap, id, r);
    } else {
      TouchSpares(c, cap, id, r, k);
    }
  }

  /** What a list without its last session holds. */
  lemma HeldInit(ss: seq<Session>, id: Id)
    requires Distinct(ss) && ss != []
    ensures var init, last := ss[..|ss| - 1], ss[|ss| - 1];
            && (last.id == id ==> Held(ss, id) == last.records && Held(init, id) == [])
            && (last.id != id ==> Held(ss, id) == Held(init, id))
  {
    var n := |ss| - 1;
    if ss[n].id == id {
      FindIs(ss, n);
      assert !Has(ss[..n], id);
    } else if Has(ss, id) {
      var i := Find(ss, id);
      assert ss[..n][i].id == id;
      FindIs(ss[..n], i);
    } else {
      assert !Has(ss[..n], id);
    }
  }

  lemma {:induction false} MarkAppend(gone: seq<Gone>, ss: seq<Session>, returned: bool, id: Id)
    requires Distinct(ss)
    ensures GoneFor(gone + Mark(ss, returned), id) == GoneFor(gone, id) + Held(ss, id)
  {
    if ss == [] {
      assert gone + Mark(ss, returned) == gone;
    } else {
      var init, last := ss[..|ss| - 1], ss[|ss| - 1];
      MarkAppend(gone, init, returned, id);
      Assoc(gone, Mark(init, returned), [Gone(last, returned)]);
      GoneAppend(gone + Mark(init, returned), Gone(last, returned), id);
      HeldInit(ss, id);
    }
  }

  lemma WithoutIs(c: seq<Session>, f: nat, i: nat)
    requires f < |c|
    ensures |Without(c, f)| == |c| - 1
    ensures i < |c| - 1 ==> Without(c, f)[i] == c[if i < f then i else i + 1]
  {
  }

  lemma WithoutDistinct(c: seq<Session>, f: nat)
    requires Distinct(c) && f < |c|
    ensures Distinct(Without(c, f)) && |Without(c, f)| == |c| - 1
  {
    var t := Without(c, f);
    forall i, j | 0 <= i < j < |t| ensures t[i].id != t[j].id {
      WithoutIs(c, f, i);
      WithoutIs(c, f, j);
    }
  }

  lemma WithoutHolds(c: seq<Session>, f: nat, k: Id)
    requires Distinct(c) && f < |c|
    ensures Held(Without(c, f), k) == if k == c[f].id then [] else Held(c, k)
  {
    var t := Without(c, f);
    WithoutDistinct(c, f);
    if Has(t, k) {
      var i := Find(t, k);
      WithoutIs(c, f, i);
      FindIs(c, if i < f then i else i + 1);
    }
    if Has(c, k) && k != c[f].id {
      var j := Find(c, k);
      WithoutIs(c, f, if j < f then j else j - 1);
      FindIs(t, if j < f then j else j - 1);
    }
  }

  lemma LeftHolds(c: seq<Session>, id: Id, k: Id)
    requires Distinct(c)
    ensures Distinct(Left(c, id)) && Distinct(Taken(c, id))
    ensures Held(Left(c, id), k) == if Has(Taken(c, id), k) then [] else Held(c, k)
    ensures Held(Taken(c, id), k) == if Has(Taken(c, id), k) then Held(c, k) else []
  {
    if id.uuid != 0 && Has(c, id) {
      var f := Find(c, id);
      WithoutDistinct(c, f);
      WithoutHolds(c, f, k);
      assert Taken(c, id) == [c[f]];
      if k == id {
        FindIs([c[f]], 0);
        FindIs(c, f);
      }
    }
  }

  /** What leaves the list is what the held records lose. */
  lemma TraceMoves(c: seq<Session>, cap: nat, id: Id, r: Record, k: Id)
    requires Distinct(c)
    ensures Held(Evicted(c, cap, id), k) + Held(Touch(c, cap, id, r), k) == if k == id then Held(c, k) + [r]
            else Held(c, k)
  {
    TouchHolds(c, cap, id, r, k);
    var e := Evicted(c, cap, id);
    if e != [] {
      FindIs(e, 0);
      assert Has(e, k) <==> k == c[|c| - 1].id;
    }
  }

  lemma ReadMoves(c: seq<Session>, id: Id, k: Id)
    requires Distinct(c)
    ensures Held(Taken(c, id), k) + Held(Left(c, id), k) == Held(c, k)
  {
    LeftHolds(c, id, k);
  }

  lemma StepMoves(cap: nat, s: State, op: Op, id: Id)
    requires Distinct(s.c)
    ensures var t := Step(cap, s, op);
            GoneFor(t.gone, id) + Held(t.c, id) ==
              GoneFor(s.gone, id) + if op.Trace? && op.id == id then Held(s.c, id) + [op.r] else Held(s.c, id)
  {
    match op
    case Trace(i, r) =>
      TraceMoves(s.c, cap, i, r, id);
      MarkAppend(s.gone, Evicted(s.c, cap, i), false, id);
      Assoc(GoneFor(s.gone, id), Held(Evicted(s.c, cap, i), id), Held(Touch(s.c, cap, i, r), id));
    case Read(i) =>
      ReadMoves(s.c, i, id);
      LeftHolds(s.c, i, id);
      MarkAppend(s.gone, Taken(s.c, i), true, id);
      Assoc(GoneFor(s.gone, id), Held(Taken(s.c, i), id), Held(Left(s.c, i), id));
  }

  /** With handlers one at a time, every record accepted for an id is in exactly one
      of the sessions that left, by eviction or to a reader, or the one still held,
      and they are there in the order in which they arrived. */
  lemma {:induction false} Conservation(cap: nat, ops: seq<Op>, id: Id)
    requires cap >= 1
    ensures var s := Run(cap, ops); Accepted(ops, id) == GoneFor(s.gone, id) + Held(s.c, id)
  {
    if ops != [] {
      var init, op := ops[..|ops| - 1], ops[|ops| - 1];
      Conservation(cap, init, id);
      AlwaysDistinct(cap, init);
      StepMoves(cap, Run(cap, init), op, id);
      if op.Trace? {
        Assoc(GoneFor(Run(cap, init).gone, id), Held(Run(cap, init).c, id), [op.r]);
      }
    }
  }

  /** A read empties what it returns. */
  lemma ReadEmpties(cap: nat, ops: seq<Op>, id: Id)
    requires cap >= 1
    ensures var before, after := Run(cap, ops), Run(cap, ops + [Read(id)]);
            && (id.uuid == 0 ==> after.c == [] && Taken(before.c, id) == before.c)
            && (id.uuid != 0 ==> !Has(after.c, id) && Records(Taken(before.c, id)) == Held(before.c, id))
  {
    assert (ops + [Read(id)])[..|ops|] == ops;
    AlwaysDistinct(cap, ops);
    var c := Run(cap, ops).c;
    if id.uuid != 0 && Has(c, id) {
      var t := Without(c, Find(c, id));
      assert forall j :: 0 <= j < |t| ==> t[j].id != id;
    }
  }

  // ----- Least recently used -----

  /** The position of the last record of an id, or -1. */
  function LastTouch(ops: seq<Op>, id: Id): int {
    if ops == [] then -1
    else if ops[|ops| - 1].Trace? && ops[|ops| - 1].id == id then |ops| - 1
    else LastTouch(ops[..|ops| - 1], id)
  }

  lemma {:induction false} LastTouchIsEarlier(ops: seq<Op>, id: Id)
    ensures LastTouch(ops, id) < |ops|
  {
    if ops != [] {
      LastTouchIsEarlier(ops[..|ops| - 1], id);
    }
  }

  ghost predicate ByLastTouch(ops: seq<Op>, c: seq<Session>) {
    forall i, j :: 0 <= i < j < |c| ==> LastTouch(ops, c[i].id) > LastTouch(ops, c[j].id)
  }

  /** Behind its head, a touched list is the old one with at most one session gone. */
  lemma TouchTail(c: seq<Session>, cap: nat, id: Id, r: Record, i: nat)
    requires 0 < i < |Touch(c, cap, id, r)|
    ensures var k := if i - 1 < Find(c, id) then i - 1 else i; k < |c| && Touch(c, cap, id, r)[i].id == c[k].id
  {
    var t, f := Touch(c, cap, id, r), Find(c, id);
    if f < |c| {
      assert t[i] == Without(c, f)[i - 1];
    } else if |c| >= cap && c != [] {
      assert t[i] == c[..|c| - 1][i - 1];
    } else {
      assert t[i] == c[i - 1];
    }
  }

  lemma LeftTail(c: seq<Session>, id: Id, i: nat)
    requires i < |Left(c, id)|
    ensures var k: nat := if i < Find(c, id) then i else i + 1; k < |c| && Left(c, id)[i].id == c[k].id
  {
    if id.uuid != 0 && Has(c, id) {
      WithoutIs(c, Find(c, id), i);
    }
  }

  lemma TraceKeepsOrder(cap: nat, ops: seq<Op>, c: seq<Session>, id: Id, r: Record)
    requires Distinct(c) && ByLastTouch(ops, c)
    ensures ByLastTouch(ops + [Trace(id, r)], Touch(c, cap, id, r))
  {
    var ops', t := ops + [Trace(id, r)], Touch(c, cap, id, r);
    assert ops'[..|ops|] == ops;
    TouchKeepsDistinct(c, cap, id, r);
    forall i, j | 0 <= i < j < |t|
      ensures LastTouch(ops', t[i].id) > LastTouch(ops', t[j].id)
    {
      LastTouchIsEarlier(ops, t[j].id);
      TouchTail(c, cap, id, r, j);
      if i > 0 {
        TouchTail(c, cap, id, r, i);
      }
    }
  }

  lemma ReadKeepsOrder(ops: seq<Op>, c: seq<Session>, id: Id)
    requires ByLastTouch(ops, c)
    ensures ByLastTouch(ops + [Read(id)], Left(c, id))
  {
    var ops', t := ops + [Read(id)], Left(c, id);
    assert ops'[..|ops|] == ops;
    forall i, j | 0 <= i < j < |t|
      ensures LastTouch(ops', t[i].id) > LastTouch(ops', t[j].id)
    {
      LeftTail(c, id, i);
      LeftTail(c, id, j);
    }
  }

  /** The list is ordered by last touch, most recent first, so what is evicted is the
      session untouched for longest. */
  lemma {:induction false} OrderedByLastTouch(cap: nat, ops: seq<Op>)
    requires cap >= 1
    ensures ByLastTouch(ops, Run(cap, ops).c)
  {
    if ops != [] {
      var init, op := ops[..|ops| - 1], ops[|ops| - 1];
      OrderedByLastTouch(cap, init);
      AlwaysDistinct(cap, init);
      assert ops == init + [op];
      match op
      case Trace(id, r) => TraceKeepsOrder(cap, init, Run(cap, init).c, id, r);
      case Read(id) => ReadKeepsOrder(init, Run(cap, init).c, id);
    }
  }

  /** The ids other than `id` that `ops` touches. */
  function Others(ops: seq<Op>, id: Id): set<Id> {
    if ops == [] then {}
    else
      var op := ops[|ops| - 1];
      Others(ops[..|ops| - 1], id) + if op.Trace? && op.id != id then {op.id} else {}
  }

  predicate Reads(ops: seq<Op>, id: Id) {
    exists k :: 0 <= k < |ops| && ops[k].Read? && (ops[k].id.uuid == 0 || ops[k].id == id)
  }

  function Replay(cap: nat, s: State, ops: seq<Op>): State {
    if ops == [] then s else Step(cap, Replay(cap, s, ops[..|ops| - 1]), ops[|ops| - 1])
  }

  /** Everything in front of `id` has been touched since. */
  ghost predicate BehindOnly(c: seq<Session>, id: Id, ahead: set<Id>) {
    Has(c, id) && forall i :: 0 <= i < Find(c, id) ==> c[i].id in ahead
  }

  function Ids(c: seq<Session>): set<Id> {
    set i | 0 <= i < |c| :: c[i].id
  }

  lemma {:induction false} DistinctIds(c: seq<Session>)
    requires Distinct(c)
    ensures |Ids(c)| == |c|
  {
    if c != [] {
      var init := c[..|c| - 1];
      DistinctIds(init);
      assert Ids(c) == Ids(init) + {c[|c| - 1].id};
      assert c[|c| - 1].id !in Ids(init);
    }
  }

  /** To push `id` out, cap other ids must have been touched. */
  lemma NotTheVictim(c: seq<Session>, cap: nat, id: Id, other: Id, ahead: set<Id>)
    requires Distinct(c) && BehindOnly(c, id, ahead) && other != id && !Has(c, other) && |c| >= cap >= 1
    requires |ahead + {other}| < cap
    ensures c[|c| - 1].id != id
  {
    if c[|c| - 1].id == id {
      var front := c[..|c| - 1];
      FindIs(c, |c| - 1);
      DistinctIds(front);
      assert other !in Ids(front);
      SubsetCount(Ids(front) + {other}, ahead + {other});
    }
  }

  lemma TouchStaysBehind(c: seq<Session>, cap: nat, other: Id, r: Record, id: Id, ahead: set<Id>)
    requires Distinct(c) && BehindOnly(c, id, ahead) && cap >= 1
    requires other != id ==> |ahead + {other}| < cap
    ensures BehindOnly(Touch(c, cap, other, r), id, if other == id then ahead else ahead + {other})
  {
    var t := Touch(c, cap, other, r);
    if other == id {
      TouchKeepsDistinct(c, cap, other, r);
      FindIs(t, 0);
    } else {
      if !Has(c, other) && |c| >= cap {
        NotTheVictim(c, cap, id, other, ahead);
      }
      TouchMoves(c, cap, other, r, id);
      forall i | 0 < i < Find(t, id)
        ensures t[i].id in ahead
      {
        TouchTail(c, cap, other, r, i);
      }
    }
  }

  lemma ReadStaysBehind(c: seq<Session>, other: Id, id: Id, ahead: set<Id>)
    requires Distinct(c) && BehindOnly(c, id, ahead) && other.uuid != 0 && other != id
    ensures BehindOnly(Left(c, other), id, ahead)
  {
    var j, i := Find(c, id), Find(c, other);
    if i < |c| {
      LeftHolds(c, other, id);
      FindIs(Without(c, i), if i < j then j - 1 else j);
    }
  }

  lemma TouchKeepsHeld(c: seq<Session>, cap: nat, other: Id, r: Record, id: Id, ahead: set<Id>)
    requires Distinct(c) && |c| <= cap && cap >= 1 && BehindOnly(c, id, ahead)
    requires other != id ==> |ahead + {other}| < cap
    ensures var t := Touch(c, cap, other, r);
            && Distinct(t) && |t| <= cap && BehindOnly(t, id, if other == id then ahead else ahead + {other})
            && Held(t, id) == if other == id then Held(c, id) + [r] else Held(c, id)
  {
    TouchKeepsDistinct(c, cap, other, r);
    TouchStaysBehind(c, cap, other, r, id, ahead);
    if other != id && !Has(c, other) && |c| >= cap {
      NotTheVictim(c, cap, id, other, ahead);
    }
    TouchHolds(c, cap, other, r, id);
  }

  lemma ReadKeepsHeld(c: seq<Session>, cap: nat, other: Id, id: Id, ahead: set<Id>)
    requires Distinct(c) && |c| <= cap && BehindOnly(c, id, ahead) && other.uuid != 0 && other != id
    ensures var t := Left(c, other);
            Distinct(t) && |t| <= cap && BehindOnly(t, id, ahead) && Held(t, id) == Held(c, id)
  {
    ReadStaysBehind(c, other, id, ahead);
    LeftHolds(c, other, id);
  }

  lemma StepKeepsHeld(cap: nat, s: State, op: Op, id: Id, ahead: set<Id>)
    requires cap >= 1 && Distinct(s.c) && |s.c| <= cap && BehindOnly(s.c, id, ahead)
    requires op.Trace? && op.id != id ==> |ahead + {op.id}| < cap
    requires op.Read? ==> op.id.uuid != 0 && op.id != id
    ensures var t := Step(cap, s, op).c;
            && Distinct(t) && |t| <= cap
            && BehindOnly(t, id, if op.Trace? && op.id != id then ahead + {op.id} else ahead)
            && Held(t, id) == if op.Trace? && op.id == id then Held(s.c, id) + [op.r] else Held(s.c, id)
  {
    match op
    case Trace(other, r) => TouchKeepsHeld(s.c, cap, other, r, id, ahead);
    case Read(other) => ReadKeepsHeld(s.c, cap, other, id, ahead);
  }

  /** The guarantee: a session that is neither read nor followed by touches of cap
      distinct other ids is still held, with every record it had and every record
      that came for it since. */
  lemma {:induction false} StillHeld(cap: nat, s: State, id: Id, ops: seq<Op>)
    requires cap >= 1 && Distinct(s.c) && |s.c| <= cap
    requires s.c != [] && s.c[0].id == id
    requires !Reads(ops, id) && |Others(ops, id)| < cap
    ensures var t := Replay(cap, s, ops);
            && Distinct(t.c) && |t.c| <= cap
            && BehindOnly(t.c, id, Others(ops, id))
            && Held(t.c, id) == Held(s.c, id) + Accepted(ops, id)
  {
    if ops == [] {
      FindIs(s.c, 0);
    } else {
      var init, op := ops[..|ops| - 1], ops[|ops| - 1];
      SubsetCount(Others(init, id), Others(ops, id));
      assert forall k :: 0 <= k < |init| ==> init[k] == ops[k];
      StillHeld(cap, s, id, init);
      var u := Replay(cap, s, init);
      assert op.Read? ==> ops[|ops| - 1].Read? && op.id.uuid != 0 && op.id != id;
      StepKeepsHeld(cap, u, op, id, Others(init, id));
    }
  }
}
