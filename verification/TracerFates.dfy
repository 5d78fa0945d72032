/** What becomes of every record when the tracer's critical sections interleave: which
  appended records are lost, exactly. */
module TracerFates {
  import opened Collections
  import opened Tracer
  import opened TracerRaces

  /** Where a record can be, by where the list element of its session is. */
  datatype Fate = Held | WithReader | Returned | Discarded | Lost

  /** The fate of record k of element e.  A session that was collected holds for its
      reader the records it had then. */
  function FateOf(t: Shared, e: nat, k: nat): Fate
    requires e < |t.place|
  {
    match t.place[e]
    case InList => Held
    case At(_) => WithReader
    case PushedOut => Discarded
    case Collected(n) => if k < n then Returned else Lost
  }

  predicate Holds(t: Shared, h: nat, e: nat) {
    h in t.handlers && t.handlers[h].Reading? && e in t.handlers[h].es
  }

  ghost predicate OfList(lru: seq<nat>, place: seq<Place>) {
    && NoneTwice(lru)
    && (forall e :: e in lru ==> e < |place|)
    && (forall e :: 0 <= e < |place| ==> (place[e] == InList <==> e in lru))
  }

  /** A reader's elements are those that its place history gives it, each once. */
  ghost predicate OfReader(handlers: map<nat, Handler>, place: seq<Place>, h: nat) {
    && (h in handlers && handlers[h].Reading? ==>
          NoneTwice(handlers[h].es) && forall e :: e in handlers[h].es ==> e < |place| && place[e] == At(h))
    && (forall e :: 0 <= e < |place| && place[e] == At(h) ==>
       h in handlers && handlers[h].Reading?
       && e in handlers[h].es)
  }

  ghost predicate OfReaders(handlers: map<nat, Handler>, place: seq<Place>) {
    forall h: nat :: OfReader(handlers, place, h)
  }

  /** What was collected from an element is a session of `returned`. */
  ghost predicate WasReturned(returned: seq<Session>, s: Session, n: nat) {
    n <= |s.records| && Session(s.id, s.records[..n]) in returned
  }

  ghost predicate OfReturned(returned: seq<Session>, mem: seq<Session>, place: seq<Place>) {
    |place| == |mem| && forall e :: 0 <= e < |place| && place[e].Collected? ==>
        WasReturned(returned, mem[e], place[e].n)
  }

  /** The history says where each element is. */
  ghost predicate Told(t: Shared) {
    && OfList(t.lru, t.place) && OfReaders(t.handlers, t.place) && OfReturned(t.returned, t.mem, t.place)
    && (forall h :: h in t.handlers && t.handlers[h].Found? ==> t.handlers[h].e < |t.mem|)
    && (forall id :: id in t.lut ==> t.lut[id] in t.lru)
  }

  // ----- Each critical section -----

  lemma EvictTold(cap: nat, t: Shared)
    requires cap >= 1 && Inv(cap, t) && Told(t)
    ensures Told(Evict(t, cap))
  {
    var u := Evict(t, cap);
    EvictKeeps(cap, t);
    if |t.lru| >= cap {
      var n := |t.lru| - 1;
      assert t.lru[n] in t.lru;
      forall e | 0 <= e < |u.place| ensures u.place[e] == InList <==> e in u.lru {
        if e in t.lru && e != t.lru[n] {
          var i :| 0 <= i < |t.lru| && t.lru[i] == e;
          assert u.lru[i] == e;
        }
      }
      forall h: nat ensures OfReader(u.handlers, u.place, h) {
        assert OfReader(t.handlers, t.place, h);
      }
    }
  }

  lemma InsertTold(cap: nat, t: Shared, id: Id, r: Record, h: nat)
    requires Inv(cap, t) && Told(t) && h in t.handlers && t.handlers[h].Missed? && |t.lru| < cap
    ensures Told(InsertNew(t, id, r).(handlers := t.handlers - {h}))
  {
    var u := InsertNew(t, id, r).(handlers := t.handlers - {h});
    InsertKeeps(cap, t, id, r);
    assert u.lru[0] == |t.mem| && u.lru[1..] == t.lru;
    forall g: nat ensures OfReader(u.handlers, u.place, g) {
      assert OfReader(t.handlers, t.place, g);
    }
    forall e | e in u.lru ensures e < |u.place| {
      assert e == |t.mem| || e in t.lru;
    }
    forall e | 0 <= e < |u.place| && u.place[e].Collected? ensures WasReturned(u.returned, u.mem[e], u.place[e].n) {
      assert WasReturned(t.returned, t.mem[e], t.place[e].n);
    }
  }

  lemma MoveTold(cap: nat, t: Shared, h: nat)
    requires Inv(cap, t) && Told(t) && h in t.handlers && t.handlers[h].Appended?
    ensures Told(t.(lru := ToFront(t.lru, t.handlers[h].e), handlers := t.handlers - {h}))
  {
    ToFrontKeeps(t.lru, t.handlers[h].e);
    forall g: nat ensures OfReader(t.handlers - {h}, t.place, g) {
      assert OfReader(t.handlers, t.place, g);
    }
  }

  lemma AppendTold(t: Shared, h: nat, e: nat, r: Record)
    requires Told(t) && h in t.handlers && t.handlers[h] == Found(e, r)
    ensures Told(t.(mem := AppendAt(t.mem, e, r), handlers := t.handlers[h := Appended(e, r)]))
  {
    var u := t.(mem := AppendAt(t.mem, e, r), handlers := t.handlers[h := Appended(e, r)]);
    forall g: nat ensures OfReader(u.handlers, u.place, g) {
      assert OfReader(t.handlers, t.place, g);
    }
    forall x | 0 <= x < |u.place| && u.place[x].Collected? ensures WasReturned(u.returned, u.mem[x], u.place[x].n) {
      assert WasReturned(t.returned, t.mem[x], t.place[x].n);
      assert u.mem[x].records[..u.place[x].n] == t.mem[x].records[..t.place[x].n];
    }
  }

  lemma DetachAllTold(cap: nat, t: Shared, h: nat)
    requires Inv(cap, t) && Told(t) && h !in t.handlers
    ensures Told(DetachAll(t, h))
  {
    var u := DetachAll(t, h);
    forall g: nat ensures OfReader(u.handlers, u.place, g) {
      assert OfReader(t.handlers, t.place, g);
    }
  }

  lemma DroppedList(l: seq<nat>, i: nat)
    requires i < |l| && NoneTwice(l)
    ensures NoneTwice(Drop(l, i)) && forall e :: e in Drop(l, i) <==> e in l && e != l[i]
  {
    var d := Drop(l, i);
    assert forall j :: 0 <= j < |d| ==> d[j] == l[if j < i then j else j + 1];
    forall e | e in l && e != l[i] ensures e in d {
      var j :| 0 <= j < |l| && l[j] == e;
      assert d[if j < i then j else j - 1] == e;
    }
  }

  lemma DetachOneTold(cap: nat, t: Shared, h: nat, id: Id)
    requires Inv(cap, t) && Told(t) && h !in t.handlers && id in t.lut
    ensures Told(DetachOne(t, h, id))
  {
    var u, e := DetachOne(t, h, id), t.lut[id];
    DroppedList(t.lru, Position(t.lru, e));
    assert OfReader(t.handlers, t.place, h);
    assert e in t.lru && t.mem[e].id == id;
    forall g: nat ensures OfReader(u.handlers, u.place, g) {
      assert OfReader(t.handlers, t.place, g);
    }
    forall k | k in u.lut ensures u.lut[k] in u.lru {
      assert t.mem[t.lut[k]].id == k && t.lut[k] in t.lru;
    }
    forall x | 0 <= x < |u.place| && u.place[x].Collected? ensures WasReturned(u.returned, u.mem[x], u.place[x].n) {
      assert WasReturned(t.returned, t.mem[x], t.place[x].n);
    }
  }

  lemma CollectTold(t: Shared, h: nat, es: seq<nat>)
    requires Told(t) && h in t.handlers && t.handlers[h] == Reading(es)
    ensures Told(CollectOf(t, h, es))
  {
    var u := CollectOf(t, h, es);
    assert OfReader(t.handlers, t.place, h);
    if es != [] {
      var e := es[0];
      assert e in es && t.place[e] == At(h);
      var s := t.mem[e];
      forall x ensures x in es[1..] <==> x in es && x != e {
        if x in es && x != e {
          var i :| 0 <= i < |es| && es[i] == x;
          assert es[1..][i - 1] == x;
        }
      }
      assert s.records[..|s.records|] == s.records;
      forall g: nat ensures OfReader(u.handlers, u.place, g) {
        assert OfReader(t.handlers, t.place, g);
      }
      forall x | 0 <= x < |u.place| && u.place[x].Collected? ensures WasReturned(u.returned, u.mem[x], u.place[x].n) {
        if x != e {
          assert WasReturned(t.returned, t.mem[x], t.place[x].n);
        }
      }
    } else {
      forall g: nat ensures OfReader(u.handlers, u.place, g) {
        assert OfReader(t.handlers, t.place, g);
      }
    }
  }

  lemma LookupTold(cap: nat, t: Shared, h: nat, id: Id, r: Record)
    requires Inv(cap, t) && Told(t) && h !in t.handlers
    ensures Told(Do(cap, t, Lookup(h, id, r)))
  {
    var u := Do(cap, t, Lookup(h, id, r));
    forall g: nat ensures OfReader(u.handlers, u.place, g) {
      assert OfReader(t.handlers, t.place, g);
    }
  }

  lemma ActTold(cap: nat, t: Shared, a: Act)
    requires cap >= 1 && Inv(cap, t) && Told(t)
    ensures Told(Do(cap, t, a))
  {
    match a
    case Lookup(h, id, r) => if h !in t.handlers { LookupTold(cap, t, h, id, r); }
    case Append(h) => if h in t.handlers && t.handlers[h].Found? { AppendTold(t, h, t.handlers[h].e, t.handlers[h].r); }
    case Move(h) => if h in t.handlers && t.handlers[h].Appended? { MoveTold(cap, t, h); }
    case Insert(h) =>
      if h in t.handlers && t.handlers[h].Missed? {
        EvictKeeps(cap, t);
        EvictTold(cap, t);
        InsertTold(cap, Evict(t, cap), t.handlers[h].id, t.handlers[h].r, h);
      }
    case Detach(h, id) =>
      if h !in t.handlers {
        if id.uuid == 0 { DetachAllTold(cap, t, h); } else if id in t.lut { DetachOneTold(cap, t, h, id); }
      }
    case Collect(h) => if h in t.handlers && t.handlers[h].Reading? { CollectTold(t, h, t.handlers[h].es); }
  }

  lemma {:induction false} AlwaysTold(cap: nat, acts: seq<Act>)
    requires cap >= 1
    ensures Told(Race(cap, acts))
  {
    if acts != [] {
      AlwaysTold(cap, acts[..|acts| - 1]);
      AllInterleavings(cap, acts[..|acts| - 1]);
      ActTold(cap, Race(cap, acts[..|acts| - 1]), acts[|acts| - 1]);
    }
  }

  // ----- Which records are lost -----

  /** In every run, an appended record is lost exactly when its element is no longer
      listed, was not evicted, and no reader is still to collect it. */
  lemma AppendLostIff(cap: nat, acts: seq<Act>, h: nat)
    requires cap >= 1
    requires var t := Race(cap, acts); h in t.handlers && t.handlers[h].Found?
    ensures var t, u := Race(cap, acts), Race(cap, acts + [Append(h)]);
            var e := t.handlers[h].e;
            && e < |t.mem| == |t.place| == |u.mem| == |u.place|
            && u.mem[e].records == t.mem[e].records + [t.handlers[h].r]
            && (FateOf(u, e, |t.mem[e].records|) == Lost
                <==> e !in t.lru && t.place[e] != PushedOut && forall g: nat :: !Holds(t, g, e))
  {
    AlwaysTold(cap, acts);
    RaceUpTo(cap, acts + [Append(h)], |acts|);
    assert (acts + [Append(h)])[..|acts|] == acts && (acts + [Append(h)])[..|acts| + 1] == acts + [Append(h)];
    var t := Race(cap, acts);
    var e := t.handlers[h].e;
    if t.place[e].At? {
      assert OfReader(t.handlers, t.place, t.place[e].reader) && Holds(t, t.place[e].reader, e);
    }
    forall g: nat | Holds(t, g, e) ensures t.place[e] == At(g) {
      assert OfReader(t.handlers, t.place, g);
    }
  }

  /** Record k of element e stays what it is, and is lost in u only if it is in t; what was
      returned or discarded stays so. */
  ghost predicate Decided(t: Shared, u: Shared, e: nat, k: nat) {
    && e < |t.mem| == |t.place| && k < |t.mem[e].records|
    && e < |u.mem| == |u.place| && k < |u.mem[e].records|
    && u.mem[e].id == t.mem[e].id && u.mem[e].records[k] == t.mem[e].records[k]
    && (FateOf(u, e, k) == Lost <==> FateOf(t, e, k) == Lost)
    && (FateOf(t, e, k).Returned? ==> FateOf(u, e, k).Returned?)
    && (FateOf(t, e, k).Discarded? ==> FateOf(u, e, k).Discarded?)
  }

  lemma ActKeepsFate(cap: nat, t: Shared, a: Act, e: nat, k: nat)
    requires cap >= 1 && Inv(cap, t) && Told(t) && e < |t.mem| && k < |t.mem[e].records|
    ensures Decided(t, Do(cap, t, a), e, k)
  {
    ActTold(cap, t, a);
    match a
    case Insert(h) =>
      if h in t.handlers && t.handlers[h].Missed? && |t.lru| >= cap {
        assert t.lru[|t.lru| - 1] in t.lru;
      }
    case Detach(h, id) =>
      if h !in t.handlers && id.uuid != 0 && id in t.lut {
        assert t.lut[id] in t.lru;
      }
    case Collect(h) =>
      if h in t.handlers && t.handlers[h].Reading? && t.handlers[h].es != [] {
        assert OfReader(t.handlers, t.place, h) && t.handlers[h].es[0] in t.handlers[h].es;
      }
    case _ =>
  }

  lemma ReturnedIsThere(t: Shared, e: nat, k: nat)
    requires Told(t) && e < |t.mem| && k < |t.mem[e].records| && FateOf(t, e, k).Returned?
    ensures InReturned(t.returned, t.mem[e].id, k, t.mem[e].records[k])
  {
    var s, n := t.mem[e], t.place[e].n;
    assert WasReturned(t.returned, s, n);
    assert Session(s.id, s.records[..n]).records[k] == s.records[k];
  }

  ghost predicate InReturned(returned: seq<Session>, id: Id, k: nat, r: Record) {
    exists s :: s in returned && s.id == id && k < |s.records| && s.records[k] == r
  }

  lemma {:induction false} DecidedInRun(cap: nat, acts: seq<Act>, more: seq<Act>, e: nat, k: nat)
    requires cap >= 1
    requires var t := Race(cap, acts); e < |t.mem| && k < |t.mem[e].records|
    ensures Decided(Race(cap, acts), Race(cap, acts + more), e, k)
    decreases |more|
  {
    if more == [] {
      AlwaysTold(cap, acts);
      assert acts + more == acts;
    } else {
      var init := more[..|more| - 1];
      DecidedInRun(cap, acts, init, e, k);
      AlwaysTold(cap, acts + init);
      AllInterleavings(cap, acts + init);
      assert (acts + more)[..|acts + more| - 1] == acts + init;
      ActKeepsFate(cap, Race(cap, acts + init), more[|more| - 1], e, k);
    }
  }

  /** So the append decides: in every continuation of every run, a record is lost exactly
      if it already is, and a returned one is among the sessions that readers returned. */
  lemma FateIsDecided(cap: nat, acts: seq<Act>, more: seq<Act>, e: nat, k: nat)
    requires cap >= 1
    requires var t := Race(cap, acts); e < |t.mem| && k < |t.mem[e].records|
    ensures var t, u := Race(cap, acts), Race(cap, acts + more);
            && Decided(t, u, e, k)
            && (FateOf(u, e, k).Returned? ==> InReturned(u.returned, t.mem[e].id, k, t.mem[e].records[k]))
  {
    DecidedInRun(cap, acts, more, e, k);
    AlwaysTold(cap, acts + more);
    if FateOf(Race(cap, acts + more), e, k).Returned? {
      ReturnedIsThere(Race(cap, acts + more), e, k);
    }
  }

  /** It happens: a session is read between a record's lookup and its append, so record 2
      is in no listed session, was not returned and was not evicted. */
  lemma RecordLost(cap: nat, id: Id) returns (acts: seq<Act>)
    requires cap >= 1 && id.uuid != 0
    ensures Race(cap, acts) == Shared([], map[], [Session(id, [1, 2])], map[], [Session(id, [1])], [Collected(1)])
    ensures FateOf(Race(cap, acts), 0, 1) == Lost
  {
    var s1, s2 := [Session(id, [1])], [Session(id, [1, 2])];
    var t1 := Start().(handlers := map[0 := Missed(id, 1)]);
    acts := Then(cap, [], Start(), Lookup(0, id, 1), t1);
    var t2 := Shared([0], map[id := 0], s1, map[], [], [InList]);
    acts := Then(cap, acts, t1, Insert(0), t2);
    var t3 := t2.(handlers := map[1 := Found(0, 2)]);
    acts := Then(cap, acts, t2, Lookup(1, id, 2), t3);
    var t4 := Shared([], map[], s1, map[1 := Found(0, 2), 2 := Reading([0])], [], [At(2)]);
    acts := Then(cap, acts, t3, Detach(2, id), t4);
    var t5 := Shared([], map[], s1, map[1 := Found(0, 2)], s1, [Collected(1)]);
    acts := Then(cap, acts, t4, Collect(2), t5);
    assert [1] + [2] == [1, 2] && AppendAt(s1, 0, 2)[0] == s2[0];
    assert AppendAt(s1, 0, 2) == s2;
    var t6 := Shared([], map[], s2, map[1 := Appended(0, 2)], s1, [Collected(1)]);
    acts := Then(cap, acts, t5, Append(1), t6);
    acts := Then(cap, acts, t6, Move(1), t6.(handlers := map[]));
  }
}
