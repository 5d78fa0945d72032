/** The same handlers with their critical sections interleaved.

  A record's lookup and its insert, append and move are separate critical sections,
  so list and map need not stay in bijection.  What every interleaving does keep is
  proved here, and exactly when an id comes to be listed twice. */
module TracerRaces {
  import opened Collections
  import opened Tracer

  /** Where a handler stands between two critical sections. */
  datatype Handler =
    | Found(e: nat, r: Record)
    | Missed(id: Id, r: Record)
    | Appended(e: nat, r: Record)
    | Reading(es: seq<nat>)            // detached, still to be collected

  /** History: what became of a list element.  Collected: with how many records. */
  datatype Place = InList | At(reader: nat) | PushedOut | Collected(n: nat)

  /** `mem` is every list element ever made, listed or not; `place`, where each one is. */
  datatype Shared = Shared(lru: seq<nat>, lut: map<Id, nat>, mem: seq<Session>, handlers: map<nat, Handler>,
                           returned: seq<Session>, place: seq<Place>)

  datatype Act =
    | Lookup(h: nat, id: Id, r: Record) | Append(h: nat) | Move(h: nat) | Insert(h: nat)
    | Detach(h: nat, id: Id) | Collect(h: nat)

  function Start(): Shared {
    Shared([], map[], [], map[], [], [])
  }

  function Drop(l: seq<nat>, i: nat): seq<nat>
    requires i < |l|
  {
    l[..i] + l[i + 1..]
  }

  /** list.MoveToFront does nothing to an element no longer in the list. */
  function ToFront(l: seq<nat>, e: nat): seq<nat> {
    if Position(l, e) < |l| then [e] + Drop(l, Position(l, e)) else l
  }

  function Put(place: seq<Place>, e: nat, p: Place): seq<Place> {
    if e < |place| then place[e := p] else place
  }

  function Evict(t: Shared, cap: nat): Shared {
    if |t.lru| < cap || t.lru == [] then t
    else
      var oldest := t.lru[|t.lru| - 1];
      t.(lru := t.lru[..|t.lru| - 1],
         lut := if oldest < |t.mem| then t.lut - {t.mem[oldest].id} else t.lut,
         place := Put(t.place, oldest, PushedOut))
  }

  function InsertNew(t: Shared, id: Id, r: Record): Shared {
    t.(lru := [|t.mem|] + t.lru, lut := t.lut[id := |t.mem|], mem := t.mem + [Session(id, [r])],
        place := t.place + [InList])
  }

  function AllAt(place: seq<Place>, l: seq<nat>, h: nat): (r: seq<Place>)
    ensures |r| == |place| && forall e :: 0 <= e < |r| ==> r[e] == if e in l then At(h) else place[e]
  {
    seq(|place|, e requires 0 <= e < |place| => if e in l then At(h) else place[e])
  }

  function DetachAll(t: Shared, h: nat): Shared {
    t.(lru := [], lut := map[], handlers := t.handlers[h := Reading(t.lru)], place := AllAt(t.place, t.lru, h))
  }

  function DetachOne(t: Shared, h: nat, id: Id): Shared
    requires id in t.lut
  {
    var i := Position(t.lru, t.lut[id]);
    t.(lru := if i < |t.lru| then Drop(t.lru, i) else t.lru, lut := t.lut - {id},
       handlers := t.handlers[h := Reading([t.lut[id]])], place := Put(t.place, t.lut[id], At(h)))
  }

  function DetachOf(t: Shared, h: nat, id: Id): Shared {
    if id.uuid == 0 then DetachAll(t, h) else if id in t.lut then DetachOne(t, h, id) else t
  }

  function AppendAt(mem: seq<Session>, e: nat, r: Record): seq<Session>
    requires e < |mem|
  {
    mem[e := mem[e].(records := mem[e].records + [r])]
  }

  /** The reader takes the records of the next session that it detached. */
  function CollectOf(t: Shared, h: nat, es: seq<nat>): Shared {
    if es == [] || es[0] >= |t.mem| then t.(handlers := t.handlers - {h})
    else
      var s := t.mem[es[0]];
      t.(returned := t.returned + [s], place := Put(t.place, es[0], Collected(|s.records|)),
         handlers := if |es| == 1 then t.handlers - {h} else t.handlers[h := Reading(es[1..])])
  }

  /** One critical section of one handler. */
  function Do(cap: nat, t: Shared, a: Act): Shared {
    match a
    case Lookup(h, id, r) =>
      if h in t.handlers then t
      else t.(handlers := t.handlers[h := if id in t.lut then Found(t.lut[id], r) else Missed(id, r)])
    case Append(h) =>
      if h in t.handlers && t.handlers[h].Found? && t.handlers[h].e < |t.mem| then
        var e, r := t.handlers[h].e, t.handlers[h].r;
        t.(mem := AppendAt(t.mem, e, r), handlers := t.handlers[h := Appended(e, r)])
      else t
    case Move(h) =>
      if h in t.handlers && t.handlers[h].Appended?
      then t.(lru := ToFront(t.lru, t.handlers[h].e), handlers := t.handlers - {h}) else t
    case Insert(h) =>
      if h in t.handlers && t.handlers[h].Missed?
      then InsertNew(Evict(t, cap), t.handlers[h].id, t.handlers[h].r).(handlers := t.handlers - {h}) else t
    case Detach(h, id) => if h in t.handlers then t else DetachOf(t, h, id)
    case Collect(h) =>
      if h in t.handlers && t.handlers[h].Reading? then CollectOf(t, h, t.handlers[h].es) else t
  }

  function Race(cap: nat, acts: seq<Act>): Shared {
    if acts == [] then Start() else Do(cap, Race(cap, acts[..|acts| - 1]), acts[|acts| - 1])
  }

  // ----- What every interleaving keeps -----

  ghost predicate Listed(t: Shared) {
    && (forall i :: 0 <= i < |t.lru| ==> t.lru[i] < |t.mem|)
    && NoneTwice(t.lru)
  }

  /** Each map entry points to a list element with that id. */
  ghost predicate Mapped(t: Shared) {
    forall id :: id in t.lut ==> t.lut[id] in t.lru && t.lut[id] < |t.mem| && t.mem[t.lut[id]].id == id
  }

  ghost predicate Inv(cap: nat, t: Shared) {
    |t.lru| <= cap && Listed(t) && Mapped(t)
  }

  lemma EvictKeeps(cap: nat, t: Shared)
    requires Inv(cap, t) && cap >= 1
    ensures Inv(cap, Evict(t, cap)) && |Evict(t, cap).lru| < cap
  {
    var u := Evict(t, cap);
    forall id | id in u.lut
      ensures u.lut[id] in u.lru
    {
      assert t.lut[id] in t.lru && t.mem[t.lut[id]].id == id;
      if |t.lru| >= cap {
        var i :| 0 <= i < |t.lru| && t.lru[i] == t.lut[id];
        assert u.lru[i] == t.lut[id];
      }
    }
  }

  lemma InsertKeeps(cap: nat, t: Shared, id: Id, r: Record)
    requires Inv(cap, t) && |t.lru| < cap
    ensures Inv(cap, InsertNew(t, id, r))
  {
    var u := InsertNew(t, id, r);
    assert u.lru[0] == |t.mem| && u.lru[1..] == t.lru;
    forall k | k in u.lut && k != id
      ensures u.lut[k] in u.lru && u.mem[u.lut[k]].id == k
    {
      var i :| 0 <= i < |t.lru| && t.lru[i] == t.lut[k];
      assert u.lru[i + 1] == t.lut[k];
    }
  }

  lemma ToFrontAt(l: seq<nat>, e: nat, k: nat)
    requires Position(l, e) < |l| && k < |l|
    ensures |ToFront(l, e)| == |l| && l[k] in ToFront(l, e)
    ensures var i := Position(l, e); ToFront(l, e)[k] == l[if k == 0 then i else if k <= i then k - 1 else k]
  {
    var i, t := Position(l, e), ToFront(l, e);
    assert t[if k == i then 0 else if k < i then k + 1 else k] == l[k];
  }

  lemma ToFrontKeeps(l: seq<nat>, e: nat)
    requires NoneTwice(l)
    ensures NoneTwice(ToFront(l, e)) && |ToFront(l, e)| == |l|
    ensures forall x :: x in ToFront(l, e) <==> x in l
  {
    var t := ToFront(l, e);
    if Position(l, e) < |l| {
      forall j, k | 0 <= j < k < |t| ensures t[j] != t[k] {
        ToFrontAt(l, e, 0);
        ToFrontAt(l, e, j);
        ToFrontAt(l, e, k);
      }
      forall x | x in l ensures x in t {
        var k :| 0 <= k < |l| && l[k] == x;
        ToFrontAt(l, e, k);
      }
    }
  }

  lemma MoveKeeps(cap: nat, t: Shared, e: nat)
    requires Inv(cap, t)
    ensures Inv(cap, t.(lru := ToFront(t.lru, e)))
  {
    ToFrontKeeps(t.lru, e);
    var l := ToFront(t.lru, e);
    forall k | 0 <= k < |l| ensures l[k] < |t.mem| {
      assert l[k] in l;
      var i :| 0 <= i < |t.lru| && t.lru[i] == l[k];
    }
  }

  lemma DetachKeeps(cap: nat, t: Shared, h: nat, id: Id)
    requires Inv(cap, t)
    ensures Inv(cap, DetachOf(t, h, id))
  {
    if id.uuid != 0 && id in t.lut {
      var u, i := DetachOf(t, h, id), Position(t.lru, t.lut[id]);
      forall k | k in u.lut
        ensures u.lut[k] in u.lru
      {
        assert t.mem[t.lut[k]].id == k && t.mem[t.lut[id]].id == id;
        var j :| 0 <= j < |t.lru| && t.lru[j] == t.lut[k];
        assert u.lru[if j < i then j else j - 1] == t.lut[k];
      }
    }
  }

  /** In every interleaving the list never exceeds cap, and each map entry points to
      a list element with that id. */
  lemma {:induction false} AllInterleavings(cap: nat, acts: seq<Act>)
    requires cap >= 1
    ensures Inv(cap, Race(cap, acts))
  {
    if acts != [] {
      var t, a := Race(cap, acts[..|acts| - 1]), acts[|acts| - 1];
      AllInterleavings(cap, acts[..|acts| - 1]);
      match a
      case Insert(h) =>
        if h in t.handlers && t.handlers[h].Missed? {
          EvictKeeps(cap, t);
          InsertKeeps(cap, Evict(t, cap), t.handlers[h].id, t.handlers[h].r);
        }
      case Move(h) => if h in t.handlers && t.handlers[h].Appended? { MoveKeeps(cap, t, t.handlers[h].e); }
      case Detach(h, id) => DetachKeeps(cap, t, h, id);
      case _ =>
    }
  }

  // ----- Exactly when an id is listed twice -----

  ghost predicate OnceEach(t: Shared) {
    forall i, j :: 0 <= i < j < |t.lru| && t.lru[j] < |t.mem| && t.lru[i] < |t.mem| ==>
        t.mem[t.lru[i]].id != t.mem[t.lru[j]].id
  }

  /** The map knows every listed element. */
  ghost predicate AllMapped(t: Shared) {
    forall e :: e in t.lru && e < |t.mem| ==> t.mem[e].id in t.lut && t.lut[t.mem[e].id] == e
  }

  /** The record's id has come to be mapped since its lookup missed it, and the eviction
      that its insert makes room with does not unmap it. */
  predicate InsertsTwice(cap: nat, t: Shared, a: Act) {
    && a.Insert? && a.h in t.handlers && t.handlers[a.h].Missed?
    && t.handlers[a.h].id in Evict(t, cap).lut
  }

  lemma MappedOnce(cap: nat, t: Shared)
    requires Inv(cap, t) && AllMapped(t)
    ensures OnceEach(t)
  {
  }

  lemma EvictKeepsMapped(cap: nat, t: Shared)
    requires cap >= 1 && Inv(cap, t) && AllMapped(t)
    ensures AllMapped(Evict(t, cap))
  {
    var u := Evict(t, cap);
    if |t.lru| >= cap {
      var n := |t.lru| - 1;
      forall e | e in u.lru ensures u.mem[e].id in u.lut && u.lut[u.mem[e].id] == e {
        var i :| 0 <= i < |u.lru| && u.lru[i] == e;
        assert t.lru[i] == e && t.lru[n] in t.lru && e in t.lru;
      }
    }
  }

  lemma InsertKeepsMapped(cap: nat, t: Shared, id: Id, r: Record)
    requires Inv(cap, t) && AllMapped(t) && id !in t.lut
    ensures AllMapped(InsertNew(t, id, r))
  {
    var u := InsertNew(t, id, r);
    forall e | e in u.lru ensures u.mem[e].id in u.lut && u.lut[u.mem[e].id] == e {
      var i :| 0 <= i < |u.lru| && u.lru[i] == e;
      if i > 0 {
        assert e == t.lru[i - 1] && e in t.lru;
      }
    }
  }

  lemma DetachKeepsMapped(cap: nat, t: Shared, h: nat, id: Id)
    requires Inv(cap, t) && AllMapped(t)
    ensures AllMapped(DetachOf(t, h, id))
  {
    if id.uuid != 0 && id in t.lut {
      var u, i := DetachOf(t, h, id), Position(t.lru, t.lut[id]);
      forall e | e in u.lru ensures u.mem[e].id in u.lut && u.lut[u.mem[e].id] == e {
        var j :| 0 <= j < |u.lru| && u.lru[j] == e;
        assert e == t.lru[if j < i then j else j + 1] && e in t.lru && t.lru[i] in t.lru;
        assert t.lut[id] in t.lru && t.lru[i] == t.lut[id];
      }
    }
  }

  lemma MoveKeepsMapped(t: Shared, e: nat)
    requires NoneTwice(t.lru) && AllMapped(t)
    ensures AllMapped(t.(lru := ToFront(t.lru, e)))
  {
    ToFrontKeeps(t.lru, e);
  }

  lemma ActKeepsMapped(cap: nat, t: Shared, a: Act)
    requires cap >= 1 && Inv(cap, t) && AllMapped(t) && !InsertsTwice(cap, t, a)
    ensures AllMapped(Do(cap, t, a))
  {
    match a
    case Insert(h) =>
      if h in t.handlers && t.handlers[h].Missed? {
        EvictKeeps(cap, t);
        EvictKeepsMapped(cap, t);
        InsertKeepsMapped(cap, Evict(t, cap), t.handlers[h].id, t.handlers[h].r);
      }
    case Move(h) => if h in t.handlers && t.handlers[h].Appended? { MoveKeepsMapped(t, t.handlers[h].e); }
    case Detach(h, id) => DetachKeepsMapped(cap, t, h, id);
    case _ =>
  }

  lemma TwiceIsTwice(cap: nat, t: Shared, a: Act)
    requires cap >= 1 && Inv(cap, t) && InsertsTwice(cap, t, a)
    ensures !OnceEach(Do(cap, t, a))
  {
    EvictKeeps(cap, t);
    var v, u, id := Evict(t, cap), Do(cap, t, a), t.handlers[a.h].id;
    var i :| 0 <= i < |v.lru| && v.lru[i] == v.lut[id];
    assert u.lru[0] == |t.mem| && u.lru[i + 1] == v.lut[id];
    assert u.mem[u.lru[0]].id == u.mem[u.lru[i + 1]].id;
  }

  ghost predicate OnceAt(cap: nat, acts: seq<Act>, k: nat)
    requires k <= |acts|
  {
    OnceEach(Race(cap, acts[..k]))
  }

  ghost predicate TwiceAt(cap: nat, acts: seq<Act>, k: nat)
    requires k < |acts|
  {
    InsertsTwice(cap, Race(cap, acts[..k]), acts[k])
  }

  lemma RaceUpTo(cap: nat, acts: seq<Act>, k: nat)
    requires k < |acts|
    ensures Race(cap, acts[..k + 1]) == Do(cap, Race(cap, acts[..k]), acts[k])
  {
    assert acts[..k + 1][..k] == acts[..k];
  }

  lemma {:induction false} MappedUpTo(cap: nat, acts: seq<Act>, n: nat)
    requires cap >= 1 && n <= |acts| && forall k :: 0 <= k < n ==> !TwiceAt(cap, acts, k)
    ensures AllMapped(Race(cap, acts[..n]))
  {
    if n > 0 {
      MappedUpTo(cap, acts, n - 1);
      AllInterleavings(cap, acts[..n - 1]);
      assert !TwiceAt(cap, acts, n - 1);
      RaceUpTo(cap, acts, n - 1);
      ActKeepsMapped(cap, Race(cap, acts[..n - 1]), acts[n - 1]);
    }
  }

  /** In every run, no id is ever listed twice exactly when no record is inserted whose
      id is mapped by then. */
  lemma ListedOnceIff(cap: nat, acts: seq<Act>)
    requires cap >= 1
    ensures (forall k :: 0 <= k <= |acts| ==> OnceAt(cap, acts, k))
            <==> (forall k :: 0 <= k < |acts| ==> !TwiceAt(cap, acts, k))
  {
    if k :| 0 <= k < |acts| && TwiceAt(cap, acts, k) {
      AllInterleavings(cap, acts[..k]);
      RaceUpTo(cap, acts, k);
      TwiceIsTwice(cap, Race(cap, acts[..k]), acts[k]);
      assert !OnceAt(cap, acts, k + 1);
    } else {
      forall k | 0 <= k <= |acts| ensures OnceAt(cap, acts, k) {
        MappedUpTo(cap, acts, k);
        AllInterleavings(cap, acts[..k]);
        MappedOnce(cap, Race(cap, acts[..k]));
      }
    }
  }

  lemma Then(cap: nat, acts: seq<Act>, t: Shared, a: Act, u: Shared) returns (more: seq<Act>)
    requires Race(cap, acts) == t && Do(cap, t, a) == u
    ensures more == acts + [a] && Race(cap, more) == u
  {
    more := acts + [a];
    assert more[..|acts|] == acts;
  }

  lemma BothMiss(cap: nat, id: Id) returns (acts: seq<Act>)
    ensures Race(cap, acts) == Shared([], map[], [], map[0 := Missed(id, 1), 1 := Missed(id, 2)], [], [])
  {
    var t1 := Shared([], map[], [], map[0 := Missed(id, 1)], [], []);
    acts := Then(cap, [], Start(), Lookup(0, id, 1), t1);
    var t2 := Shared([], map[], [], map[0 := Missed(id, 1), 1 := Missed(id, 2)], [], []);
    acts := Then(cap, acts, t1, Lookup(1, id, 2), t2);
  }

  lemma BothInsert(cap: nat, id: Id, t: Shared, u: Shared)
    requires cap >= 2
    requires t == Shared([], map[], [], map[0 := Missed(id, 1), 1 := Missed(id, 2)], [], [])
    requires u == Shared([0], map[id := 0], [Session(id, [1])], map[1 := Missed(id, 2)], [], [InList])
    ensures Do(cap, t, Insert(0)) == u
    ensures Do(cap, u, Insert(1))
         == Shared([1, 0], map[id := 1], [Session(id, [1]), Session(id, [2])], map[], [], [InList, InList])
  {
    assert t.handlers - {0} == u.handlers && u.handlers - {1} == map[];
  }

  /** It happens: two first records of one id that race are inserted twice, and the map
      knows only one of the two elements. */
  lemma TwoSessionsForOneId(cap: nat, id: Id) returns (acts: seq<Act>)
    requires cap >= 2
    ensures Race(cap, acts)
         == Shared([1, 0], map[id := 1], [Session(id, [1]), Session(id, [2])], map[], [], [InList, InList])
  {
    acts := BothMiss(cap, id);
    var t := Race(cap, acts);
    var u := Shared([0], map[id := 0], [Session(id, [1])], map[1 := Missed(id, 2)], [], [InList]);
    BothInsert(cap, id, t, u);
    acts := Then(cap, acts, t, Insert(0), u);
    acts := Then(cap, acts, u, Insert(1), Do(cap, u, Insert(1)));
  }
}
