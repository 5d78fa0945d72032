/** The handlers of messagetracing_svc.go over real list elements and a real map,
  proved against Tracer's description of what they do to the sessions. */
module TracerService {
  import opened Collections
  import opened Tracer

  class TracingSession {
    const id: Id
    var records: seq<Record>

    constructor (id: Id, r: Record)
      ensures this.id == id && records == [r]
    {
      this.id := id;
      records := [r];
    }
  }

  /** List and map are in bijection. */
  ghost predicate Listed(l: seq<TracingSession>, m: map<Id, TracingSession>) {
    && (forall i, j :: 0 <= i < j < |l| ==> l[i].id != l[j].id)
    && (forall i :: 0 <= i < |l| ==> l[i].id in m && m[l[i].id] == l[i])
    && (forall id :: id in m ==> m[id] in l && m[id].id == id)
  }

  function Moved(l: seq<TracingSession>, i: nat): seq<TracingSession>
    requires i < |l|
  {
    [l[i]] + l[..i] + l[i + 1..]
  }

  function Removed(l: seq<TracingSession>, i: nat): seq<TracingSession>
    requires i < |l|
  {
    l[..i] + l[i + 1..]
  }

  lemma MovedAt(l: seq<TracingSession>, i: nat, j: nat)
    requires i < |l| && j < |l|
    ensures |Moved(l, i)| == |l| && Moved(l, i)[if j == i then 0 else if j < i then j + 1 else j] == l[j]
    ensures Moved(l, i)[j] == l[if j == 0 then i else if j <= i then j - 1 else j]
  {
  }

  lemma WithoutAt(c: seq<Session>, i: nat, j: nat)
    requires i < |c| && j < |c|
    ensures |Without(c, i)| == |c| - 1
    ensures ([c[i]] + Without(c, i))[j] == c[if j == 0 then i else if j <= i then j - 1 else j]
  {
  }

  lemma MovedIsListed(l: seq<TracingSession>, m: map<Id, TracingSession>, i: nat)
    requires Listed(l, m) && i < |l|
    ensures Listed(Moved(l, i), m)
  {
    var t := Moved(l, i);
    forall j | 0 <= j < |l|
      ensures l[j] in t && t[j] == l[if j == 0 then i else if j <= i then j - 1 else j]
    {
      MovedAt(l, i, j);
    }
  }

  lemma RemovedAt(l: seq<TracingSession>, i: nat, j: nat)
    requires i < |l| && j < |l|
    ensures |Removed(l, i)| == |l| - 1 && (j != i ==> Removed(l, i)[if j < i then j else j - 1] == l[j])
    ensures j < |l| - 1 ==> Removed(l, i)[j] == l[if j < i then j else j + 1]
  {
  }

  /** The others are still there, in order. */
  lemma RemovedKeeps(l: seq<TracingSession>, i: nat)
    requires i < |l|
    ensures |Removed(l, i)| == |l| - 1
    ensures forall j :: 0 <= j < |l| && j != i ==> l[j] in Removed(l, i)
    ensures forall j :: 0 <= j < |l| - 1 ==> Removed(l, i)[j] == l[if j < i then j else j + 1]
  {
    forall j | 0 <= j < |l| && j != i ensures l[j] in Removed(l, i) {
      RemovedAt(l, i, j);
    }
  }

  lemma RemovedIsListed(l: seq<TracingSession>, m: map<Id, TracingSession>, i: nat)
    requires Listed(l, m) && i < |l|
    ensures Listed(Removed(l, i), m - {l[i].id})
  {
    var t, m' := Removed(l, i), m - {l[i].id};
    RemovedKeeps(l, i);
    forall id | id in m'
      ensures m'[id] in t && m'[id].id == id
    {
      assert m[id] in l && m[id].id == id && id != l[i].id;
    }
  }

  lemma PushedIsListed(l: seq<TracingSession>, m: map<Id, TracingSession>, e: TracingSession)
    requires Listed(l, m) && e.id !in m
    ensures Listed([e] + l, m[e.id := e])
  {
    var t := [e] + l;
    forall i, j | 0 <= i < j < |t| ensures t[i].id != t[j].id {
      assert t[j] == l[j - 1] && (i > 0 ==> t[i] == l[i - 1]);
    }
    forall id | id in m ensures m[id] in t {
      assert m[id] in l;
    }
    assert t[0] == e;
  }

  class MessageTracer {
    const cap: nat
    var lru: seq<TracingSession>
    var lut: map<Id, TracingSession>

    /** List and map agree, and the list is within its capacity. */
    ghost predicate Valid()
      reads this
    {
      1 <= cap && |lru| <= cap && Listed(lru, lut)
    }

    ghost function Contents(): seq<Session>
      reads this, lru
    {
      seq(|lru|, i requires 0 <= i < |lru| reads this, lru => Session(lru[i].id, lru[i].records))
    }

    constructor (cap: nat)
      requires cap >= 1
      ensures Valid() && Contents() == [] && this.cap == cap
    {
      this.cap := cap;
      lru, lut := [], map[];
    }

    lemma FindInContents(id: Id)
      requires Valid()
      ensures Has(Contents(), id) <==> id in lut
      ensures id in lut ==> Find(Contents(), id) == Position(lru, lut[id]) < |lru|
    {
      if id in lut {
        var i := Position(lru, lut[id]);
        assert Contents()[i].id == id;
      }
    }

    /** list.MoveToFront. */
    method MoveToFront(i: nat)
      requires Valid() && i < |lru|
      modifies this`lru
      ensures Valid() && lru == Moved(old(lru), i)
      ensures Contents() == [old(Contents())[i]] + Without(old(Contents()), i)
    {
      ghost var l, c := lru, Contents();
      MovedIsListed(l, lut, i);
      lru := [lru[i]] + lru[..i] + lru[i + 1..];
      ghost var want := [c[i]] + Without(c, i);
      forall j | 0 <= j < |l| ensures Contents()[j] == want[j] {
        MovedAt(l, i, j);
        WithoutAt(c, i, j);
      }
      assert Contents() == want;
    }

    /** list.Remove and delete, together. */
    method RemoveAt(i: nat) returns (e: TracingSession)
      requires Valid() && i < |lru|
      modifies this`lru, this`lut
      ensures Valid() && e == old(lru)[i] && lru == Removed(old(lru), i)
      ensures lut == old(lut) - {e.id} && Contents() == Without(old(Contents()), i)
    {
      RemovedIsListed(lru, lut, i);
      e := lru[i];
      lru := lru[..i] + lru[i + 1..];
      lut := lut - {e.id};
    }

    /** list.PushFront and the map entry, together. */
    method PushFront(e: TracingSession)
      requires Valid() && e.id !in lut && |lru| < cap
      modifies this`lru, this`lut
      ensures Valid() && lru == [e] + old(lru) && lut == old(lut)[e.id := e]
      ensures Contents() == [Session(e.id, e.records)] + old(Contents())
    {
      PushedIsListed(lru, lut, e);
      lru := [e] + lru;
      lut := lut[e.id := e];
    }

    /** Appending to the records of a listed session. */
    method Append(i: nat, r: Record)
      requires Valid() && i < |lru|
      modifies lru[i]
      ensures Valid()
      ensures Contents() == old(Contents())[i := Session(old(lru[i].id), old(lru[i].records) + [r])]
    {
      lru[i].records := lru[i].records + [r];
    }

    /** tracedMessageRecord.Handle, alone. */
    method HandleRecord(id: Id, r: Record)
      requires Valid()
      modifies this`lru, this`lut, lru
      ensures Valid() && fresh(set e | e in lru && e !in old(lru))
      ensures Contents() == Touch(old(Contents()), cap, id, r)
    {
      FindInContents(id);
      if id in lut {
        var i := Position(lru, lut[id]);
        Append(i, r);
        MoveToFront(i);
      } else {
        var session := new TracingSession(id, r);
        if |lru| >= cap {
          var oldest := RemoveAt(|lru| - 1);
        }
        PushFront(session);
      }
    }

    /** What a whole list of sessions holds, front to back. */
    method Collect(taken: seq<TracingSession>, ghost c: seq<Session>) returns (records: seq<Record>)
      requires |c| == |taken| && forall i :: 0 <= i < |c| ==> c[i].records == taken[i].records
      ensures records == Records(c)
    {
      records := [];
      for i := 0 to |taken|
        invariant records + Records(c[i..]) == Records(c)
      {
        assert c[i..][0] == c[i] && c[i..][1..] == c[i + 1..];
        records := records + taken[i].records;
      }
    }

    /** readTracedMsg.Handle, alone. */
    method HandleRead(id: Id) returns (records: seq<Record>)
      requires Valid()
      modifies this`lru, this`lut
      ensures Valid()
      ensures records == Records(Taken(old(Contents()), id))
      ensures Contents() == Left(old(Contents()), id)
    {
      FindInContents(id);
      records := [];
      if id.uuid == 0 {
        var taken := lru;
        ghost var c := Contents();
        lru, lut := [], map[];
        records := Collect(taken, c);
      } else if id in lut {
        var i := Position(lru, lut[id]);
        var elem := RemoveAt(i);
        records := elem.records;
        assert old(Contents())[i].records == records;
      }
    }
  }
}
