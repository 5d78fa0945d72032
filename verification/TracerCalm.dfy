/** When the interleaved handlers of the tracer amount to handlers one at a time.

  When no two handlers of one id overlap while a record is on its way, they do exactly if
  no session is evicted that a handler has found.  Otherwise even handlers of different
  ids can leave a list that no order of them leaves. */
module TracerCalm {
  import opened Collections
  import opened Tracer
  import opened TracerRaces
  import opened TracerFates

  // ----- Calm runs -----

  /** The handler has a record of this id on its way. */
  predicate Concerns(t: Shared, h: nat, id: Id) {
    h in t.handlers &&
    match t.handlers[h]
    case Found(e, _) => e < |t.mem| && t.mem[e].id == id
    case Missed(i, _) => i == id
    case Appended(e, _) => e < |t.mem| && t.mem[e].id == id
    case Reading(_) => false
  }

  predicate Carries(t: Shared, h: nat) {
    h in t.handlers && !t.handlers[h].Reading?
  }

  /** The handler has found this element. */
  predicate OnElement(t: Shared, h: nat, e: nat) {
    h in t.handlers && ((t.handlers[h].Found? && t.handlers[h].e == e)
        || (t.handlers[h].Appended? && t.handlers[h].e == e))
  }

  ghost predicate NoneOn(t: Shared, e: nat) {
    forall g: nat :: !OnElement(t, g, e)
  }

  /** No handler of an id begins while another has a record of that id on its way. */
  ghost predicate ApartAct(t: Shared, a: Act) {
    match a
    case Lookup(h, id, _) => h !in t.handlers ==> forall g: nat :: !Concerns(t, g, id)
    case Detach(h, id) => h !in t.handlers ==> forall g: nat :: Carries(t, g) ==> id.uuid != 0 && !Concerns(t, g, id)
    case _ => true
  }

  /** No session is evicted that a handler has found. */
  ghost predicate SparesFound(cap: nat, t: Shared, a: Act) {
    a.Insert? && a.h in t.handlers && t.handlers[a.h].Missed? && |t.lru| >= cap && t.lru != []
    ==> NoneOn(t, t.lru[|t.lru| - 1])
  }

  ghost predicate CalmAct(cap: nat, t: Shared, a: Act) {
    ApartAct(t, a) && SparesFound(cap, t, a)
  }

  ghost predicate Apart(cap: nat, acts: seq<Act>) {
    acts != [] ==> Apart(cap, acts[..|acts| - 1]) && ApartAct(Race(cap, acts[..|acts| - 1]), acts[|acts| - 1])
  }

  ghost predicate Calm(cap: nat, acts: seq<Act>) {
    acts != [] ==> Calm(cap, acts[..|acts| - 1]) && CalmAct(cap, Race(cap, acts[..|acts| - 1]), acts[|acts| - 1])
  }

  /** What each critical section amounts to: a record counts when its session moves to the
      front or is inserted, a read when it detaches. */
  function OpOf(t: Shared, a: Act): seq<Op> {
    match a
    case Move(h) =>
      if h in t.handlers && t.handlers[h].Appended? && t.handlers[h].e < |t.mem|
      then [Trace(t.mem[t.handlers[h].e].id, t.handlers[h].r)] else []
    case Insert(h) =>
      if h in t.handlers && t.handlers[h].Missed? then [Trace(t.handlers[h].id, t.handlers[h].r)] else []
    case Detach(h, id) => if h in t.handlers then [] else [Read(id)]
    case _ => []
  }

  function Linear(cap: nat, acts: seq<Act>): seq<Op> {
    if acts == [] then []
    else Linear(cap, acts[..|acts| - 1]) + OpOf(Race(cap, acts[..|acts| - 1]), acts[|acts| - 1])
  }

  // ----- The list as it counts so far -----

  function Pend(handlers: map<nat, Handler>): set<nat> {
    set h | h in handlers && handlers[h].Appended? :: handlers[h].e
  }

  ghost predicate Within(lru: seq<nat>, mem: seq<Session>) {
    forall i :: 0 <= i < |lru| ==> lru[i] < |mem|
  }

  function Seen(mem: seq<Session>, pend: set<nat>, e: nat): Session
    requires e < |mem|
  {
    var s := mem[e];
    if e in pend && s.records != [] then Session(s.id, s.records[..|s.records| - 1]) else s
  }

  /** The sessions without the records that were appended by handlers still to move them. */
  function View(lru: seq<nat>, mem: seq<Session>, pend: set<nat>): (c: seq<Session>)
    requires Within(lru, mem)
    ensures |c| == |lru| && forall i :: 0 <= i < |c| ==> c[i] == Seen(mem, pend, lru[i])
  {
    seq(|lru|, i requires 0 <= i < |lru| => Seen(mem, pend, lru[i]))
  }

  function Contents(t: Shared): (c: seq<Session>)
    requires Within(t.lru, t.mem)
    ensures |c| == |t.lru| && forall i :: 0 <= i < |c| ==> c[i] == t.mem[t.lru[i]]
  {
    seq(|t.lru|, i requires 0 <= i < |t.lru| => t.mem[t.lru[i]])
  }

  ghost predicate HandlerOk(t: Shared, hd: Handler) {
    match hd
    case Found(e, _) => e in t.lru
    case Missed(id, _) => id !in t.lut
    case Appended(e, r) =>
      && e in t.lru && e < |t.mem|
      && var n := |t.mem[e].records|; n >= 2 && t.mem[e].records[n - 1] == r
    case Reading(_) => true
  }

  ghost predicate HandlersOk(t: Shared) {
    && (forall h :: h in t.handlers ==> HandlerOk(t, t.handlers[h]))
    && (forall g: nat, h: nat, id :: Concerns(t, g, id) && Concerns(t, h, id) ==> g == h)
  }

  ghost predicate CalmInv(cap: nat, t: Shared) {
    && Inv(cap, t) && AllMapped(t) && HandlersOk(t)
    && forall e :: 0 <= e < |t.mem| ==> t.mem[e].records != []
  }

  lemma ListedMade(t: Shared, e: nat)
    requires Listed(t) && e in t.lru
    ensures e < |t.mem|
  {
  }

  /** One element, one handler on its way. */
  lemma OneOnElement(cap: nat, t: Shared, g: nat, h: nat, e: nat)
    requires CalmInv(cap, t) && OnElement(t, g, e) && OnElement(t, h, e)
    ensures g == h && e < |t.mem|
  {
    assert HandlerOk(t, t.handlers[g]);
    ListedMade(t, e);
    assert Concerns(t, g, t.mem[e].id) && Concerns(t, h, t.mem[e].id);
  }

  lemma ViewDistinct(cap: nat, t: Shared)
    requires Inv(cap, t) && AllMapped(t)
    ensures Distinct(View(t.lru, t.mem, Pend(t.handlers)))
  {
    MappedOnce(cap, t);
  }

  lemma ViewFind(cap: nat, t: Shared, i: nat)
    requires Inv(cap, t) && AllMapped(t) && i < |t.lru|
    ensures Find(View(t.lru, t.mem, Pend(t.handlers)), t.mem[t.lru[i]].id) == i
  {
    ViewDistinct(cap, t);
    FindIs(View(t.lru, t.mem, Pend(t.handlers)), i);
  }

  lemma ViewMisses(t: Shared, id: Id)
    requires Listed(t) && AllMapped(t) && id !in t.lut
    ensures !Has(View(t.lru, t.mem, Pend(t.handlers)), id)
  {
    var c := View(t.lru, t.mem, Pend(t.handlers));
    forall i | 0 <= i < |c| ensures c[i].id != id {
      assert t.lru[i] in t.lru;
    }
  }

  // ----- What each critical section does to the view -----

  lemma LookupView(cap: nat, t: Shared, h: nat, hd: Handler)
    requires h !in t.handlers && !hd.Appended?
    ensures Pend(t.handlers[h := hd]) == Pend(t.handlers)
  {
    var u := t.handlers[h := hd];
    forall e | e in Pend(t.handlers) ensures e in Pend(u) {
      var g :| g in t.handlers && t.handlers[g].Appended? && t.handlers[g].e == e;
      assert g in u && u[g].Appended? && u[g].e == e;
    }
  }

  lemma PendAfterAppend(handlers: map<nat, Handler>, h: nat, e: nat, r: Record)
    requires h in handlers && !handlers[h].Appended?
    ensures Pend(handlers[h := Appended(e, r)]) == Pend(handlers) + {e}
  {
    var u := handlers[h := Appended(e, r)];
    assert h in u && u[h].Appended? && u[h].e == e;
    forall x | x in Pend(handlers) ensures x in Pend(u) {
      var g :| g in handlers && handlers[g].Appended? && handlers[g].e == x;
      assert g in u && u[g].Appended? && u[g].e == x;
    }
  }

  lemma NotPending(cap: nat, t: Shared, h: nat, e: nat)
    requires CalmInv(cap, t) && OnElement(t, h, e) && t.handlers[h].Found?
    ensures e !in Pend(t.handlers)
  {
    if e in Pend(t.handlers) {
      var g :| g in t.handlers && t.handlers[g].Appended? && t.handlers[g].e == e;
      OneOnElement(cap, t, g, h, e);
    }
  }

  lemma AppendView(cap: nat, t: Shared, h: nat, e: nat, r: Record)
    requires CalmInv(cap, t) && h in t.handlers && t.handlers[h] == Found(e, r) && e < |t.mem|
    ensures View(t.lru, AppendAt(t.mem, e, r), Pend(t.handlers[h := Appended(e, r)]))
            == View(t.lru, t.mem, Pend(t.handlers))
  {
    NotPending(cap, t, h, e);
    PendAfterAppend(t.handlers, h, e, r);
    var mem := AppendAt(t.mem, e, r);
    assert mem[e].records[..|mem[e].records| - 1] == t.mem[e].records;
  }

  lemma PendAfterMove(cap: nat, t: Shared, h: nat, e: nat)
    requires CalmInv(cap, t) && h in t.handlers && t.handlers[h].Appended? && t.handlers[h].e == e
    ensures Pend(t.handlers - {h}) == Pend(t.handlers) - {e} && e in Pend(t.handlers)
  {
    var u := t.handlers - {h};
    forall x | x in Pend(t.handlers) && x != e ensures x in Pend(u) {
      var g :| g in t.handlers && t.handlers[g].Appended? && t.handlers[g].e == x;
      assert g in u && u[g].Appended? && u[g].e == x;
    }
    if e in Pend(u) {
      var g :| g in u && u[g].Appended? && u[g].e == e;
      OneOnElement(cap, t, g, h, e);
    }
  }

  /** Where the elements of the list are after the move, and the sessions after the touch. */
  lemma MovedAt(lru: seq<nat>, c: seq<Session>, e: nat, cap: nat, id: Id, r: Record, k: nat)
    requires NoneTwice(lru) && e in lru && |c| == |lru| && Find(c, id) == Position(lru, e) && 0 < k < |lru|
    ensures var i := Position(lru, e);
            var j := if k <= i then k - 1 else k;
            && |ToFront(lru, e)| == |lru| && ToFront(lru, e)[k] == lru[j] != e
            && |Touch(c, cap, id, r)| == |lru| && Touch(c, cap, id, r)[k] == c[j]
  {
    ToFrontAt(lru, e, k);
    assert Touch(c, cap, id, r)[k] == Without(c, Position(lru, e))[k - 1];
  }

  lemma MovedFirst(lru: seq<nat>, mem: seq<Session>, pend: set<nat>, e: nat, r: Record, cap: nat, c: seq<Session>)
    requires Within(lru, mem) && c == View(lru, mem, pend) && e in lru && e in pend && e < |mem|
    requires var rs := mem[e].records; |rs| >= 2 && rs[|rs| - 1] == r
    requires Find(c, mem[e].id) == Position(lru, e)
    ensures |Touch(c, cap, mem[e].id, r)| == |lru| && Touch(c, cap, mem[e].id, r)[0] == mem[e]
    ensures |ToFront(lru, e)| == |lru| && ToFront(lru, e)[0] == e
  {
    var rs := mem[e].records;
    assert rs[..|rs| - 1] + [r] == rs;
    assert c[Position(lru, e)] == Seen(mem, pend, e);
  }

  lemma MovedView(lru: seq<nat>, mem: seq<Session>, pend: set<nat>, e: nat, r: Record, cap: nat)
    requires Within(lru, mem) && NoneTwice(lru) && e in lru && e in pend && e < |mem|
    requires var rs := mem[e].records; |rs| >= 2 && rs[|rs| - 1] == r
    requires Find(View(lru, mem, pend), mem[e].id) == Position(lru, e)
    ensures Within(ToFront(lru, e), mem)
    ensures View(ToFront(lru, e), mem, pend - {e}) == Touch(View(lru, mem, pend), cap, mem[e].id, r)
  {
    var c, id, l := View(lru, mem, pend), mem[e].id, ToFront(lru, e);
    var t := Touch(c, cap, id, r);
    MovedFirst(lru, mem, pend, e, r, cap, c);
    forall k | 0 <= k < |l| ensures l[k] < |mem| && Seen(mem, pend - {e}, l[k]) == t[k] {
      if k > 0 {
        MovedAt(lru, c, e, cap, id, r, k);
      }
    }
    SameView(l, mem, pend - {e}, t);
  }

  lemma SameView(lru: seq<nat>, mem: seq<Session>, pend: set<nat>, t: seq<Session>)
    requires Within(lru, mem) && |t| == |lru| && forall k :: 0 <= k < |lru| ==> Seen(mem, pend, lru[k]) == t[k]
    ensures View(lru, mem, pend) == t
  {
  }

  lemma MoveView(cap: nat, t: Shared, h: nat, e: nat, r: Record)
    requires CalmInv(cap, t) && h in t.handlers && t.handlers[h] == Appended(e, r)
    ensures e < |t.mem| && Within(ToFront(t.lru, e), t.mem)
    ensures View(ToFront(t.lru, e), t.mem, Pend(t.handlers - {h}))
         == Touch(View(t.lru, t.mem, Pend(t.handlers)), cap, t.mem[e].id, r)
  {
    assert HandlerOk(t, t.handlers[h]);
    PendAfterMove(cap, t, h, e);
    ViewFind(cap, t, Position(t.lru, e));
    MovedView(t.lru, t.mem, Pend(t.handlers), e, r, cap);
  }

  lemma PendListed(t: Shared, e: nat)
    requires HandlersOk(t) && e in Pend(t.handlers)
    ensures e in t.lru
  {
    var g :| g in t.handlers && t.handlers[g].Appended? && t.handlers[g].e == e;
    assert HandlerOk(t, t.handlers[g]);
  }

  lemma NewView(lru: seq<nat>, mem: seq<Session>, pend: set<nat>, id: Id, r: Record)
    requires Within(lru, mem) && |mem| !in pend
    ensures Within([|mem|] + lru, mem + [Session(id, [r])])
    ensures View([|mem|] + lru, mem + [Session(id, [r])], pend) == [Session(id, [r])] + View(lru, mem, pend)
  {
    var l, mem' := [|mem|] + lru, mem + [Session(id, [r])];
    var t := [Session(id, [r])] + View(lru, mem, pend);
    forall k | 0 <= k < |l| ensures l[k] < |mem'| && Seen(mem', pend, l[k]) == t[k] {
      assert l[k] == if k == 0 then |mem| else lru[k - 1];
    }
    SameView(l, mem', pend, t);
  }

  lemma FrontView(lru: seq<nat>, mem: seq<Session>, pend: set<nat>, n: nat)
    requires Within(lru, mem) && n <= |lru|
    ensures Within(lru[..n], mem) && View(lru[..n], mem, pend) == View(lru, mem, pend)[..n]
  {
  }

  lemma InsertView(cap: nat, t: Shared, h: nat, id: Id, r: Record)
    requires cap >= 1 && CalmInv(cap, t) && h in t.handlers && t.handlers[h] == Missed(id, r)
    ensures var u := InsertNew(Evict(t, cap), id, r);
            && Within(u.lru, u.mem)
            && View(u.lru, u.mem, Pend(t.handlers - {h})) == Touch(View(t.lru, t.mem, Pend(t.handlers)), cap, id, r)
  {
    assert HandlerOk(t, t.handlers[h]);
    ViewMisses(t, id);
    PendWithout(t.handlers, h);
    var pend := Pend(t.handlers);
    if |t.mem| in pend {
      PendListed(t, |t.mem|);
    }
    var kept := if |t.lru| >= cap then |t.lru| - 1 else |t.lru|;
    FrontView(t.lru, t.mem, pend, kept);
    NewView(t.lru[..kept], t.mem, pend, id, r);
    assert t.lru[..|t.lru|] == t.lru && View(t.lru, t.mem, pend)[..|t.lru|] == View(t.lru, t.mem, pend);
    assert Evict(t, cap).lru == t.lru[..kept];
  }

  lemma PendWithout(handlers: map<nat, Handler>, h: nat)
    requires h in handlers && !handlers[h].Appended?
    ensures Pend(handlers - {h}) == Pend(handlers)
  {
    forall e | e in Pend(handlers) ensures e in Pend(handlers - {h}) {
      var g :| g in handlers && handlers[g].Appended? && handlers[g].e == e;
      assert g in handlers - {h} && (handlers - {h})[g].Appended?;
    }
  }

  lemma DropView(lru: seq<nat>, mem: seq<Session>, pend: set<nat>, i: nat)
    requires Within(lru, mem) && i < |lru|
    ensures Within(Drop(lru, i), mem) && View(Drop(lru, i), mem, pend) == Without(View(lru, mem, pend), i)
  {
  }

  lemma DetachOneView(cap: nat, t: Shared, h: nat, id: Id)
    requires Inv(cap, t) && AllMapped(t) && h !in t.handlers && id in t.lut && id.uuid != 0
    ensures var u := DetachOne(t, h, id);
            && Within(u.lru, u.mem)
            && View(u.lru, u.mem, Pend(u.handlers)) == Left(View(t.lru, t.mem, Pend(t.handlers)), id)
  {
    LookupView(cap, t, h, Reading([t.lut[id]]));
    assert t.lut[id] in t.lru;
    var i := Position(t.lru, t.lut[id]);
    ViewFind(cap, t, i);
    DropView(t.lru, t.mem, Pend(t.handlers), i);
  }

  lemma DetachView(cap: nat, t: Shared, h: nat, id: Id)
    requires Inv(cap, t) && AllMapped(t) && h !in t.handlers
    ensures var u := DetachOf(t, h, id);
            && Within(u.lru, u.mem)
            && View(u.lru, u.mem, Pend(u.handlers)) == Left(View(t.lru, t.mem, Pend(t.handlers)), id)
  {
    if id.uuid != 0 {
      if id in t.lut {
        DetachOneView(cap, t, h, id);
      } else {
        ViewMisses(t, id);
      }
    }
  }

  // ----- Calm runs stay calm inside -----

  /** The others stand as they did, and the one that acted shares its id with none. */
  lemma OthersOk(t: Shared, u: Shared, h: nat)
    requires Listed(t) && HandlersOk(t)
    requires forall e :: 0 <= e < |t.mem| ==> e < |u.mem| && u.mem[e].id == t.mem[e].id
    requires forall g: nat :: g in u.handlers && g != h ==> g in t.handlers && t.handlers[g] == u.handlers[g]
    requires forall g: nat :: g in u.handlers ==> HandlerOk(u, u.handlers[g])
    requires forall g: nat, id :: Concerns(u, h, id) && Concerns(u, g, id) ==> g == h
    ensures HandlersOk(u)
  {
    forall g: nat, id | Concerns(u, g, id) && g != h ensures Concerns(t, g, id) {
      assert HandlerOk(t, t.handlers[g]);
    }
  }

  lemma LookupCalm(cap: nat, t: Shared, h: nat, id: Id, r: Record)
    requires CalmInv(cap, t) && h !in t.handlers && CalmAct(cap, t, Lookup(h, id, r))
    ensures CalmInv(cap, Do(cap, t, Lookup(h, id, r)))
  {
    var u := Do(cap, t, Lookup(h, id, r));
    forall g: nat, k | Concerns(u, h, k) && Concerns(u, g, k) ensures g == h {
      assert k == id;
      if g != h { assert Concerns(t, g, id); }
    }
    forall g: nat | g in u.handlers ensures HandlerOk(u, u.handlers[g]) {
      if g != h { assert HandlerOk(t, t.handlers[g]); }
    }
    OthersOk(t, u, h);
  }

  lemma AppendCalm(cap: nat, t: Shared, h: nat, e: nat, r: Record)
    requires CalmInv(cap, t) && h in t.handlers && t.handlers[h] == Found(e, r) && e < |t.mem|
    ensures CalmInv(cap, Do(cap, t, Append(h)))
  {
    var u := Do(cap, t, Append(h));
    assert HandlerOk(t, t.handlers[h]);
    forall g: nat | g in u.handlers ensures HandlerOk(u, u.handlers[g]) {
      assert HandlerOk(t, t.handlers[g]);
      if g != h && u.handlers[g].Appended? && u.handlers[g].e == e {
        OneOnElement(cap, t, g, h, e);
      }
    }
    forall g: nat, k | Concerns(u, h, k) && Concerns(u, g, k) ensures g == h {
      assert HandlerOk(t, t.handlers[g]);
      assert Concerns(t, h, k) && Concerns(t, g, k);
    }
    OthersOk(t, u, h);
    forall x | x in u.lru && x < |u.mem| ensures u.mem[x].id in u.lut && u.lut[u.mem[x].id] == x {
      assert x in t.lru;
    }
  }

  lemma MoveOtherOk(t: Shared, u: Shared, e: nat, hd: Handler)
    requires NoneTwice(t.lru) && HandlerOk(t, hd)
    requires u.lru == ToFront(t.lru, e) && u.lut == t.lut && u.mem == t.mem
    ensures HandlerOk(u, hd)
  {
    ToFrontKeeps(t.lru, e);
  }

  lemma MoveCalm(cap: nat, t: Shared, h: nat)
    requires CalmInv(cap, t) && h in t.handlers && t.handlers[h].Appended?
    ensures CalmInv(cap, Do(cap, t, Move(h)))
  {
    var u, e := Do(cap, t, Move(h)), t.handlers[h].e;
    MoveKeeps(cap, t, e);
    MoveKeepsMapped(t, e);
    forall g: nat | g in u.handlers ensures HandlerOk(u, u.handlers[g]) {
      MoveOtherOk(t, u, e, t.handlers[g]);
    }
    OthersOk(t, u, h);
  }

  lemma EvictOtherOk(cap: nat, t: Shared, g: nat)
    requires CalmInv(cap, t) && g in t.handlers && (|t.lru| >= cap && t.lru != [] ==> NoneOn(t, t.lru[|t.lru| - 1]))
    ensures HandlerOk(Evict(t, cap), t.handlers[g])
  {
    var u := Evict(t, cap);
    assert HandlerOk(t, t.handlers[g]);
    if u != t && (t.handlers[g].Found? || t.handlers[g].Appended?) {
      var e := t.handlers[g].e;
      assert OnElement(t, g, e);
      var i :| 0 <= i < |t.lru| && t.lru[i] == e;
      assert u.lru[i] == e;
    }
  }

  /** Making room leaves every found element where it is. */
  lemma EvictCalm(cap: nat, t: Shared, h: nat)
    requires cap >= 1 && CalmInv(cap, t) && CalmAct(cap, t, Insert(h)) && h in t.handlers && t.handlers[h].Missed?
    ensures CalmInv(cap, Evict(t, cap)) && |Evict(t, cap).lru| < cap
  {
    EvictKeeps(cap, t);
    EvictKeepsMapped(cap, t);
    var u := Evict(t, cap);
    forall g: nat | g in u.handlers ensures HandlerOk(u, u.handlers[g]) {
      EvictOtherOk(cap, t, g);
    }
    forall g: nat, k: nat, id | Concerns(u, g, id) && Concerns(u, k, id) ensures g == k {
      assert Concerns(t, g, id) && Concerns(t, k, id);
    }
  }

  lemma InsertOtherOk(cap: nat, t: Shared, h: nat, id: Id, r: Record, g: nat)
    requires CalmInv(cap, t) && h in t.handlers && t.handlers[h] == Missed(id, r) && g in t.handlers && g != h
    ensures HandlerOk(InsertNew(t, id, r).(handlers := t.handlers - {h}), t.handlers[g])
  {
    var u := InsertNew(t, id, r);
    assert HandlerOk(t, t.handlers[g]);
    assert u.lru[1..] == t.lru;
    match t.handlers[g]
    case Missed(k, _) => assert Concerns(t, h, id) && Concerns(t, g, k);
    case Found(e, _) => ListedMade(t, e);
    case Appended(e, _) => ListedMade(t, e);
    case Reading(_) =>
  }

  lemma InsertNewCalm(cap: nat, t: Shared, h: nat, id: Id, r: Record)
    requires CalmInv(cap, t) && |t.lru| < cap && h in t.handlers && t.handlers[h] == Missed(id, r)
    ensures CalmInv(cap, InsertNew(t, id, r).(handlers := t.handlers - {h}))
  {
    var u := InsertNew(t, id, r).(handlers := t.handlers - {h});
    assert HandlerOk(t, t.handlers[h]);
    InsertKeeps(cap, t, id, r);
    InsertKeepsMapped(cap, t, id, r);
    forall g: nat | g in u.handlers ensures HandlerOk(u, u.handlers[g]) {
      InsertOtherOk(cap, t, h, id, r, g);
    }
    OthersOk(t, u, h);
  }

  lemma DetachLeaves(t: Shared, h: nat, id: Id, e: nat)
    requires Listed(t) && Mapped(t) && e in t.lru && e < |t.mem| && t.mem[e].id != id && id.uuid != 0
    ensures e in DetachOf(t, h, id).lru
  {
    if id in t.lut {
      assert t.mem[t.lut[id]].id == id;
      DroppedList(t.lru, Position(t.lru, t.lut[id]));
    }
  }

  lemma DetachOtherOk(cap: nat, t: Shared, h: nat, id: Id, hd: Handler)
    requires CalmInv(cap, t) && HandlerOk(t, hd) && id.uuid != 0
    requires (hd.Found? && hd.e < |t.mem| ==> t.mem[hd.e].id != id)
             && (hd.Appended? && hd.e < |t.mem| ==> t.mem[hd.e].id != id)
    ensures HandlerOk(DetachOf(t, h, id), hd)
  {
    match hd
    case Found(e, _) =>
      ListedMade(t, e);
      DetachLeaves(t, h, id, e);
    case Appended(e, _) =>
      ListedMade(t, e);
      DetachLeaves(t, h, id, e);
    case _ =>
  }

  lemma DetachCalm(cap: nat, t: Shared, h: nat, id: Id)
    requires CalmInv(cap, t) && h !in t.handlers && CalmAct(cap, t, Detach(h, id))
    ensures CalmInv(cap, DetachOf(t, h, id))
  {
    DetachKeeps(cap, t, h, id);
    DetachKeepsMapped(cap, t, h, id);
    var u := DetachOf(t, h, id);
    forall g: nat | g in u.handlers ensures HandlerOk(u, u.handlers[g]) {
      if g in t.handlers {
        assert HandlerOk(t, t.handlers[g]) && (Carries(t, g) ==> id.uuid != 0 && !Concerns(t, g, id));
        if Carries(t, g) { DetachOtherOk(cap, t, h, id, t.handlers[g]); }
      }
    }
    OthersOk(t, u, h);
  }

  lemma CollectCalm(cap: nat, t: Shared, h: nat, es: seq<nat>)
    requires CalmInv(cap, t) && h in t.handlers && t.handlers[h] == Reading(es)
    ensures CalmInv(cap, CollectOf(t, h, es)) && Pend(CollectOf(t, h, es).handlers) == Pend(t.handlers)
  {
    var u := CollectOf(t, h, es);
    forall g: nat | g in u.handlers ensures HandlerOk(u, u.handlers[g]) {
      assert HandlerOk(t, t.handlers[g]);
    }
    OthersOk(t, u, h);
    CollectPend(t, h, es);
  }

  lemma CollectPend(t: Shared, h: nat, es: seq<nat>)
    requires h in t.handlers && t.handlers[h] == Reading(es)
    ensures Pend(CollectOf(t, h, es).handlers) == Pend(t.handlers)
  {
    var u := CollectOf(t, h, es).handlers;
    forall e | e in Pend(t.handlers) ensures e in Pend(u) {
      var g :| g in t.handlers && t.handlers[g].Appended? && t.handlers[g].e == e;
      assert g in u && u[g].Appended? && u[g].e == e;
    }
  }

  // ----- Calm runs are runs of handlers one at a time -----

  /** The list, as it counts so far, is this one. */
  ghost predicate Shows(t: Shared, c: seq<Session>) {
    Within(t.lru, t.mem) && View(t.lru, t.mem, Pend(t.handlers)) == c
  }

  ghost predicate Counts(cap: nat, t: Shared, c: seq<Session>) {
    CalmInv(cap, t) && Shows(t, c)
  }

  function Apply(cap: nat, c: seq<Session>, op: Op): seq<Session> {
    match op
    case Trace(id, r) => Touch(c, cap, id, r)
    case Read(id) => Left(c, id)
  }

  function ApplyAll(cap: nat, c: seq<Session>, ops: seq<Op>): seq<Session>
    requires |ops| <= 1
  {
    if ops == [] then c else Apply(cap, c, ops[0])
  }

  lemma ActCounts(cap: nat, t: Shared, a: Act, c: seq<Session>)
    requires cap >= 1 && Counts(cap, t, c) && CalmAct(cap, t, a)
    ensures Counts(cap, Do(cap, t, a), ApplyAll(cap, c, OpOf(t, a)))
  {
    match a
    case Lookup(h, id, r) =>
      if h !in t.handlers {
        LookupCalm(cap, t, h, id, r);
        LookupView(cap, t, h, Do(cap, t, a).handlers[h]);
      }
    case Append(h) =>
      if h in t.handlers && t.handlers[h].Found? && t.handlers[h].e < |t.mem| {
        AppendCalm(cap, t, h, t.handlers[h].e, t.handlers[h].r);
        AppendView(cap, t, h, t.handlers[h].e, t.handlers[h].r);
      }
    case Move(h) =>
      if h in t.handlers && t.handlers[h].Appended? {
        MoveCalm(cap, t, h);
        MoveView(cap, t, h, t.handlers[h].e, t.handlers[h].r);
      }
    case Insert(h) =>
      if h in t.handlers && t.handlers[h].Missed? {
        EvictCalm(cap, t, h);
        InsertNewCalm(cap, Evict(t, cap), h, t.handlers[h].id, t.handlers[h].r);
        InsertView(cap, t, h, t.handlers[h].id, t.handlers[h].r);
      }
    case Detach(h, id) =>
      if h !in t.handlers {
        DetachCalm(cap, t, h, id);
        DetachView(cap, t, h, id);
      }
    case Collect(h) =>
      if h in t.handlers && t.handlers[h].Reading? { CollectCalm(cap, t, h, t.handlers[h].es); }
  }

  lemma RunMore(cap: nat, ops: seq<Op>, more: seq<Op>)
    requires |more| <= 1
    ensures Run(cap, ops + more).c == ApplyAll(cap, Run(cap, ops).c, more)
  {
    if more == [] {
      assert ops + more == ops;
    } else {
      assert (ops + more)[..|ops + more| - 1] == ops;
    }
  }

  lemma {:induction false} CalmCounts(cap: nat, acts: seq<Act>)
    requires cap >= 1 && Calm(cap, acts)
    ensures Counts(cap, Race(cap, acts), Run(cap, Linear(cap, acts)).c)
  {
    if acts != [] {
      var init, a := acts[..|acts| - 1], acts[|acts| - 1];
      CalmCounts(cap, init);
      ActCounts(cap, Race(cap, init), a, Run(cap, Linear(cap, init)).c);
      RunMore(cap, Linear(cap, init), OpOf(Race(cap, init), a));
    }
  }

  /** Every calm run leaves, whenever no handler is under way, the sessions that the same
      handlers leave one at a time, in the order in which each inserted, moved or detached. */
  lemma CalmIsRun(cap: nat, acts: seq<Act>)
    requires cap >= 1 && Calm(cap, acts) && Race(cap, acts).handlers == map[]
    ensures var t := Race(cap, acts); Within(t.lru, t.mem) && Contents(t) == Run(cap, Linear(cap, acts)).c
  {
    CalmCounts(cap, acts);
  }

  // ----- Exactly when handlers of different ids amount to handlers one at a time -----

  /** After these steps the list, as it counts so far, is what the operations leave. */
  ghost predicate CountsAt(cap: nat, acts: seq<Act>, k: nat)
    requires k <= |acts|
  {
    Shows(Race(cap, acts[..k]), Run(cap, Linear(cap, acts[..k])).c)
  }

  /** Handler g has found element e, which is not listed, nor is another one with its id,
      and no other handler concerns that id. */
  ghost predicate Orphan(t: Shared, g: nat, e: nat) {
    && OnElement(t, g, e) && e < |t.mem|
    && (forall x :: x in t.lru && x < |t.mem| ==> t.mem[x].id != t.mem[e].id)
    && (forall f: nat :: f != g ==> !Concerns(t, f, t.mem[e].id))
  }

  lemma EvictedIsOrphan(cap: nat, t: Shared, h: nat, g: nat)
    requires cap >= 1 && CalmInv(cap, t) && h in t.handlers && t.handlers[h].Missed? && |t.lru| >= cap && t.lru != []
    requires OnElement(t, g, t.lru[|t.lru| - 1])
    ensures Orphan(Do(cap, t, Insert(h)), g, t.lru[|t.lru| - 1])
  {
    var n := |t.lru| - 1;
    var u, e, id := Do(cap, t, Insert(h)), t.lru[n], t.handlers[h].id;
    assert Concerns(t, h, id) && Concerns(t, g, t.mem[e].id);
    MappedOnce(cap, t);
    forall x | x in u.lru ensures u.mem[x].id != t.mem[e].id {
      var i :| 0 <= i < |u.lru| && u.lru[i] == x;
      assert i > 0 ==> x == t.lru[i - 1];
    }
    forall f: nat | f != g ensures !Concerns(u, f, t.mem[e].id) {
      OthersConcern(cap, t, h, f, t.mem[e].id);
      assert !Concerns(t, f, t.mem[e].id);
    }
  }

  /** An insert gives no handler a record of another id. */
  lemma OthersConcern(cap: nat, t: Shared, h: nat, f: nat, id: Id)
    requires HandlersOk(t) && Listed(t) && h in t.handlers && t.handlers[h].Missed?
    ensures Concerns(Do(cap, t, Insert(h)), f, id) ==> Concerns(t, f, id)
  {
    if f in t.handlers {
      assert HandlerOk(t, t.handlers[f]);
    }
  }

  lemma InsertKeepsOrphan(cap: nat, t: Shared, h: nat, g: nat, e: nat)
    requires Inv(cap, t) && Orphan(t, g, e) && h in t.handlers && t.handlers[h].Missed?
    ensures Orphan(Do(cap, t, Insert(h)), g, e)
  {
    var u, id := Do(cap, t, Insert(h)), t.mem[e].id;
    assert t.handlers[h].id != id by {
      assert !Concerns(t, h, id);
    }
    forall x | x in u.lru && x < |u.mem| ensures u.mem[x].id != id {
      var i :| 0 <= i < |u.lru| && u.lru[i] == x;
      if i > 0 { assert x == t.lru[i - 1]; }
    }
    forall f: nat | f != g ensures !Concerns(u, f, id) {
      assert !Concerns(t, f, id);
    }
  }

  lemma DetachKeepsOrphan(cap: nat, t: Shared, h: nat, id: Id, g: nat, e: nat)
    requires Inv(cap, t) && Orphan(t, g, e) && h !in t.handlers
    ensures Orphan(DetachOf(t, h, id), g, e)
  {
    var u := DetachOf(t, h, id);
    forall x | x in u.lru ensures x in t.lru {
    }
    forall f: nat | f != g ensures !Concerns(u, f, t.mem[e].id) {
      assert !Concerns(t, f, t.mem[e].id);
    }
  }

  lemma MoveKeepsOrphan(cap: nat, t: Shared, h: nat, g: nat, e: nat)
    requires Inv(cap, t) && Orphan(t, g, e) && h in t.handlers && t.handlers[h].Appended? && h != g
    ensures Orphan(Do(cap, t, Move(h)), g, e)
  {
    ToFrontKeeps(t.lru, t.handlers[h].e);
    forall f: nat | f != g ensures !Concerns(Do(cap, t, Move(h)), f, t.mem[e].id) {
      assert !Concerns(t, f, t.mem[e].id);
    }
  }

  /** Concerns of the handlers that a step leaves alone stay, where ids are not changed. */
  lemma PlainKeepsOrphan(cap: nat, t: Shared, a: Act, g: nat, e: nat)
    requires Inv(cap, t) && Orphan(t, g, e) && ApartAct(t, a) && (a.Lookup? || a.Append? || a.Collect?)
    ensures Orphan(Do(cap, t, a), g, e)
  {
    var u, id := Do(cap, t, a), t.mem[e].id;
    assert Concerns(t, g, id);
    forall f: nat | f != g ensures !Concerns(u, f, id) {
      assert !Concerns(t, f, id);
    }
  }

  predicate MovesOn(t: Shared, a: Act, g: nat) {
    a == Move(g) && g in t.handlers && t.handlers[g].Appended?
  }

  lemma OrphanKept(cap: nat, t: Shared, a: Act, g: nat, e: nat)
    requires Inv(cap, t) && Orphan(t, g, e) && ApartAct(t, a) && !MovesOn(t, a, g)
    ensures Orphan(Do(cap, t, a), g, e)
  {
    match a
    case Insert(h) => if h in t.handlers && t.handlers[h].Missed? { InsertKeepsOrphan(cap, t, h, g, e); }
    case Detach(h, id) => if h !in t.handlers { DetachKeepsOrphan(cap, t, h, id, g, e); }
    case Move(h) => if h in t.handlers && t.handlers[h].Appended? { MoveKeepsOrphan(cap, t, h, g, e); }
    case _ => PlainKeepsOrphan(cap, t, a, g, e);
  }

  /** When its handler comes to move it, the list has not the id that handlers one at a
      time leave in front. */
  lemma OrphanMissed(cap: nat, t: Shared, a: Act, g: nat, e: nat, c: seq<Session>)
    requires Inv(cap, t) && Orphan(t, g, e) && MovesOn(t, a, g)
    ensures !Shows(Do(cap, t, a), ApplyAll(cap, c, OpOf(t, a)))
  {
    var u, id := Do(cap, t, a), t.mem[e].id;
    assert ApplyAll(cap, c, OpOf(t, a))[0].id == id;
    assert u.lru == t.lru;
    if t.lru != [] {
      assert t.lru[0] in t.lru;
    }
  }

  lemma EvictsFound(cap: nat, t: Shared, a: Act) returns (g: nat, e: nat)
    requires cap >= 1 && CalmInv(cap, t) && !SparesFound(cap, t, a)
    ensures Orphan(Do(cap, t, a), g, e)
  {
    e := t.lru[|t.lru| - 1];
    g :| OnElement(t, g, e);
    EvictedIsOrphan(cap, t, a.h, g);
  }

  lemma RaceMore(cap: nat, acts: seq<Act>, a: Act)
    ensures Race(cap, acts + [a]) == Do(cap, Race(cap, acts), a)
    ensures Linear(cap, acts + [a]) == Linear(cap, acts) + OpOf(Race(cap, acts), a)
  {
    assert (acts + [a])[..|acts|] == acts;
  }

  lemma GoesWrong(cap: nat, acts: seq<Act>, a: Act, g: nat, e: nat)
    requires cap >= 1 && Orphan(Race(cap, acts), g, e) && MovesOn(Race(cap, acts), a, g)
    ensures !CountsAt(cap, acts + [a], |acts| + 1)
  {
    assert (acts + [a])[..|acts| + 1] == acts + [a];
    AllInterleavings(cap, acts);
    OrphanMissed(cap, Race(cap, acts), a, g, e, Run(cap, Linear(cap, acts)).c);
    RaceMore(cap, acts, a);
    RunMore(cap, Linear(cap, acts), OpOf(Race(cap, acts), a));
  }

  /** A run of handlers apart is calm, or goes wrong at some step, or still has an element
      with which it will. */
  ghost predicate CalmOrWrong(cap: nat, acts: seq<Act>, k: nat, g: nat, e: nat) {
    Calm(cap, acts) || (k <= |acts| && !CountsAt(cap, acts, k)) || Orphan(Race(cap, acts), g, e)
  }

  lemma OrphanStep(cap: nat, acts: seq<Act>, a: Act, g: nat, e: nat) returns (k: nat)
    requires cap >= 1 && Orphan(Race(cap, acts), g, e) && ApartAct(Race(cap, acts), a)
    ensures (k == |acts| + 1 && !CountsAt(cap, acts + [a], k)) || Orphan(Do(cap, Race(cap, acts), a), g, e)
  {
    k := |acts| + 1;
    if MovesOn(Race(cap, acts), a, g) {
      GoesWrong(cap, acts, a, g, e);
    } else {
      AllInterleavings(cap, acts);
      OrphanKept(cap, Race(cap, acts), a, g, e);
    }
  }

  lemma {:induction false} ApartRuns(cap: nat, acts: seq<Act>) returns (k: nat, g: nat, e: nat)
    requires cap >= 1 && Apart(cap, acts)
    ensures CalmOrWrong(cap, acts, k, g, e)
  {
    k, g, e := 0, 0, 0;
    if acts != [] {
      var init, a := acts[..|acts| - 1], acts[|acts| - 1];
      assert init + [a] == acts;
      k, g, e := ApartRuns(cap, init);
      if k <= |init| && !CountsAt(cap, init, k) {
        assert acts[..k] == init[..k];
      } else if Orphan(Race(cap, init), g, e) {
        k := OrphanStep(cap, init, a, g, e);
      } else if !SparesFound(cap, Race(cap, init), a) {
        CalmCounts(cap, init);
        g, e := EvictsFound(cap, Race(cap, init), a);
      }
    }
  }

  lemma {:induction false} CalmUpTo(cap: nat, acts: seq<Act>, k: nat)
    requires Calm(cap, acts) && k <= |acts|
    ensures Calm(cap, acts[..k])
  {
    if k < |acts| {
      CalmUpTo(cap, acts[..|acts| - 1], k);
      assert acts[..|acts| - 1][..k] == acts[..k];
    } else {
      assert acts[..k] == acts;
    }
  }

  /** Of handlers whose ids do not overlap, all of which end, the list is at every step
      what handlers one at a time leave if and only if no session is ever evicted that a
      handler has found. */
  lemma ApartCountsIff(cap: nat, acts: seq<Act>)
    requires cap >= 1 && Apart(cap, acts) && Race(cap, acts).handlers == map[]
    ensures (forall k :: 0 <= k <= |acts| ==> CountsAt(cap, acts, k)) <==> Calm(cap, acts)
  {
    if Calm(cap, acts) {
      forall k | 0 <= k <= |acts| ensures CountsAt(cap, acts, k) {
        CalmUpTo(cap, acts, k);
        CalmCounts(cap, acts[..k]);
      }
    } else {
      var k, g, e := ApartRuns(cap, acts);
      assert !CountsAt(cap, acts, k);
    }
  }

  /** A handler begins only when none is under way. */
  ghost predicate OneAtATime(cap: nat, acts: seq<Act>) {
    acts != [] ==>
      && OneAtATime(cap, acts[..|acts| - 1])
      && var a := acts[|acts| - 1];
         a.Lookup? || a.Detach? ==> Race(cap, acts[..|acts| - 1]).handlers == map[]
  }

  ghost predicate AtMostOne(t: Shared) {
    forall g: nat, h: nat :: g in t.handlers && h in t.handlers ==> g == h
  }

  lemma AtMostOneKept(cap: nat, t: Shared, a: Act)
    requires AtMostOne(t) && (a.Lookup? || a.Detach? ==> t.handlers == map[])
    ensures AtMostOne(Do(cap, t, a))
  {
    forall g | g in Do(cap, t, a).handlers ensures g == a.h || g in t.handlers {
    }
  }

  lemma {:induction false} OneAtATimeIsCalm(cap: nat, acts: seq<Act>)
    requires OneAtATime(cap, acts)
    ensures Calm(cap, acts) && AtMostOne(Race(cap, acts))
  {
    if acts != [] {
      OneAtATimeIsCalm(cap, acts[..|acts| - 1]);
      AtMostOneKept(cap, Race(cap, acts[..|acts| - 1]), acts[|acts| - 1]);
    }
  }

  // ----- What left the list in a calm run -----

  /** The sessions that left: evicted or taken by readers as these operations say, and
      collected with all their records. */
  ghost predicate GoneOk(mem: seq<Session>, place: seq<Place>, gone: seq<Gone>) {
    |place| == |mem| && forall e :: 0 <= e < |mem| ==> PlaceOk(mem[e], place[e], gone)
  }

  predicate PlaceOk(s: Session, p: Place, gone: seq<Gone>) {
    match p
    case InList => true
    case At(_) => Gone(s, true) in gone
    case PushedOut => Gone(s, false) in gone
    case Collected(n) => n == |s.records| && Gone(s, true) in gone
  }

  lemma {:induction false} MarkHas(ss: seq<Session>, returned: bool, i: nat)
    requires i < |ss|
    ensures Gone(ss[i], returned) in Mark(ss, returned)
  {
    if i < |ss| - 1 {
      MarkHas(ss[..|ss| - 1], returned, i);
    }
  }

  function NewGone(cap: nat, c: seq<Session>, op: Op): seq<Gone> {
    match op
    case Trace(id, _) => Mark(Evicted(c, cap, id), false)
    case Read(id) => Mark(Taken(c, id), true)
  }

  function GoneBy(cap: nat, c: seq<Session>, ops: seq<Op>): seq<Gone>
    requires |ops| <= 1
  {
    if ops == [] then [] else NewGone(cap, c, ops[0])
  }

  lemma RunMoreGone(cap: nat, ops: seq<Op>, more: seq<Op>)
    requires |more| <= 1
    ensures Run(cap, ops + more).gone == Run(cap, ops).gone + GoneBy(cap, Run(cap, ops).c, more)
  {
    if more == [] {
      assert ops + more == ops;
    } else {
      assert (ops + more)[..|ops + more| - 1] == ops;
    }
  }

  /** An element that no handler is about to move is seen as it is. */
  lemma SeenWhole(t: Shared, e: nat)
    requires e < |t.mem| && forall g: nat :: !OnElement(t, g, e)
    ensures Seen(t.mem, Pend(t.handlers), e) == t.mem[e]
  {
    if e in Pend(t.handlers) {
      var g :| g in t.handlers && t.handlers[g].Appended? && t.handlers[g].e == e;
      assert OnElement(t, g, e);
    }
  }

  lemma EvictedGone(cap: nat, t: Shared, h: nat, id: Id)
    requires cap >= 1 && CalmInv(cap, t) && Told(t) && CalmAct(cap, t, Insert(h)) && |t.lru| >= cap
    requires h in t.handlers && t.handlers[h].Missed? && t.handlers[h].id == id
    ensures var e := t.lru[|t.lru| - 1];
            e < |t.mem| && Gone(t.mem[e], false) in Mark(Evicted(View(t.lru, t.mem, Pend(t.handlers)), cap, id), false)
  {
    assert HandlerOk(t, t.handlers[h]);
    ViewMisses(t, id);
    var c, n := View(t.lru, t.mem, Pend(t.handlers)), |t.lru| - 1;
    SeenWhole(t, t.lru[n]);
    MarkHas([c[n]], false, 0);
  }

  lemma InsertGone(cap: nat, t: Shared, h: nat, id: Id, r: Record, gone: seq<Gone>)
    requires cap >= 1 && CalmInv(cap, t) && Told(t) && h in t.handlers && t.handlers[h] == Missed(id, r)
    requires CalmAct(cap, t, Insert(h)) && GoneOk(t.mem, t.place, gone)
    ensures var u := InsertNew(Evict(t, cap), id, r);
            GoneOk(u.mem, u.place, gone + Mark(Evicted(View(t.lru, t.mem, Pend(t.handlers)), cap, id), false))
  {
    if |t.lru| >= cap {
      EvictedGone(cap, t, h, id);
    }
    var u, more := InsertNew(Evict(t, cap), id, r), Mark(Evicted(View(t.lru, t.mem, Pend(t.handlers)), cap, id), false);
    forall e | 0 <= e < |u.mem| ensures PlaceOk(u.mem[e], u.place[e], gone + more) {
      assert e < |t.mem| ==> PlaceOk(t.mem[e], t.place[e], gone);
    }
  }

  lemma DetachGone(cap: nat, t: Shared, h: nat, id: Id, gone: seq<Gone>)
    requires CalmInv(cap, t) && Told(t) && h !in t.handlers && CalmAct(cap, t, Detach(h, id))
             && GoneOk(t.mem, t.place, gone)
    ensures GoneOk(t.mem, DetachOf(t, h, id).place, gone + Mark(Taken(View(t.lru, t.mem, Pend(t.handlers)), id), true))
  {
    var c, u := View(t.lru, t.mem, Pend(t.handlers)), DetachOf(t, h, id);
    forall e | 0 <= e < |t.mem|
      ensures PlaceOk(t.mem[e], u.place[e], gone + Mark(Taken(c, id), true))
    {
      assert PlaceOk(t.mem[e], t.place[e], gone);
      if u.place[e] != t.place[e] {
        assert e in t.lru;
        DetachedHas(cap, t, h, id, e);
      }
    }
  }

  lemma DetachedHas(cap: nat, t: Shared, h: nat, id: Id, e: nat)
    requires CalmInv(cap, t) && h !in t.handlers && CalmAct(cap, t, Detach(h, id)) && e in t.lru && e < |t.mem|
    requires id.uuid == 0 || (id in t.lut && t.lut[id] == e)
    ensures Gone(t.mem[e], true) in Mark(Taken(View(t.lru, t.mem, Pend(t.handlers)), id), true)
  {
    var c, i := View(t.lru, t.mem, Pend(t.handlers)), Position(t.lru, e);
    forall g: nat ensures !OnElement(t, g, e) {
      assert Carries(t, g) ==> id.uuid != 0 && !Concerns(t, g, id);
    }
    SeenWhole(t, e);
    ViewFind(cap, t, i);
    MarkHas(Taken(c, id), true, if id.uuid == 0 then i else 0);
  }

  lemma AppendGone(t: Shared, h: nat, e: nat, r: Record, gone: seq<Gone>)
    requires HandlersOk(t) && Told(t) && h in t.handlers && t.handlers[h] == Found(e, r) && GoneOk(t.mem, t.place, gone)
    ensures GoneOk(AppendAt(t.mem, e, r), t.place, gone)
  {
    assert HandlerOk(t, t.handlers[h]);
    var mem := AppendAt(t.mem, e, r);
    forall x | 0 <= x < |mem| ensures PlaceOk(mem[x], t.place[x], gone) {
      assert PlaceOk(t.mem[x], t.place[x], gone);
    }
  }

  lemma CollectGone(t: Shared, h: nat, es: seq<nat>, gone: seq<Gone>)
    requires Told(t) && h in t.handlers && t.handlers[h] == Reading(es) && GoneOk(t.mem, t.place, gone)
    ensures GoneOk(t.mem, CollectOf(t, h, es).place, gone)
  {
    assert OfReader(t.handlers, t.place, h);
    var u := CollectOf(t, h, es);
    forall x | 0 <= x < |t.mem| ensures PlaceOk(t.mem[x], u.place[x], gone) {
      assert PlaceOk(t.mem[x], t.place[x], gone);
      if es != [] && x == es[0] {
        assert x in es;
      }
    }
  }

  lemma ActGone(cap: nat, t: Shared, a: Act, gone: seq<Gone>)
    requires cap >= 1 && CalmInv(cap, t) && Told(t) && CalmAct(cap, t, a) && GoneOk(t.mem, t.place, gone)
    ensures var u := Do(cap, t, a);
            GoneOk(u.mem, u.place, gone + GoneBy(cap, View(t.lru, t.mem, Pend(t.handlers)), OpOf(t, a)))
  {
    var c := View(t.lru, t.mem, Pend(t.handlers));
    assert gone + [] == gone;
    match a
    case Lookup(h, id, r) =>
    case Append(h) =>
      if h in t.handlers && t.handlers[h].Found? { AppendGone(t, h, t.handlers[h].e, t.handlers[h].r, gone); }
    case Move(h) =>
      if h in t.handlers && t.handlers[h].Appended? {
        var e := t.handlers[h].e;
        assert HandlerOk(t, t.handlers[h]);
        ViewFind(cap, t, Position(t.lru, e));
      }
    case Insert(h) =>
      if h in t.handlers && t.handlers[h].Missed? { InsertGone(cap, t, h, t.handlers[h].id, t.handlers[h].r, gone); }
    case Detach(h, id) => if h !in t.handlers { DetachGone(cap, t, h, id, gone); }
    case Collect(h) => if h in t.handlers && t.handlers[h].Reading? { CollectGone(t, h, t.handlers[h].es, gone); }
  }

  lemma {:induction false} CalmGone(cap: nat, acts: seq<Act>)
    requires cap >= 1 && Calm(cap, acts)
    ensures var t := Race(cap, acts); GoneOk(t.mem, t.place, Run(cap, Linear(cap, acts)).gone)
  {
    if acts != [] {
      var init, a := acts[..|acts| - 1], acts[|acts| - 1];
      CalmGone(cap, init);
      CalmCounts(cap, init);
      AlwaysTold(cap, init);
      ActGone(cap, Race(cap, init), a, Run(cap, Linear(cap, init)).gone);
      RunMoreGone(cap, Linear(cap, init), OpOf(Race(cap, init), a));
    }
  }

  /** And calm runs lose nothing: each session that left the list did so in that run of
      handlers one at a time too, evicted there or read there with all its records. */
  lemma CalmLosesNothing(cap: nat, acts: seq<Act>, e: nat)
    requires cap >= 1 && Calm(cap, acts) && e < |Race(cap, acts).mem|
    ensures var t, gone := Race(cap, acts), Run(cap, Linear(cap, acts)).gone;
            && e < |t.place|
            && (forall k :: 0 <= k < |t.mem[e].records| ==> FateOf(t, e, k) != Lost)
            && (t.place[e].PushedOut? ==> Gone(t.mem[e], false) in gone)
            && (t.place[e].Collected? ==> Gone(t.mem[e], true) in gone)
  {
    CalmGone(cap, acts);
    var t := Race(cap, acts);
    assert PlaceOk(t.mem[e], t.place[e], Run(cap, Linear(cap, acts)).gone);
  }

  // ----- Why the eviction matters -----

  function FoundAndEvicted(x: Id, y: Id, z: Id): seq<Act> {
    [Lookup(0, x, 1), Insert(0), Lookup(0, y, 2), Insert(0), Lookup(0, x, 3), Lookup(1, z, 4), Insert(1), Append(0),
        Move(0)]
  }

  /** Handlers of different ids, of which one evicts what the other has found: the list
      is none that the two leave one after the other, in either order. */
  lemma EvictionReorders(x: Id, y: Id, z: Id) returns (acts: seq<Act>, two: seq<Op>)
    requires x != y && y != z && x != z
    ensures acts == FoundAndEvicted(x, y, z) && two == [Trace(x, 1), Trace(y, 2)]
    ensures var t := Race(2, acts);
            t.handlers == map[] && Within(t.lru, t.mem) && Contents(t) == [Session(z, [4]), Session(y, [2])]
    ensures Run(2, two + [Trace(x, 3), Trace(z, 4)]).c == [Session(z, [4]), Session(x, [1, 3])]
    ensures Run(2, two + [Trace(z, 4), Trace(x, 3)]).c == [Session(x, [3]), Session(z, [4])]
  {
    acts := FoundAndEvictedRun(x, y, z);
    two := TwoHeld(x, y);
    OneOrder(two, x, y, z);
    OtherOrder(two, x, y, z);
  }

  lemma TwoInserted(x: Id, y: Id) returns (acts: seq<Act>)
    requires x != y
    ensures acts == [Lookup(0, x, 1), Insert(0), Lookup(0, y, 2), Insert(0)]
    ensures Race(2, acts) == Shared([1, 0], map[x := 0, y := 1], [Session(x, [1]), Session(y, [2])], map[], [],
            [InList, InList])
  {
    var t1 := Start().(handlers := map[0 := Missed(x, 1)]);
    acts := Then(2, [], Start(), Lookup(0, x, 1), t1);
    var t2 := Shared([0], map[x := 0], [Session(x, [1])], map[], [], [InList]);
    acts := Then(2, acts, t1, Insert(0), t2);
    var t3 := t2.(handlers := map[0 := Missed(y, 2)]);
    acts := Then(2, acts, t2, Lookup(0, y, 2), t3);
    acts := Then(2, acts, t3, Insert(0),
                 Shared([1, 0], map[x := 0, y := 1], [Session(x, [1]), Session(y, [2])], map[], [], [InList, InList]));
  }

  lemma FoundAndEvictedRun(x: Id, y: Id, z: Id) returns (acts: seq<Act>)
    requires x != y && y != z && x != z
    ensures acts == FoundAndEvicted(x, y, z)
    ensures Race(2, acts) == Shared([2, 1], map[y := 1, z := 2], [Session(x, [1, 3]), Session(y, [2]), Session(z, [4])],
                                    map[], [], [PushedOut, InList, InList])
  {
    acts := TwoInserted(x, y);
    var sx, sy, sz := Session(x, [1]), Session(y, [2]), Session(z, [4]);
    var t4 := Shared([1, 0], map[x := 0, y := 1], [sx, sy], map[], [], [InList, InList]);
    var t5 := t4.(handlers := map[0 := Found(0, 3)]);
    acts := Then(2, acts, t4, Lookup(0, x, 3), t5);
    var t6 := t4.(handlers := map[0 := Found(0, 3), 1 := Missed(z, 4)]);
    acts := Then(2, acts, t5, Lookup(1, z, 4), t6);
    var t7 := Shared([2, 1], map[y := 1, z := 2], [sx, sy, sz], map[0 := Found(0, 3)], [], [PushedOut, InList, InList]);
    EvictsFirst(t6, t7, x, y, z);
    acts := Then(2, acts, t6, Insert(1), t7);
    var mem := [Session(x, [1, 3]), sy, sz];
    assert [1] + [3] == [1, 3] && AppendAt([sx, sy, sz], 0, 3) == mem;
    var t8 := t7.(mem := mem, handlers := map[0 := Appended(0, 3)]);
    acts := Then(2, acts, t7, Append(0), t8);
    assert ToFront([2, 1], 0) == [2, 1];
    acts := Then(2, acts, t8, Move(0), t8.(handlers := map[]));
  }

  lemma EvictsFirst(t: Shared, u: Shared, x: Id, y: Id, z: Id)
    requires x != y && y != z && x != z
    requires t == Shared([1, 0], map[x := 0, y := 1], [Session(x, [1]), Session(y, [2])],
                         map[0 := Found(0, 3), 1 := Missed(z, 4)], [], [InList, InList])
    requires u == Shared([2, 1], map[y := 1, z := 2], [Session(x, [1]), Session(y, [2]), Session(z, [4])],
                         map[0 := Found(0, 3)], [], [PushedOut, InList, InList])
    ensures Do(2, t, Insert(1)) == u
  {
    var v := Evict(t, 2);
    assert v.lru == [1] && v.lut == map[y := 1] && v.place == [PushedOut, InList];
    assert InsertNew(v, z, 4).lut == u.lut;
  }

  lemma RunOp(ops: seq<Op>, op: Op, c: seq<Session>, d: seq<Session>)
    requires Run(2, ops).c == c && Apply(2, c, op) == d
    ensures Run(2, ops + [op]).c == d
  {
    RunMore(2, ops, [op]);
  }

  lemma TwoHeld(x: Id, y: Id) returns (two: seq<Op>)
    requires x != y
    ensures two == [Trace(x, 1), Trace(y, 2)] && Run(2, two).c == [Session(y, [2]), Session(x, [1])]
  {
    var one := [] + [Trace(x, 1)];
    RunOp([], Trace(x, 1), [], [Session(x, [1])]);
    two := one + [Trace(y, 2)];
    RunOp(one, Trace(y, 2), [Session(x, [1])], [Session(y, [2]), Session(x, [1])]);
  }

  lemma RunTwo(ops: seq<Op>, a: Op, b: Op, c: seq<Session>, d: seq<Session>, e: seq<Session>)
    requires Run(2, ops).c == c && Apply(2, c, a) == d && Apply(2, d, b) == e
    ensures Run(2, ops + [a, b]).c == e
  {
    RunOp(ops, a, c, d);
    RunOp(ops + [a], b, d, e);
    assert ops + [a] + [b] == ops + [a, b];
  }

  /** A full list: the last session moves to the front, or is pushed out. */
  lemma TouchTwo(s: Session, last: Session, id: Id, r: Record)
    requires s.id != last.id && id != s.id
    ensures Touch([s, last], 2, id, r)
         == if id == last.id then [Session(id, last.records + [r]), s] else [Session(id, [r]), s]
  {
    assert Find([s, last], id) == if id == last.id then 1 else 2;
  }

  lemma OneOrder(two: seq<Op>, x: Id, y: Id, z: Id)
    requires x != y && y != z && x != z && Run(2, two).c == [Session(y, [2]), Session(x, [1])]
    ensures Run(2, two + [Trace(x, 3), Trace(z, 4)]).c == [Session(z, [4]), Session(x, [1, 3])]
  {
    TouchTwo(Session(y, [2]), Session(x, [1]), x, 3);
    TouchTwo(Session(x, [1, 3]), Session(y, [2]), z, 4);
    assert [1] + [3] == [1, 3];
    RunTwo(two, Trace(x, 3), Trace(z, 4), [Session(y, [2]), Session(x, [1])], [Session(x, [1, 3]), Session(y, [2])],
           [Session(z, [4]), Session(x, [1, 3])]);
  }

  lemma OtherOrder(two: seq<Op>, x: Id, y: Id, z: Id)
    requires x != y && y != z && x != z && Run(2, two).c == [Session(y, [2]), Session(x, [1])]
    ensures Run(2, two + [Trace(z, 4), Trace(x, 3)]).c == [Session(x, [3]), Session(z, [4])]
  {
    TouchTwo(Session(y, [2]), Session(x, [1]), z, 4);
    TouchTwo(Session(z, [4]), Session(y, [2]), x, 3);
    RunTwo(two, Trace(z, 4), Trace(x, 3), [Session(y, [2]), Session(x, [1])], [Session(z, [4]), Session(y, [2])],
           [Session(x, [3]), Session(z, [4])]);
  }
}
