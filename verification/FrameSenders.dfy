/** Concurrent senders on one stream connection (streamtransportserver.go `send`,
  streamtransportclient.go `Send`), one atomic action at a time.

  Each stream owns an encoder with one buffer.  A sender that wins the
  compare-and-swap on the stream's flag encodes into that shared buffer; the others
  encode into a copy.  The connection's mutex is taken only for the write, so the flag
  is all that keeps two senders out of one buffer from encoding to the last byte
  written.  Writes go out in pieces of any size and read the buffer as they go. */
module FrameSenders {
  import opened Collections
  import opened Framing

  datatype Pc =
    | Claiming            // before the compare-and-swap
    | Encoding
    | Ready               // encoded, waiting for the mutex
    | Writing(done: nat)
    | Unlocking(ok: bool) // flag cleared, mutex not yet released
    | Done
    | TooLarge            // returned ErrMsgTooLarge
    | Broken              // returned the write error

  datatype Sender = Sender(stream: nat, payload: seq<byte>, main: bool, copy: seq<byte>, header: seq<byte>, pc: Pc)

  datatype State = State(
    senders: map<nat, Sender>,
    flag: set<nat>,                // the streams whose encMainCopy is 1
    shared: map<nat, seq<byte>>,   // the buffers of the streams' encoders
    lock: Option<nat>,
    wire: seq<byte>,
    broken: bool,
    order: seq<nat>,               // history: who wrote, in the order of the mutex
    payloads: seq<Payload>)        // history: what they wrote

  datatype Label =
    | Begin(id: nat, stream: nat, payload: seq<byte>)
    | Claim(id: nat)
    | Scribble(id: nat, junk: seq<byte>)
    | Encoded(id: nat)
    | Lock(id: nat)
    | Write(id: nat, n: nat)
    | Fail(id: nat)
    | Clear(id: nat)
    | Unlock(id: nat)

  function Init(): State {
    State(map[], {}, map[], None, [], false, [], [])
  }

  function Shared(s: State, stream: nat): seq<byte> {
    if stream in s.shared then s.shared[stream] else []
  }

  /** What the sender's slices show at this moment. */
  function Out(s: State, x: Sender): seq<byte> {
    x.header + if x.main then Shared(s, x.stream) else x.copy
  }

  function Fill(s: State, id: nat, bytes: seq<byte>): State
    requires id in s.senders
  {
    var x := s.senders[id];
    if x.main then s.(shared := s.shared[x.stream := bytes])
    else s.(senders := s.senders[id := x.(copy := bytes)])
  }

  function At(s: State, id: nat, pc: Pc): State
    requires id in s.senders
  {
    s.(senders := s.senders[id := s.senders[id].(pc := pc)])
  }

  function StepClaim(s: State, id: nat): State
    requires id in s.senders
  {
    var x := s.senders[id];
    if x.stream in s.flag then At(s, id, Encoding)
    else s.(flag := s.flag + {x.stream}, senders := s.senders[id := x.(main := true, pc := Encoding)])
  }

  function Finished(x: Sender): Sender
    requires |x.payload| <= MAX_INT32
  {
    x.(header := Put32(|x.payload|), pc := Ready)
  }

  function StepEncoded(s: State, id: nat): State
    requires id in s.senders
  {
    var x := s.senders[id];
    if |x.payload| > MAX_INT32 then At(s, id, TooLarge)
    else
      var t := Fill(s, id, x.payload);
      t.(senders := t.senders[id := Finished(t.senders[id])])
  }

  function StepLock(s: State, id: nat): State
    requires id in s.senders
  {
    var x := s.senders[id];
    var t := At(s, id, Writing(0)).(lock := Some(id));
    if s.broken || |x.payload| > MAX_INT32 then t else t.(order := s.order + [id], payloads := s.payloads + [x.payload])
  }

  function StepWrite(s: State, id: nat, n: nat): State
    requires id in s.senders && s.senders[id].pc.Writing?
  {
    var x := s.senders[id];
    var out, done := Out(s, x), s.senders[id].pc.done;
    if s.broken || done + n > |out| then s
    else At(s, id, Writing(done + n)).(wire := s.wire + out[done..done + n])
  }

  /** The write returns an error before the last byte; a broken connection stays so. */
  function StepFail(s: State, id: nat): State
    requires id in s.senders && s.senders[id].pc.Writing?
  {
    var x := s.senders[id];
    if s.senders[id].pc.done >= |Out(s, x)| then s
    else ClearFlag(s, id, false).(broken := true)
  }

  function StepClear(s: State, id: nat): State
    requires id in s.senders && s.senders[id].pc.Writing?
  {
    if s.senders[id].pc.done != |Out(s, s.senders[id])| then s else ClearFlag(s, id, true)
  }

  function ClearFlag(s: State, id: nat, ok: bool): State
    requires id in s.senders
  {
    var x := s.senders[id];
    At(s, id, Unlocking(ok)).(flag := if x.main then s.flag - {x.stream} else s.flag)
  }

  function Step(s: State, l: Label): State {
    if l.Begin? then
      if l.id in s.senders then s
      else s.(senders := s.senders[l.id := Sender(l.stream, l.payload, false, [], [], Claiming)])
    else if l.id !in s.senders then s
    else
      var pc := s.senders[l.id].pc;
      match l
      case Claim(id) => if pc.Claiming? then StepClaim(s, id) else s
      case Scribble(id, junk) => if pc.Encoding? then Fill(s, id, junk) else s
      case Encoded(id) => if pc.Encoding? then StepEncoded(s, id) else s
      case Lock(id) => if pc.Ready? && s.lock.None? then StepLock(s, id) else s
      case Write(id, n) => if pc.Writing? then StepWrite(s, id, n) else s
      case Fail(id) => if pc.Writing? then StepFail(s, id) else s
      case Clear(id) => if pc.Writing? then StepClear(s, id) else s
      case Unlock(id) => if pc.Unlocking? then At(s, id, if pc.ok then Done else Broken).(lock := None) else s
  }

  function Run(ls: seq<Label>): State {
    if ls == [] then Init() else Step(Run(ls[..|ls| - 1]), ls[|ls| - 1])
  }

  // ----- The buffers -----

  /** Has the shared buffer of its stream: from the compare-and-swap to the clearing of
      the flag, and for good after ErrMsgTooLarge, which returns without clearing it. */
  predicate Owns(x: Sender) {
    x.main && (x.pc.Encoding? || x.pc.Ready? || x.pc.Writing? || x.pc.TooLarge?)
  }

  predicate Intact(s: State, x: Sender) {
    |x.payload| <= MAX_INT32 && Out(s, x) == Frame(x.payload)
  }

  ghost predicate OneOwner(senders: map<nat, Sender>) {
    forall a, b :: a in senders && b in senders && a != b && Owns(senders[a]) && Owns(senders[b])
      ==> senders[a].stream != senders[b].stream
  }

  ghost predicate OwnerOf(senders: map<nat, Sender>, a: nat, stream: nat) {
    a in senders && senders[a].stream == stream && Owns(senders[a])
  }

  ghost predicate FlagOk(senders: map<nat, Sender>, flag: set<nat>) {
    forall st :: st in flag <==> exists a :: OwnerOf(senders, a, st)
  }

  ghost predicate AllIntact(s: State) {
    forall a :: a in s.senders && (s.senders[a].pc.Ready? || s.senders[a].pc.Writing?) ==> Intact(s, s.senders[a])
  }

  ghost predicate Unclaimed(senders: map<nat, Sender>) {
    forall a :: a in senders && senders[a].pc.Claiming? ==> !senders[a].main
  }

  /** A stream's flag is set exactly while some sender has its buffer, only one does,
      and everyone who has encoded still sees its own bytes. */
  ghost predicate Buffers(s: State) {
    OneOwner(s.senders) && FlagOk(s.senders, s.flag) && AllIntact(s) && Unclaimed(s.senders)
  }

  /** Nobody's ownership changes. */
  lemma SameOwners(u: map<nat, Sender>, v: map<nat, Sender>, flag: set<nat>)
    requires OneOwner(u) && FlagOk(u, flag)
    requires u.Keys <= v.Keys
    requires forall a :: a in v ==> (Owns(v[a]) <==> a in u && Owns(u[a]))
    requires forall a :: a in u ==> v[a].stream == u[a].stream
    ensures OneOwner(v) && FlagOk(v, flag)
  {
    forall st
      ensures st in flag <==> exists a :: OwnerOf(v, a, st)
    {
      if a :| OwnerOf(u, a, st) {
        assert OwnerOf(v, a, st);
      }
      if a :| OwnerOf(v, a, st) {
        assert OwnerOf(u, a, st);
      }
    }
  }

  lemma BeginKeeps(s: State, id: nat, stream: nat, payload: seq<byte>)
    requires Buffers(s)
    ensures Buffers(Step(s, Begin(id, stream, payload)))
  {
    SameOwners(s.senders, Step(s, Begin(id, stream, payload)).senders, s.flag);
  }

  lemma ClaimKeeps(s: State, id: nat)
    requires Buffers(s) && id in s.senders && s.senders[id].pc.Claiming?
    ensures Buffers(StepClaim(s, id))
  {
    var t, stream := StepClaim(s, id), s.senders[id].stream;
    if stream in s.flag {
      SameOwners(s.senders, t.senders, s.flag);
    } else {
      forall st ensures st in t.flag <==> exists a :: OwnerOf(t.senders, a, st) {
        if a :| OwnerOf(s.senders, a, st) {
          assert OwnerOf(t.senders, a, st);
        }
        if st == stream {
          assert OwnerOf(t.senders, id, st);
        }
        if a :| OwnerOf(t.senders, a, st) {
          assert a == id || OwnerOf(s.senders, a, st);
        }
      }
      forall a | a in s.senders && Owns(s.senders[a]) ensures s.senders[a].stream != stream {
        assert OwnerOf(s.senders, a, s.senders[a].stream);
      }
    }
  }

  lemma FillKeeps(s: State, id: nat, bytes: seq<byte>)
    requires Buffers(s) && id in s.senders && s.senders[id].pc.Encoding?
    ensures Buffers(Fill(s, id, bytes))
  {
    SameOwners(s.senders, Fill(s, id, bytes).senders, s.flag);
  }

  lemma FinishedKeeps(s: State, id: nat)
    requires Buffers(s) && id in s.senders && s.senders[id].pc.Encoding?
    requires var x := s.senders[id];
             |x.payload| <= MAX_INT32
             && x.payload == if x.main then Shared(s, x.stream) else x.copy
    ensures Buffers(s.(senders := s.senders[id := Finished(s.senders[id])]))
  {
    SameOwners(s.senders, s.senders[id := Finished(s.senders[id])], s.flag);
  }

  lemma EncodedKeeps(s: State, id: nat)
    requires Buffers(s) && id in s.senders && s.senders[id].pc.Encoding?
    ensures Buffers(StepEncoded(s, id))
  {
    var x := s.senders[id];
    if |x.payload| <= MAX_INT32 {
      FillKeeps(s, id, x.payload);
      FinishedKeeps(Fill(s, id, x.payload), id);
    } else {
      TooLargeKeeps(s, id);
    }
  }

  lemma TooLargeKeeps(s: State, id: nat)
    requires Buffers(s) && id in s.senders && s.senders[id].pc.Encoding?
    ensures Buffers(At(s, id, TooLarge))
  {
    SameOwners(s.senders, At(s, id, TooLarge).senders, s.flag);
  }

  /** A move of one sender that neither begins nor ends ownership. */
  lemma AtKeeps(s: State, id: nat, pc: Pc)
    requires Buffers(s) && id in s.senders
    requires var from := s.senders[id].pc;
             || ((from.Ready? || from.Writing?) && pc.Writing?)
             || (from.Unlocking? && (pc.Done? || pc.Broken?))
    ensures Buffers(At(s, id, pc))
  {
    SameOwners(s.senders, At(s, id, pc).senders, s.flag);
  }

  lemma ClearKeeps(s: State, id: nat, ok: bool)
    requires Buffers(s) && id in s.senders && s.senders[id].pc.Writing?
    ensures Buffers(ClearFlag(s, id, ok))
  {
    var x, t := s.senders[id], ClearFlag(s, id, ok);
    if x.main {
      assert OwnerOf(s.senders, id, x.stream);
      forall st ensures st in t.flag <==> exists a :: OwnerOf(t.senders, a, st) {
        if a :| OwnerOf(s.senders, a, st) {
          assert a == id || OwnerOf(t.senders, a, st);
        }
        if a :| OwnerOf(t.senders, a, st) {
          assert OwnerOf(s.senders, a, st);
        }
      }
    } else {
      SameOwners(s.senders, t.senders, s.flag);
    }
  }

  lemma SameBuffers(s: State, t: State)
    requires Buffers(s) && t.senders == s.senders && t.flag == s.flag && t.shared == s.shared
    ensures Buffers(t)
  {
  }

  lemma StepKeepsBuffers(s: State, l: Label)
    requires Buffers(s)
    ensures Buffers(Step(s, l))
  {
    if l.Begin? {
      BeginKeeps(s, l.id, l.stream, l.payload);
    } else if l.id in s.senders {
      var pc := s.senders[l.id].pc;
      match l
      case Claim(id) => if pc.Claiming? { ClaimKeeps(s, id); }
      case Scribble(id, junk) => if pc.Encoding? { FillKeeps(s, id, junk); }
      case Encoded(id) => if pc.Encoding? { EncodedKeeps(s, id); }
      case Lock(id) =>
        if pc.Ready? && s.lock.None? {
          AtKeeps(s, id, Writing(0));
          SameBuffers(At(s, id, Writing(0)), StepLock(s, id));
        }
      case Write(id, n) =>
        if pc.Writing? && StepWrite(s, id, n) != s {
          AtKeeps(s, id, Writing(pc.done + n));
          SameBuffers(At(s, id, Writing(pc.done + n)), StepWrite(s, id, n));
        }
      case Fail(id) =>
        if pc.Writing? && StepFail(s, id) != s {
          ClearKeeps(s, id, false);
          SameBuffers(ClearFlag(s, id, false), StepFail(s, id));
        }
      case Clear(id) => if pc.Writing? { ClearKeeps(s, id, true); }
      case Unlock(id) =>
        if pc.Unlocking? {
          AtKeeps(s, id, if pc.ok then Done else Broken);
          SameBuffers(At(s, id, if pc.ok then Done else Broken), Step(s, l));
        }
    }
  }

  // ----- The wire -----

  /** All of ps but the last, and k bytes of that. */
  ghost predicate Ahead(wire: seq<byte>, ps: seq<Payload>, k: nat) {
    ps != [] && k <= |Frame(ps[|ps| - 1])| && wire == Wire(ps[..|ps| - 1]) + Frame(ps[|ps| - 1])[..k]
  }

  /** Ends inside the last frame. */
  ghost predicate CutShort(wire: seq<byte>, ps: seq<Payload>) {
    exists k: nat :: Ahead(wire, ps, k) && k < |Frame(ps[|ps| - 1])|
  }

  predicate InLock(pc: Pc) { pc.Writing? || pc.Unlocking? }

  predicate HasLocked(pc: Pc) { InLock(pc) || pc.Done? || pc.Broken? }

  predicate Succeeded(pc: Pc) { pc.Done? || pc == Unlocking(true) }

  ghost predicate LockOk(senders: map<nat, Sender>, lock: Option<nat>) {
    && (lock.Some? ==> lock.value in senders)
    && forall a :: a in senders ==> (InLock(senders[a].pc) <==> lock == Some(a))
  }

  ghost predicate OrderOk(senders: map<nat, Sender>, order: seq<nat>, payloads: seq<Payload>) {
    && |order| == |payloads|
    && (forall i :: 0 <= i < |order| ==> order[i] in senders)
    && (forall i :: 0 <= i < |order| ==> senders[order[i]].payload == payloads[i] && HasLocked(senders[order[i]].pc))
    && (forall i, j :: 0 <= i < j < |order| ==> order[i] != order[j])
    && (forall a :: a in senders && Succeeded(senders[a].pc) ==> a in order)
  }

  ghost predicate WireCase(s: State)
    requires LockOk(s.senders, s.lock)
  {
    if s.broken then
      && CutShort(s.wire, s.payloads)
      && (s.lock.Some? ==> var pc := s.senders[s.lock.value].pc; pc == Writing(0) || pc == Unlocking(false))
    else if s.lock.None? then s.wire == Wire(s.payloads)
    else
      var pc := s.senders[s.lock.value].pc;
      if pc.Writing?
      then s.order != [] && s.order[|s.order| - 1] == s.lock.value && Ahead(s.wire, s.payloads, pc.done)
      else pc == Unlocking(true) && s.wire == Wire(s.payloads)
  }

  ghost predicate Traffic(s: State) {
    LockOk(s.senders, s.lock) && OrderOk(s.senders, s.order, s.payloads) && WireCase(s)
  }

  /** Senders move that do not have the mutex and do not take it. */
  ghost predicate Quiet(u: map<nat, Sender>, v: map<nat, Sender>) {
    && u.Keys <= v.Keys
    && (forall a :: a in u ==> v[a].payload == u[a].payload)
    && (forall a :: a in v ==> if a in u && HasLocked(u[a].pc) then v[a].pc == u[a].pc else !HasLocked(v[a].pc))
  }

  lemma QuietOne(u: map<nat, Sender>, id: nat, x: Sender)
    requires !HasLocked(x.pc) && (id in u ==> !HasLocked(u[id].pc) && u[id].payload == x.payload)
    ensures Quiet(u, u[id := x])
  {
  }

  lemma QuietTwice(u: map<nat, Sender>, v: map<nat, Sender>, w: map<nat, Sender>)
    requires Quiet(u, v) && Quiet(v, w)
    ensures Quiet(u, w)
  {
  }

  lemma SameTraffic(s: State, t: State)
    requires Traffic(s) && Quiet(s.senders, t.senders)
    requires t.lock == s.lock && t.wire == s.wire && t.broken == s.broken && t.order == s.order
             && t.payloads == s.payloads
    ensures Traffic(t)
  {
  }

  /** The sender with the mutex moves on. */
  lemma HolderMoves(s: State, id: nat, x: Sender)
    requires LockOk(s.senders, s.lock) && OrderOk(s.senders, s.order, s.payloads) && s.lock == Some(id)
    requires InLock(x.pc) && x.payload == s.senders[id].payload && (Succeeded(x.pc) ==> id in s.order)
    ensures LockOk(s.senders[id := x], s.lock) && OrderOk(s.senders[id := x], s.order, s.payloads)
  {
  }

  /** Taking the mutex puts one more at the end of the order. */
  lemma OrderAppends(u: map<nat, Sender>, v: map<nat, Sender>, order: seq<nat>, payloads: seq<Payload>, id: nat,
                     p: Payload)
    requires OrderOk(u, order, payloads) && id in u && u[id].pc.Ready? && u[id].payload == p
    requires v == u[id := u[id].(pc := Writing(0))]
    ensures OrderOk(v, order + [id], payloads + [p]) && OrderOk(v, order, payloads)
  {
  }

  lemma LockTraffic(s: State, id: nat)
    requires Traffic(s) && Buffers(s) && id in s.senders && s.senders[id].pc.Ready? && s.lock.None?
    ensures Traffic(StepLock(s, id))
  {
    var x, t := s.senders[id], StepLock(s, id);
    assert Intact(s, x);
    OrderAppends(s.senders, t.senders, s.order, s.payloads, id, x.payload);
    assert LockOk(t.senders, t.lock);
    if !s.broken {
      LockedWire(s.wire, s.payloads, x.payload);
    }
  }

  lemma LockedWire(wire: seq<byte>, ps: seq<Payload>, p: Payload)
    requires wire == Wire(ps)
    ensures Ahead(wire, ps + [p], 0)
  {
    assert (ps + [p])[..|ps|] == ps;
    assert Frame(p)[..0] == [] && wire + [] == wire;
  }

  lemma AheadMore(wire: seq<byte>, ps: seq<Payload>, k: nat, n: nat)
    requires Ahead(wire, ps, k) && k + n <= |Frame(ps[|ps| - 1])|
    ensures Ahead(wire + Frame(ps[|ps| - 1])[k..k + n], ps, k + n)
  {
    var last := Frame(ps[|ps| - 1]);
    assert last[..k] + last[k..k + n] == last[..k + n];
    Assoc(Wire(ps[..|ps| - 1]), last[..k], last[k..k + n]);
  }

  lemma AheadAll(wire: seq<byte>, ps: seq<Payload>)
    requires ps != [] && Ahead(wire, ps, |Frame(ps[|ps| - 1])|)
    ensures wire == Wire(ps)
  {
    var last := Frame(ps[|ps| - 1]);
    assert last[..|last|] == last;
  }

  lemma WriteWire(s: State, id: nat, n: nat)
    requires LockOk(s.senders, s.lock) && WireCase(s) && !s.broken && s.lock == Some(id) && s.senders[id].pc.Writing?
    requires s.payloads != [] && s.payloads[|s.payloads| - 1] == s.senders[id].payload
    requires Intact(s, s.senders[id]) && s.senders[id].pc.done + n <= |Out(s, s.senders[id])|
    requires LockOk(StepWrite(s, id, n).senders, s.lock)
    ensures WireCase(StepWrite(s, id, n))
  {
    AheadMore(s.wire, s.payloads, s.senders[id].pc.done, n);
  }

  /** The holder writes the last of the payloads. */
  lemma HolderIsLast(s: State, id: nat)
    requires Traffic(s) && !s.broken && id in s.senders && s.senders[id].pc.Writing?
    ensures s.lock == Some(id) && id in s.order
    ensures s.payloads != [] && s.payloads[|s.payloads| - 1] == s.senders[id].payload
  {
  }

  lemma WriteTraffic(s: State, id: nat, n: nat)
    requires Traffic(s) && id in s.senders && s.senders[id].pc.Writing? && Intact(s, s.senders[id])
    ensures Traffic(StepWrite(s, id, n))
  {
    if StepWrite(s, id, n) != s {
      HolderIsLast(s, id);
      HolderMoves(s, id, s.senders[id].(pc := Writing(s.senders[id].pc.done + n)));
      WriteWire(s, id, n);
    }
  }

  lemma FailTraffic(s: State, id: nat)
    requires Traffic(s) && Buffers(s) && id in s.senders && s.senders[id].pc.Writing?
    ensures Traffic(StepFail(s, id))
  {
    var x := s.senders[id];
    assert Intact(s, x);
    HolderMoves(s, id, x.(pc := Unlocking(false)));
    if !s.broken {
      assert Ahead(s.wire, s.payloads, x.pc.done);
    }
  }

  lemma ClearTraffic(s: State, id: nat)
    requires Traffic(s) && Buffers(s) && id in s.senders && s.senders[id].pc.Writing?
    ensures Traffic(StepClear(s, id))
  {
    var x := s.senders[id];
    assert Intact(s, x);
    if x.pc.done == |Out(s, x)| {
      if !s.broken {
        AheadAll(s.wire, s.payloads);
        HolderMoves(s, id, x.(pc := Unlocking(true)));
      }
    }
  }

  lemma UnlockTraffic(s: State, id: nat)
    requires Traffic(s) && id in s.senders && s.senders[id].pc.Unlocking?
    ensures Traffic(Step(s, Unlock(id)))
  {
    var t := Step(s, Unlock(id));
    assert LockOk(t.senders, t.lock);
    assert OrderOk(t.senders, t.order, t.payloads);
  }

  lemma QuietFill(s: State, id: nat, bytes: seq<byte>)
    requires id in s.senders && s.senders[id].pc.Encoding?
    ensures Quiet(s.senders, Fill(s, id, bytes).senders)
  {
    if !s.senders[id].main {
      QuietOne(s.senders, id, s.senders[id].(copy := bytes));
    }
  }

  lemma QuietEncoded(s: State, id: nat)
    requires id in s.senders && s.senders[id].pc.Encoding?
    ensures Quiet(s.senders, StepEncoded(s, id).senders)
  {
    var x, t := s.senders[id], StepEncoded(s, id);
    if |x.payload| <= MAX_INT32 {
      var f := Fill(s, id, x.payload);
      QuietFill(s, id, x.payload);
      QuietOne(f.senders, id, Finished(f.senders[id]));
      QuietTwice(s.senders, f.senders, t.senders);
    } else {
      QuietOne(s.senders, id, x.(pc := TooLarge));
    }
  }

  lemma QuietClaim(s: State, id: nat)
    requires id in s.senders && s.senders[id].pc.Claiming?
    ensures Quiet(s.senders, StepClaim(s, id).senders)
  {
    QuietOne(s.senders, id, s.senders[id].(pc := Encoding));
    QuietOne(s.senders, id, s.senders[id].(main := true, pc := Encoding));
  }

  lemma StepKeepsTraffic(s: State, l: Label)
    requires Traffic(s) && Buffers(s)
    ensures Traffic(Step(s, l))
  {
    if l.Begin? {
      if l.id !in s.senders {
        QuietOne(s.senders, l.id, Sender(l.stream, l.payload, false, [], [], Claiming));
        SameTraffic(s, Step(s, l));
      }
    } else if l.id in s.senders {
      if l.Claim? || l.Scribble? || l.Encoded? {
        EncodingTraffic(s, l);
      } else {
        WritingTraffic(s, l);
      }
    }
  }

  lemma EncodingTraffic(s: State, l: Label)
    requires Traffic(s) && (l.Claim? || l.Scribble? || l.Encoded?) && l.id in s.senders
    ensures Traffic(Step(s, l))
  {
    var pc := s.senders[l.id].pc;
    match l
    case Claim(id) =>
      if pc.Claiming? {
        QuietClaim(s, id);
        SameTraffic(s, StepClaim(s, id));
      }
    case Scribble(id, junk) =>
      if pc.Encoding? {
        QuietFill(s, id, junk);
        SameTraffic(s, Fill(s, id, junk));
      }
    case Encoded(id) =>
      if pc.Encoding? {
        QuietEncoded(s, id);
        SameTraffic(s, StepEncoded(s, id));
      }
  }

  lemma WritingTraffic(s: State, l: Label)
    requires Traffic(s) && Buffers(s) && l.id in s.senders
    requires l.Lock? || l.Write? || l.Fail? || l.Clear? || l.Unlock?
    ensures Traffic(Step(s, l))
  {
    var pc := s.senders[l.id].pc;
    match l
    case Lock(id) => if pc.Ready? && s.lock.None? { LockTraffic(s, id); }
    case Write(id, n) =>
      if pc.Writing? {
        assert Intact(s, s.senders[id]);
        WriteTraffic(s, id, n);
      }
    case Fail(id) => if pc.Writing? { FailTraffic(s, id); }
    case Clear(id) => if pc.Writing? { ClearTraffic(s, id); }
    case Unlock(id) => if pc.Unlocking? { UnlockTraffic(s, id); }
  }

  lemma {:induction false} RunKeeps(ls: seq<Label>)
    ensures Buffers(Run(ls)) && Traffic(Run(ls))
  {
    if ls != [] {
      RunKeeps(ls[..|ls| - 1]);
      StepKeepsBuffers(Run(ls[..|ls| - 1]), ls[|ls| - 1]);
      StepKeepsTraffic(Run(ls[..|ls| - 1]), ls[|ls| - 1]);
    }
  }

  // ----- What follows for every schedule -----

  /** The shared buffer of a stream has one owner at a time, and everyone who is about
      to write or writing still sees exactly the frame of its own message. */
  lemma BufferIsExclusive(ls: seq<Label>, a: nat, b: nat)
    requires var s := Run(ls); a in s.senders && b in s.senders && a != b
    ensures var x, y := Run(ls).senders[a], Run(ls).senders[b];
            Owns(x) && Owns(y) ==> x.stream != y.stream
    ensures var s := Run(ls);
            var pc := s.senders[a].pc;
            pc.Ready? || pc.Writing? ==>
                |s.senders[a].payload| <= MAX_INT32
                && Out(s, s.senders[a]) == Frame(s.senders[a].payload)
  {
    RunKeeps(ls);
  }

  /** The flag of a stream is set exactly while a sender owns the buffer, where one that
      returned ErrMsgTooLarge owns it for good. */
  lemma FlagMeansOwned(ls: seq<Label>, stream: nat)
    ensures var s := Run(ls); stream in s.flag <==> exists a :: OwnerOf(s.senders, a, stream)
  {
    RunKeeps(ls);
  }

  lemma WirePrefix(ps: seq<Payload>, w: seq<byte>)
    requires w <= Wire(ps)
    ensures Parse(w).frames <= ps
  {
    ParseMonotone(w, Wire(ps));
    ParseWire(ps, []);
    assert Wire(ps) + [] == Wire(ps) && ps + [] == ps;
  }

  /** Whatever part of the wire has arrived, the receiver has got a prefix of the payloads
      in the order in which their senders took the mutex. */
  lemma ReceivedInWriteOrder(ls: seq<Label>, arrived: seq<byte>)
    requires arrived <= Run(ls).wire
    ensures Parse(arrived).frames <= Run(ls).payloads
  {
    RunKeeps(ls);
    var s := Run(ls);
    assert s.wire <= Wire(s.payloads) by {
      if s.payloads != [] && s.wire != Wire(s.payloads) {
        var k: nat :| Ahead(s.wire, s.payloads, k);
      }
    }
    WirePrefix(s.payloads, arrived);
  }

  /** On a connection that has not failed and is not being written, everything written
      is received, with no bytes left over. */
  lemma AllReceived(ls: seq<Label>)
    requires var s := Run(ls); !s.broken && s.lock.None?
    ensures var s := Run(ls); Parse(s.wire) == Parsed(s.payloads, [])
  {
    RunKeeps(ls);
    var s := Run(ls);
    ParseWire(s.payloads, []);
    assert Wire(s.payloads) + [] == Wire(s.payloads) && s.payloads + [] == s.payloads;
  }

  /** Each sender that succeeded is in that order, once, with its own payload. */
  lemma SuccessIsWritten(ls: seq<Label>, id: nat)
    requires id in Run(ls).senders && Run(ls).senders[id].pc.Done?
    ensures var s := Run(ls);
            exists i :: 0 <= i < |s.order| == |s.payloads| && s.order[i] == id && s.payloads[i] == s.senders[id].payload
              && forall j :: 0 <= j < |s.order| && s.order[j] == id ==> j == i
  {
    RunKeeps(ls);
    var s := Run(ls);
    assert id in s.order;
    var i :| 0 <= i < |s.order| && s.order[i] == id;
    assert forall j :: 0 <= j < |s.order| && s.order[j] == id ==> j == i;
  }

  lemma StuckStays(s: State, l: Label, id: nat)
    requires id in s.senders && s.senders[id].pc.TooLarge?
    ensures id in Step(s, l).senders && Step(s, l).senders[id] == s.senders[id]
  {
  }

  /** A main-copy sender that returned ErrMsgTooLarge leaves its stream's flag set for
      good: from then on every sender of the stream encodes into a copy. */
  lemma TooLargeKeepsFlag(ls: seq<Label>, more: seq<Label>, id: nat)
    requires id in Run(ls).senders && Run(ls).senders[id].main && Run(ls).senders[id].pc.TooLarge?
    ensures var s := Run(ls + more);
            id in s.senders && s.senders[id] == Run(ls).senders[id] && s.senders[id].stream in s.flag
  {
    StuckThrough(ls, more, id);
    RunKeeps(ls + more);
    assert OwnerOf(Run(ls + more).senders, id, Run(ls).senders[id].stream);
  }

  /** Any message that is too large gets there, if its sender is the first of its stream. */
  lemma TooLargeHappens(stream: nat, payload: seq<byte>) returns (ls: seq<Label>)
    requires |payload| > MAX_INT32
    ensures var s := Run(ls);
            0 in s.senders && s.senders[0].main && s.senders[0].pc.TooLarge?
            && s.senders[0].stream == stream
  {
    var a, b, c := [Begin(0, stream, payload)], [Begin(0, stream, payload), Claim(0)],
        [Begin(0, stream, payload), Claim(0), Encoded(0)];
    assert a[..0] == [] && b[..1] == a && c[..2] == b;
    assert Run(a).senders == map[0 := Sender(stream, payload, false, [], [], Claiming)] && Run(a).flag == {};
    assert Run(b).senders == map[0 := Sender(stream, payload, true, [], [], Encoding)];
    ls := c;
  }

  lemma {:induction false} StuckThrough(ls: seq<Label>, more: seq<Label>, id: nat)
    requires id in Run(ls).senders && Run(ls).senders[id].pc.TooLarge?
    ensures id in Run(ls + more).senders && Run(ls + more).senders[id] == Run(ls).senders[id]
  {
    if more == [] {
      assert ls + more == ls;
    } else {
      var init, all := more[..|more| - 1], ls + more;
      StuckThrough(ls, init, id);
      assert all[..|all| - 1] == ls + init && all[|all| - 1] == more[|more| - 1];
      StuckStays(Run(ls + init), more[|more| - 1], id);
    }
  }

  // ----- Exactly which flags can come free -----

  ghost predicate ClearedAfter(ls: seq<Label>, more: seq<Label>, stream: nat) {
    stream !in Run(ls + more).flag
  }

  ghost predicate CanClear(ls: seq<Label>, stream: nat) {
    exists more: seq<Label> :: ClearedAfter(ls, more, stream)
  }

  lemma Then(ls: seq<Label>, l: Label) returns (all: seq<Label>)
    ensures ls < all && Run(all) == Step(Run(ls), l)
  {
    all := ls + [l];
    assert all[..|ls|] == ls;
  }

  ghost predicate Freed(s: State, t: State, id: nat)
    requires id in s.senders
  {
    && id in t.senders && t.senders[id].pc.Unlocking?
    && (s.senders[id].main ==> s.senders[id].stream !in t.flag)
    && forall a :: a in s.senders && a != id ==> a in t.senders && t.senders[a] == s.senders[a]
  }

  lemma FailFrees(s: State, id: nat)
    requires id in s.senders && s.senders[id].pc.Writing? && s.senders[id].pc.done < |Out(s, s.senders[id])|
    ensures Freed(s, Step(s, Fail(id)), id)
  {
  }

  lemma WriteFrees(s: State, id: nat, n: nat)
    requires id in s.senders && s.senders[id].pc.Writing? && !s.broken
    requires s.senders[id].pc.done + n == |Out(s, s.senders[id])|
    ensures Freed(s, Step(Step(s, Write(id, n)), Clear(id)), id)
  {
    var t := Step(s, Write(id, n));
    assert Out(t, t.senders[id]) == Out(s, s.senders[id]);
  }

  lemma LeftToWrite(s: State, id: nat) returns (left: nat)
    requires Traffic(s) && AllIntact(s) && id in s.senders && s.senders[id].pc.Writing?
    ensures s.senders[id].pc.done + left == |Out(s, s.senders[id])| && (s.broken ==> left > 0)
  {
    assert Intact(s, s.senders[id]) && s.lock == Some(id);
    left := |Out(s, s.senders[id])| - s.senders[id].pc.done;
  }

  /** A sender that has the mutex and writes comes to clear what it owns: it writes the
      rest, or its write fails when the connection is broken. */
  lemma WritesOut(ls: seq<Label>, id: nat) returns (all: seq<Label>)
    requires id in Run(ls).senders && Run(ls).senders[id].pc.Writing?
    ensures ls <= all && Freed(Run(ls), Run(all), id)
  {
    RunKeeps(ls);
    var s := Run(ls);
    var left := LeftToWrite(s, id);
    if s.broken {
      FailFrees(s, id);
      all := Then(ls, Fail(id));
    } else {
      WriteFrees(s, id, left);
      all := Then(ls, Write(id, left));
      all := Then(all, Clear(id));
    }
  }

  lemma FreesLock(ls: seq<Label>, id: nat) returns (all: seq<Label>)
    requires id in Run(ls).senders && Run(ls).senders[id].pc.Ready?
    ensures ls <= all
    ensures var t := Run(all); id in t.senders && t.senders[id] == Run(ls).senders[id] && t.lock.None?
  {
    all := ls;
    RunKeeps(ls);
    if Run(ls).lock.Some? {
      var b := Run(ls).lock.value;
      if Run(ls).senders[b].pc.Writing? {
        all := WritesOut(ls, b);
      }
      all := Then(all, Unlock(b));
    }
  }

  lemma OwnerClears(ls: seq<Label>, id: nat) returns (all: seq<Label>)
    requires id in Run(ls).senders && Owns(Run(ls).senders[id]) && |Run(ls).senders[id].payload| <= MAX_INT32
    requires !Run(ls).senders[id].pc.TooLarge?
    ensures ls <= all && Run(ls).senders[id].stream !in Run(all).flag
  {
    all := ls;
    if Run(all).senders[id].pc.Encoding? {
      all := Then(all, Encoded(id));
    }
    if Run(all).senders[id].pc.Ready? {
      all := FreesLock(all, id);
      all := Then(all, Lock(id));
    }
    all := WritesOut(all, id);
  }

  /** A main-copy sender whose message is too large never gets past encoding. */
  predicate Hopeless(x: Sender) {
    x.main && (x.pc.Encoding? || x.pc.TooLarge?) && |x.payload| > MAX_INT32
  }

  lemma HopelessStays(s: State, l: Label, id: nat)
    requires id in s.senders && Hopeless(s.senders[id])
    ensures id in Step(s, l).senders && Hopeless(Step(s, l).senders[id])
    ensures Step(s, l).senders[id].stream == s.senders[id].stream
  {
  }

  lemma {:induction false} HopelessThrough(ls: seq<Label>, more: seq<Label>, id: nat)
    requires id in Run(ls).senders && Hopeless(Run(ls).senders[id])
    ensures var t := Run(ls + more);
            id in t.senders && Hopeless(t.senders[id]) && t.senders[id].stream == Run(ls).senders[id].stream
  {
    if more == [] {
      assert ls + more == ls;
    } else {
      var init, all := more[..|more| - 1], ls + more;
      HopelessThrough(ls, init, id);
      assert all[..|all| - 1] == ls + init && all[|all| - 1] == more[|more| - 1];
      HopelessStays(Run(ls + init), more[|more| - 1], id);
    }
  }

  lemma ComesTooLarge(s: State, l: Label, id: nat)
    requires id in Step(s, l).senders && Step(s, l).senders[id].pc.TooLarge?
    ensures id in s.senders && s.senders[id].payload == Step(s, l).senders[id].payload
    ensures s.senders[id].pc.TooLarge? || |s.senders[id].payload| > MAX_INT32
  {
  }

  /** ErrMsgTooLarge is returned for no other message. */
  lemma {:induction false} OnlyTooLarge(ls: seq<Label>, id: nat)
    requires id in Run(ls).senders && Run(ls).senders[id].pc.TooLarge?
    ensures |Run(ls).senders[id].payload| > MAX_INT32
  {
    if ls != [] {
      ComesTooLarge(Run(ls[..|ls| - 1]), ls[|ls| - 1], id);
      if Run(ls[..|ls| - 1]).senders[id].pc.TooLarge? {
        OnlyTooLarge(ls[..|ls| - 1], id);
      }
    }
  }

  /** A set flag has an owner, and in every run it can come free again exactly when the
      owner's message is not too large. */
  lemma FlagClearsIff(ls: seq<Label>, stream: nat) returns (owner: nat)
    requires stream in Run(ls).flag
    ensures OwnerOf(Run(ls).senders, owner, stream)
    ensures CanClear(ls, stream) <==> |Run(ls).senders[owner].payload| <= MAX_INT32
  {
    RunKeeps(ls);
    owner :| OwnerOf(Run(ls).senders, owner, stream);
    var x := Run(ls).senders[owner];
    if |x.payload| <= MAX_INT32 {
      if x.pc.TooLarge? { OnlyTooLarge(ls, owner); }
      var all := OwnerClears(ls, owner);
      assert ls + all[|ls|..] == all;
      assert ClearedAfter(ls, all[|ls|..], stream);
    } else {
      assert Hopeless(x);
      forall more: seq<Label> ensures !ClearedAfter(ls, more, stream) {
        HopelessThrough(ls, more, owner);
        RunKeeps(ls + more);
        assert OwnerOf(Run(ls + more).senders, owner, stream);
      }
    }
  }
}
