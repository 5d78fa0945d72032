/** What every interleaving of the message queue keeps: the lazy creation protocol,
  the order of each class, and conservation. */
module MsgQueueOrder {
  import opened Collections
  import opened MsgQueue

  // ----- Projections of the log -----

  function Filter(ms: seq<Msg>, c: Class): seq<Msg> {
    if ms == [] then []
    else Filter(ms[..|ms| - 1], c) + if ClassOf(ms[|ms| - 1]) == c then [ms[|ms| - 1]] else []
  }

  function Outs(os: seq<Out>): seq<Msg> {
    if os == [] then [] else Outs(os[..|os| - 1]) + [os[|os| - 1].m]
  }

  /** The messages workers took straight from the normal ingress queue, or the others. */
  function OutsBy(os: seq<Out>, direct: bool): seq<Msg> {
    if os == [] then []
    else OutsBy(os[..|os| - 1], direct) + if os[|os| - 1].direct == direct then [os[|os| - 1].m] else []
  }

  lemma FilterAppend(ms: seq<Msg>, m: Msg, c: Class)
    ensures Filter(ms + [m], c) == if ClassOf(m) == c then Filter(ms, c) + [m] else Filter(ms, c)
  {
    assert (ms + [m])[..|ms|] == ms;
  }

  lemma OutsAppend(os: seq<Out>, o: Out)
    ensures Outs(os + [o]) == Outs(os) + [o.m]
    ensures forall d :: OutsBy(os + [o], d) == if o.direct == d then OutsBy(os, d) + [o.m] else OutsBy(os, d)
  {
    assert (os + [o])[..|os|] == os;
  }

  // ----- Lazy creation -----

  predicate InLock(pc: Producer) {
    pc.MakeIngress? || pc.MakeEgress? || pc.Spawn? || pc.Release?
  }

  predicate ProducerOk(ch: Chans, r: Reorder, lock: Option<nat>, p: nat, pc: Producer) {
    && (InLock(pc) ==> lock == Some(p))
    && (pc.Sending? || ClassOf(pc.m) != Normal)
    && (pc.WantLock? || pc.MakeIngress? || ch.Ingress(ClassOf(pc.m)).Made?)
    && (pc.Spawn? ==> ch.egress.Made? && r.NotStarted?)
    && (pc.Release? ==> !r.NotStarted?)
  }

  function Count(made: bool): nat {
    if made then 1 else 0
  }

  /** Every channel that exists was made once, and reorder was started at most once. */
  predicate CreatedOnce(s: State) {
    s.created == Created(Count(s.ch.high.Made?), Count(s.ch.low.Made?), Count(s.ch.egress.Made?),
                         Count(!s.reorder.NotStarted?))
  }

  predicate Bounded(q: nat, ch: Chans) {
    ch.normal.Made? && Len(ch.high) <= q && Len(ch.normal) <= q && Len(ch.low) <= q && Len(ch.egress) <= q
  }

  ghost predicate Setup(q: nat, s: State) {
    && (forall p :: p in s.producers ==> ProducerOk(s.ch, s.reorder, s.lock, p, s.producers[p]))
    && (s.lock.Some? ==> s.lock.value in s.producers && InLock(s.producers[s.lock.value]))
    && (!s.reorder.NotStarted? ==> s.ch.egress.Made?)
    && (s.reorder.NotStarted? && s.ch.egress.Made? ==> s.lock.Some? && s.producers[s.lock.value].Spawn?)
    && (forall w :: w in s.workers ==> (s.workers[w].OnEgress? ==> s.ch.egress.Made?))
    && CreatedOnce(s)
    && Bounded(q, s.ch)
  }

  lemma LockKeepsSetup(q: nat, s: State, p: nat, m: Msg)
    requires Setup(q, s) && p in s.producers && s.producers[p] == WantLock(m)
    ensures Setup(q, Lock(s, p, m))
  {
  }

  lemma CreateIngressKeepsSetup(q: nat, s: State, p: nat, m: Msg)
    requires Setup(q, s) && p in s.producers && s.producers[p] == MakeIngress(m)
    ensures Setup(q, CreateIngress(s, p, m))
  {
    assert ProducerOk(s.ch, s.reorder, s.lock, p, s.producers[p]);
  }

  lemma CreateEgressKeepsSetup(q: nat, s: State, p: nat, m: Msg)
    requires Setup(q, s) && p in s.producers && s.producers[p] == MakeEgress(m)
    ensures Setup(q, CreateEgress(s, p, m))
  {
    assert ProducerOk(s.ch, s.reorder, s.lock, p, s.producers[p]);
  }

  lemma SpawnKeepsSetup(q: nat, s: State, p: nat, m: Msg)
    requires Setup(q, s) && p in s.producers && s.producers[p] == Spawn(m)
    ensures Setup(q, SpawnReorder(s, p, m))
  {
    assert ProducerOk(s.ch, s.reorder, s.lock, p, s.producers[p]);
  }

  lemma ReleaseKeepsSetup(q: nat, s: State, p: nat, m: Msg)
    requires Setup(q, s) && p in s.producers && s.producers[p] == Release(m)
    ensures Setup(q, s.(lock := None, producers := s.producers[p := Sending(m)]))
  {
    assert ProducerOk(s.ch, s.reorder, s.lock, p, s.producers[p]);
  }

  lemma PutKeepsSetup(q: nat, s: State, p: nat, m: Msg)
    requires Setup(q, s) && p in s.producers && s.producers[p] == Sending(m)
    ensures Setup(q, Put(q, s, p, m))
  {
  }

  lemma ProducersKeepSetup(q: nat, s: State, l: Label)
    requires Setup(q, s) && IsProducerLabel(l)
    ensures Setup(q, ProducerStep(q, s, l))
  {
    if l.p in s.producers {
      var p := l.p;
      match s.producers[p]
      case WantLock(m) => LockKeepsSetup(q, s, p, m);
      case MakeIngress(m) => CreateIngressKeepsSetup(q, s, p, m);
      case MakeEgress(m) => CreateEgressKeepsSetup(q, s, p, m);
      case Spawn(m) => SpawnKeepsSetup(q, s, p, m);
      case Release(m) => ReleaseKeepsSetup(q, s, p, m);
      case Sending(m) => PutKeepsSetup(q, s, p, m);
    }
  }

  lemma TakeKeepsSetup(q: nat, s: State, c: Class)
    requires Setup(q, s)
    ensures Setup(q, Take(s, c))
  {
  }

  lemma ReceiveKeepsSetup(q: nat, s: State, d: Drain)
    requires Setup(q, s) && !s.reorder.NotStarted?
    ensures Setup(q, Receive(s, d))
  {
  }

  lemma EmitKeepsSetup(q: nat, s: State, m: Msg, d: Drain)
    requires Setup(q, s) && !s.reorder.NotStarted? && HasRoom(s.ch.egress, q)
    ensures Setup(q, Emit(s, m, d))
  {
  }

  lemma LookKeepsSetup(q: nat, s: State, r: Reorder, stolen: nat)
    requires Setup(q, s) && !s.reorder.NotStarted? && !r.NotStarted?
    ensures Setup(q, s.(reorder := r)) && Setup(q, s.(reorder := r, stolen := stolen))
  {
  }

  lemma ReorderKeepsSetup(q: nat, s: State, l: Label)
    requires Setup(q, s)
    ensures Setup(q, ReorderStep(q, s, l))
  {
    var t := ReorderStep(q, s, l);
    if l.RTake? {
      TakeKeepsSetup(q, s, l.c);
    } else if s.reorder.Draining? && l.RReceive? {
      ReceiveKeepsSetup(q, s, s.reorder.d);
    } else if s.reorder.Draining? && l.RSendFirst? {
      var d := s.reorder.d;
      if t != s { EmitKeepsSetup(q, s, d.first.value.m, d.(first := None)); }
    } else if s.reorder.Draining? && l.RSendHand? {
      var d := s.reorder.d;
      if t != s { EmitKeepsSetup(q, s, d.hand.value, d.Sent()); }
    } else if t != s {
      LookKeepsSetup(q, s, t.reorder, t.stolen);
    }
  }

  lemma ChooseKeepsSetup(q: nat, s: State, w: nat)
    requires Setup(q, s)
    ensures Setup(q, Choose(s, w))
  {
  }

  lemma TakeDirectKeepsSetup(q: nat, s: State, w: nat)
    requires Setup(q, s)
    ensures Setup(q, TakeDirect(s, w))
  {
  }

  lemma TakeEgressKeepsSetup(q: nat, s: State, w: nat)
    requires Setup(q, s)
    ensures Setup(q, TakeEgress(s, w))
  {
  }

  lemma WorkersKeepSetup(q: nat, s: State, l: Label)
    requires Setup(q, s) && IsWorkerLabel(l)
    ensures Setup(q, WorkerStep(s, l))
  {
    if l.w in s.workers {
      ChooseKeepsSetup(q, s, l.w);
      TakeDirectKeepsSetup(q, s, l.w);
      TakeEgressKeepsSetup(q, s, l.w);
    }
  }

  lemma SetupKept(q: nat, s: State, l: Label)
    requires Setup(q, s)
    ensures Setup(q, Step(q, s, l))
  {
    if IsProducerLabel(l) {
      ProducersKeepSetup(q, s, l);
    } else if IsWorkerLabel(l) {
      WorkersKeepSetup(q, s, l);
    } else {
      ReorderKeepsSetup(q, s, l);
    }
  }
}
