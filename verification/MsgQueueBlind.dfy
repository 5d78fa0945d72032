/** Where the queue's progress ends.

  Reorder reads the operands of its select once, on entry, so a channel made later is not
  among them until some other message wakes it: a first low, or a first high, message can
  wait without bound behind that.  And a drain loop that was promised a normal message
  which a worker then took directly waits for another one, with everything behind it. */
module MsgQueueBlind {
  import opened Collections
  import opened MsgQueue
  import opened MsgQueueOrder
  import opened MsgQueueFlow
  import opened MsgQueueTheorems
  import opened MsgQueueWaiting

  // ----- Blind -----

  /** Reorder reads this channel for its next select, or has it among the operands. */
  predicate Watched(r: Reorder, c: Class) {
    match r
    case Parked(_, high, low) => (c == High ==> high) && (c == Low ==> low)
    case OperandLow(_, high) => c == High ==> high
    case _ => true
  }

  /** At its select, or past the reading of the high operand, with nothing in the channels
      that it watches and something in another. */
  ghost predicate Blind(s: State) {
    && (s.reorder.Parked? || s.reorder.OperandLow?)
    && (forall c :: Watched(s.reorder, c) ==> Len(s.ch.Ingress(c)) == 0)
    && (exists c :: !Watched(s.reorder, c) && Len(s.ch.Ingress(c)) > 0)
  }

  predicate StillThere(r: Reorder, r': Reorder) {
    || r'.Stopped? || r' == r
    || (r.OperandLow? && r'.Parked? && r'.high == r.high)
  }

  ghost predicate StillBlind(s: State, t: State) {
    && StillThere(s.reorder, t.reorder)
    && (forall c :: Watched(s.reorder, c) ==> Len(t.ch.Ingress(c)) == 0)
    && t.log.sent == s.log.sent
    && (forall c :: !Watched(s.reorder, c) ==> Left(t.ch, t.log, c) == Left(s.ch, s.log, c))
  }

  function PutOf(s: State, c: Class): nat {
    |Filter(s.log.put, c)|
  }

  /** Nothing was put in a channel that s watches. */
  ghost predicate NoneWatchedPut(s: State, t: State, u: State) {
    forall c :: Watched(s.reorder, c) ==> PutOf(u, c) == PutOf(t, c)
  }

  lemma ReorderPutsNothing(q: nat, s: State, l: Label)
    ensures ReorderStep(q, s, l).log.put == s.log.put
  {
  }

  lemma ProducerLog(q: nat, s: State, l: Label)
    requires IsProducerLabel(l)
    ensures var log := ProducerStep(q, s, l).log;
            log == s.log || (l.p in s.producers && log.put == s.log.put + [s.producers[l.p].m])
  {
  }

  lemma ProducersPutMore(q: nat, s: State, l: Label, c: Class)
    requires IsProducerLabel(l)
    ensures PutOf(s, c) <= PutOf(ProducerStep(q, s, l), c)
  {
    ProducerLog(q, s, l);
    if l.p in s.producers {
      FilterAppend(s.log.put, s.producers[l.p].m, c);
    }
  }

  lemma PutsGrow(q: nat, s: State, l: Label, c: Class)
    ensures PutOf(s, c) <= PutOf(Step(q, s, l), c)
  {
    if IsProducerLabel(l) {
      ProducersPutMore(q, s, l, c);
    } else if IsWorkerLabel(l) {
      WorkerFrame(s, l);
    } else {
      ReorderPutsNothing(q, s, l);
    }
  }

  lemma {:induction false} RunPutsGrow(q: nat, s: State, ls: seq<Label>, c: Class)
    ensures PutOf(s, c) <= PutOf(Run(q, s, ls), c)
    decreases |ls|
  {
    if ls != [] {
      RunPutsGrow(q, s, ls[..|ls| - 1], c);
      PutsGrow(q, Run(q, s, ls[..|ls| - 1]), ls[|ls| - 1], c);
    }
  }

  lemma BlindPut(q: nat, s: State, t: State, p: nat, m: Msg)
    requires StillBlind(s, t) && NoneWatchedPut(s, t, Put(q, t, p, m))
    ensures StillBlind(s, Put(q, t, p, m))
  {
    var u := Put(q, t, p, m);
    if u != t {
      forall c ensures Left(u.ch, u.log, c) == Left(t.ch, t.log, c) {
        PutLeaves(t.ch, t.log, m, c);
      }
      FilterAppend(t.log.put, m, ClassOf(m));
      assert PutOf(u, ClassOf(m)) != PutOf(t, ClassOf(m));
    }
  }

  lemma BlindFrame(s: State, t: State, u: State)
    requires StillBlind(s, t) && SameTally(t, u) && u.reorder == t.reorder
    ensures StillBlind(s, u)
  {
    assert forall c :: Len(u.ch.Ingress(c)) == Len(t.ch.Ingress(c));
  }

  lemma BlindProducers(q: nat, s: State, t: State, l: Label)
    requires Setup(q, t) && StillBlind(s, t) && !t.reorder.NotStarted? && IsProducerLabel(l)
    requires NoneWatchedPut(s, t, ProducerStep(q, t, l))
    ensures StillBlind(s, ProducerStep(q, t, l))
  {
    ProducerFrame(q, t, l);
    if SameTally(t, ProducerStep(q, t, l)) {
      if l.p in t.producers {
        assert ProducerOk(t.ch, t.reorder, t.lock, l.p, t.producers[l.p]);
      }
      BlindFrame(s, t, ProducerStep(q, t, l));
    } else {
      BlindPut(q, s, t, l.p, t.producers[l.p].m);
    }
  }

  lemma BlindReorder(q: nat, s: State, t: State, l: Label)
    requires (s.reorder.Parked? || s.reorder.OperandLow?) && StillBlind(s, t)
    ensures StillBlind(s, ReorderStep(q, t, l))
  {
    if l.RTake? && t.reorder.Parked? && Watched(t.reorder, l.c) {
      assert l.c != Low && s.reorder.OperandLow? ==> Watched(s.reorder, l.c);
      assert Watched(s.reorder, l.c);
    }
  }

  lemma BlindWorkers(s: State, t: State, l: Label)
    requires (s.reorder.Parked? || s.reorder.OperandLow?) && StillBlind(s, t) && IsWorkerLabel(l)
    ensures StillBlind(s, WorkerStep(t, l))
  {
    WorkerFrame(t, l);
    if SameTally(t, WorkerStep(t, l)) {
      BlindFrame(s, t, WorkerStep(t, l));
    } else {
      assert Watched(s.reorder, Normal);
    }
  }

  lemma BlindStep(q: nat, s: State, t: State, l: Label)
    requires Setup(q, t) && (s.reorder.Parked? || s.reorder.OperandLow?) && StillBlind(s, t)
    requires NoneWatchedPut(s, t, Step(q, t, l))
    ensures StillBlind(s, Step(q, t, l))
  {
    if IsProducerLabel(l) {
      BlindProducers(q, s, t, l);
    } else if IsWorkerLabel(l) {
      BlindWorkers(s, t, l);
    } else if IsQuietLabel(l) {
      BlindFrame(s, t, Step(q, t, l));
    } else {
      BlindReorder(q, s, t, l);
    }
  }

  /** No fairness helps: until some message is put in a watched channel, whatever else the
      goroutines do, nothing more is sent to egress and no waiting message moves. */
  lemma {:induction false} BlindUntilWoken(q: nat, s: State, ls: seq<Label>)
    requires Inv(q, s) && Blind(s) && NoneWatchedPut(s, s, Run(q, s, ls))
    ensures StillBlind(s, Run(q, s, ls))
    decreases |ls|
  {
    if ls != [] {
      var init, l := ls[..|ls| - 1], ls[|ls| - 1];
      var t := Run(q, s, init);
      forall c | Watched(s.reorder, c)
        ensures PutOf(t, c) == PutOf(s, c) && PutOf(Step(q, t, l), c) == PutOf(t, c)
      {
        RunPutsGrow(q, s, init, c);
        PutsGrow(q, t, l, c);
      }
      BlindUntilWoken(q, s, init);
      RunKeeps(q, s, init);
      BlindStep(q, s, t, l);
    }
  }
}
