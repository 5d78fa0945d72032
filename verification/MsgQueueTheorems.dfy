/** The promises of the message queue, each for every schedule. */
module MsgQueueTheorems {
  import opened Collections
  import opened MsgQueue
  import opened MsgQueueOrder
  import opened MsgQueueFlow

  lemma Holds(q: nat, ls: seq<Label>)
    ensures Inv(q, Run(q, Init(), ls))
  {
    InitHolds(q);
    RunKeeps(q, Init(), ls);
  }

  // ----- Lazy creation -----

  /** However many first senders race, each channel is made once, reorder is started
      once, never before its channel exists, and no one sends on a nil channel. */
  lemma EachMadeOnce(q: nat, ls: seq<Label>)
    ensures var s := Run(q, Init(), ls);
            && s.created.high <= 1 && s.created.low <= 1 && s.created.egress <= 1 && s.created.reorder <= 1
            && (s.created.high == 1 <==> s.ch.high.Made?) && (s.created.low == 1 <==> s.ch.low.Made?)
            && (s.created.reorder == 1 ==> s.created.egress == 1 && s.ch.egress.Made?)
            && (s.created.egress == 1 && s.lock.None? ==> s.created.reorder == 1)
            && (forall p :: p in s.producers && s.producers[p].Sending? ==>
                  s.ch.Ingress(ClassOf(s.producers[p].m)).Made?)
  {
    Holds(q, ls);
    var s := Run(q, Init(), ls);
    forall p | p in s.producers && s.producers[p].Sending?
      ensures s.ch.Ingress(ClassOf(s.producers[p].m)).Made?
    {
      assert ProducerOk(s.ch, s.reorder, s.lock, p, s.producers[p]);
    }
  }

  // ----- Order -----

  lemma NothingHeld(put: seq<Msg>, sent: seq<Msg>, queued: seq<Msg>)
    ensures Line(put, sent, [], queued) <==> put == sent + queued
  {
    assert sent + [] + queued == sent + queued;
  }

  lemma NothingQueued(put: seq<Msg>, sent: seq<Msg>, hand: seq<Msg>)
    ensures Line(put, sent, hand, []) <==> put == sent + hand
  {
    assert sent + hand + [] == sent + hand;
  }

  /** High and low messages leave in the order they came, with nothing in between
      lost; so do the normal ones, but for those a stale worker took directly. */
  lemma ClassOrder(q: nat, ls: seq<Label>)
    ensures var s := Run(q, Init(), ls);
            && Filter(s.log.put, High) == Filter(s.log.sent, High) + HandOf(s.reorder, High) + Content(s.ch.high)
            && Filter(s.log.put, Low) == Filter(s.log.sent, Low) + HandOf(s.reorder, Low) + Content(s.ch.low)
            && Filter(s.log.put, Normal) == Outs(s.log.outs) + Content(s.ch.normal)
            && OutsBy(s.log.outs, false) == Filter(s.log.sent, Normal) + HandOf(s.reorder, Normal)
            && s.log.sent == s.log.taken + Content(s.ch.egress)
  {
    Holds(q, ls);
    var s := Run(q, Init(), ls);
    NothingHeld(Filter(s.log.put, Normal), Outs(s.log.outs), Content(s.ch.normal));
    NothingHeld(s.log.sent, s.log.taken, Content(s.ch.egress));
    NothingQueued(OutsBy(s.log.outs, false), Filter(s.log.sent, Normal), HandOf(s.reorder, Normal));
  }

  /** Egress is a sequence of rounds, each high* normal* low* and no longer than the
      message the select took plus three full queues. */
  lemma EgressInRounds(q: nat, ls: seq<Label>)
    ensures var s := Run(q, Init(), ls);
            && s.log.sent == Flatten(s.rounds)
            && forall k :: 0 <= k < |s.rounds| ==> Shaped(s.rounds[k]) && |s.rounds[k]| <= 3 * q + 1
  {
    Holds(q, ls);
  }

  // ----- Conservation -----

  lemma {:induction false} PartitionAt(ms: seq<Msg>, m: Msg)
    ensures multiset(Filter(ms, ClassOf(m)))[m] == multiset(ms)[m]
    ensures forall c :: c != ClassOf(m) ==> multiset(Filter(ms, c))[m] == 0
  {
    if ms != [] {
      PartitionAt(ms[..|ms| - 1], m);
      assert ms == ms[..|ms| - 1] + [ms[|ms| - 1]];
    }
  }

  lemma ClassesPartition(ms: seq<Msg>)
    ensures multiset(ms) == multiset(Filter(ms, High)) + multiset(Filter(ms, Normal)) + multiset(Filter(ms, Low))
  {
    var all, h, n, l := multiset(ms), multiset(Filter(ms, High)), multiset(Filter(ms, Normal)),
        multiset(Filter(ms, Low));
    forall m ensures all[m] == h[m] + n[m] + l[m] {
      PartitionAt(ms, m);
    }
  }

  lemma {:induction false} OutsPartition(os: seq<Out>)
    ensures multiset(Outs(os)) == multiset(OutsBy(os, true)) + multiset(OutsBy(os, false))
  {
    if os != [] {
      OutsPartition(os[..|os| - 1]);
    }
  }

  function InHands(r: Reorder): multiset<Msg> {
    multiset(HandOf(r, High)) + multiset(HandOf(r, Normal)) + multiset(HandOf(r, Low))
  }

  lemma LineCounts(put: seq<Msg>, sent: seq<Msg>, hand: seq<Msg>, queued: seq<Msg>)
    requires Line(put, sent, hand, queued)
    ensures multiset(put) == multiset(sent) + multiset(hand) + multiset(queued)
  {
  }

  lemma ClassCounts(c: Class, ch: Chans, r: Reorder, log: Log)
    requires OrderOf(c, ch, r, log)
    ensures multiset(Filter(log.put, c))
            == multiset(Filter(log.sent, c)) + multiset(HandOf(r, c)) + multiset(Content(ch.Ingress(c)))
  {
    LineCounts(Filter(log.put, c), Filter(log.sent, c), HandOf(r, c), Content(ch.Ingress(c)));
  }

  lemma NormalCounts(ch: Chans, r: Reorder, log: Log)
    requires OrderOfNormal(ch, r, log)
    ensures multiset(Filter(log.put, Normal)) == multiset(Outs(log.outs)) + multiset(Content(ch.normal))
    ensures multiset(OutsBy(log.outs, false)) == multiset(Filter(log.sent, Normal)) + multiset(HandOf(r, Normal))
  {
    LineCounts(Filter(log.put, Normal), Outs(log.outs), [], Content(ch.normal));
    LineCounts(OutsBy(log.outs, false), Filter(log.sent, Normal), HandOf(r, Normal), []);
  }

  lemma OrderCounts(s: State)
    requires Order(s.ch, s.reorder, s.log) && Egress(s.ch, s.log)
    ensures multiset(Filter(s.log.put, High))
            == multiset(Filter(s.log.sent, High)) + multiset(HandOf(s.reorder, High)) + multiset(Content(s.ch.high))
    ensures multiset(Filter(s.log.put, Low))
            == multiset(Filter(s.log.sent, Low)) + multiset(HandOf(s.reorder, Low)) + multiset(Content(s.ch.low))
    ensures multiset(Filter(s.log.put, Normal)) == multiset(Outs(s.log.outs)) + multiset(Content(s.ch.normal))
    ensures multiset(OutsBy(s.log.outs, false))
            == multiset(Filter(s.log.sent, Normal)) + multiset(HandOf(s.reorder, Normal))
    ensures multiset(s.log.sent) == multiset(s.log.taken) + multiset(Content(s.ch.egress))
  {
    ClassCounts(High, s.ch, s.reorder, s.log);
    ClassCounts(Low, s.ch, s.reorder, s.log);
    NormalCounts(s.ch, s.reorder, s.log);
    LineCounts(s.log.sent, s.log.taken, [], Content(s.ch.egress));
  }

  /** What there is of each class. */
  datatype Classes = Classes(high: multiset<Msg>, normal: multiset<Msg>, low: multiset<Msg>) {
    function All(): multiset<Msg> { high + normal + low }
  }

  function ClassesOf(l: seq<Msg>): Classes {
    Classes(multiset(Filter(l, High)), multiset(Filter(l, Normal)), multiset(Filter(l, Low)))
  }

  lemma Balance(put: Classes, sent: Classes, hands: Classes, queued: Classes, egress: multiset<Msg>,
                taken: multiset<Msg>, direct: multiset<Msg>)
    requires put.high == sent.high + hands.high + queued.high && put.low == sent.low + hands.low + queued.low
    requires put.normal == direct + (sent.normal + hands.normal) + queued.normal && sent.All() == taken + egress
    ensures put.All() == queued.All() + hands.All() + egress + taken + direct
  {
    forall m: Msg ensures put.All()[m] == (queued.All() + hands.All() + egress + taken + direct)[m] {
      assert sent.All()[m] == taken[m] + egress[m];
    }
  }

  /** No message is lost and none is duplicated, across the switch from direct to
      egress mode: what was put is queued, in reorder's hands, in egress, or was
      taken by a worker. */
  lemma Conservation(q: nat, ls: seq<Label>)
    ensures var s := Run(q, Init(), ls);
            multiset(s.log.put) ==
              multiset(Content(s.ch.high)) + multiset(Content(s.ch.normal)) + multiset(Content(s.ch.low))
              + InHands(s.reorder) + multiset(Content(s.ch.egress))
              + multiset(s.log.taken) + multiset(OutsBy(s.log.outs, true))
  {
    Holds(q, ls);
    var s := Run(q, Init(), ls);
    OrderCounts(s);
    ClassesPartition(s.log.put);
    ClassesPartition(s.log.sent);
    OutsPartition(s.log.outs);
    var put, sent, r, ch := s.log.put, s.log.sent, s.reorder, s.ch;
    Balance(ClassesOf(put), ClassesOf(sent),
            Classes(multiset(HandOf(r, High)), multiset(HandOf(r, Normal)), multiset(HandOf(r, Low))),
            Classes(multiset(Content(ch.high)), multiset(Content(ch.normal)), multiset(Content(ch.low))),
            multiset(Content(ch.egress)), multiset(s.log.taken), multiset(OutsBy(s.log.outs, true)));
  }

  // ----- No drain loop ever waits on an empty queue -----

  /** A worker still parked on the old normal queue although egress exists. */
  ghost predicate NoStaleWorker(s: State) {
    s.ch.egress.Made? && forall w :: w in s.workers ==> !s.workers[w].OnNormal?
  }

  predicate WantsToReceive(s: State) {
    s.reorder.Draining? && !s.reorder.d.FirstDue() && s.reorder.d.hand.None? && s.reorder.d.Rem() > 0
  }

  lemma CountedMessageIsThere(q: nat, s: State)
    requires Inv(q, s) && WantsToReceive(s) && (s.reorder.d.phase == Normal ==> s.stolen == 0)
    ensures Len(s.ch.Ingress(s.reorder.d.phase)) > 0
  {
  }

  /** The receive of a drain loop finds a message: always for high and low, and for
      normal unless a stale worker took one since the count. */
  lemma DrainNeverStarves(q: nat, ls: seq<Label>)
    ensures var s := Run(q, Init(), ls);
            WantsToReceive(s) && (s.reorder.d.phase == Normal ==> s.stolen == 0)
            ==> Len(s.ch.Ingress(s.reorder.d.phase)) > 0
  {
    Holds(q, ls);
    var s := Run(q, Init(), ls);
    if WantsToReceive(s) && (s.reorder.d.phase == Normal ==> s.stolen == 0) {
      CountedMessageIsThere(q, s);
    }
  }

  lemma ProducersAddNoStale(q: nat, s: State, l: Label)
    requires NoStaleWorker(s) && IsProducerLabel(l)
    ensures NoStaleWorker(ProducerStep(q, s, l)) && ProducerStep(q, s, l).stolen == s.stolen
  {
    assert ProducerStep(q, s, l).workers == s.workers;
  }

  lemma ReorderAddsNoStale(q: nat, s: State, l: Label)
    requires NoStaleWorker(s)
    ensures NoStaleWorker(ReorderStep(q, s, l)) && ReorderStep(q, s, l).stolen <= s.stolen
  {
    assert ReorderStep(q, s, l).workers == s.workers;
  }

  lemma WorkersAddNoStale(s: State, l: Label)
    requires NoStaleWorker(s) && IsWorkerLabel(l)
    ensures NoStaleWorker(WorkerStep(s, l)) && WorkerStep(s, l).stolen == s.stolen
  {
    if l.w in s.workers {
      assert !s.workers[l.w].OnNormal?;
    }
  }

  lemma NoNewStaleWorker(q: nat, s: State, l: Label)
    requires NoStaleWorker(s)
    ensures NoStaleWorker(Step(q, s, l)) && Step(q, s, l).stolen <= s.stolen
  {
    if IsProducerLabel(l) {
      ProducersAddNoStale(q, s, l);
    } else if IsWorkerLabel(l) {
      WorkersAddNoStale(s, l);
    } else {
      ReorderAddsNoStale(q, s, l);
    }
  }

  lemma {:induction false} StaleWorkersAreGone(q: nat, s: State, ls: seq<Label>)
    requires NoStaleWorker(s)
    ensures NoStaleWorker(Run(q, s, ls)) && Run(q, s, ls).stolen <= s.stolen
    decreases |ls|
  {
    if ls != [] {
      StaleWorkersAreGone(q, s, ls[..|ls| - 1]);
      NoNewStaleWorker(q, Run(q, s, ls[..|ls| - 1]), ls[|ls| - 1]);
    }
  }

  /** Once no stale worker is left none comes back, and after the next count of the
      normal queue (which sets `stolen` to 0) no drain starves, whatever its class. */
  lemma NoDrainStarvesAgain(q: nat, ls: seq<Label>, more: seq<Label>)
    requires NoStaleWorker(Run(q, Init(), ls)) && Run(q, Init(), ls).stolen == 0
    ensures var t := Run(q, Run(q, Init(), ls), more);
            NoStaleWorker(t) && (WantsToReceive(t) ==> Len(t.ch.Ingress(t.reorder.d.phase)) > 0)
  {
    var s := Run(q, Init(), ls);
    var t := Run(q, s, more);
    Holds(q, ls);
    RunKeeps(q, s, more);
    StaleWorkersAreGone(q, s, more);
    if WantsToReceive(t) {
      CountedMessageIsThere(q, t);
    }
  }
}
