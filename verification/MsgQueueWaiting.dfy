/** How long a message waits, counted in egress sends, for every schedule.

  Both bounds are potential arguments: a function of the state bounds the sends still
  to come before the message moves, and no step lets "sends so far plus potential"
  grow while it has not moved. */
module MsgQueueWaiting {
  import opened Collections
  import opened MsgQueue
  import opened MsgQueueOrder
  import opened MsgQueueFlow
  import opened MsgQueueTheorems

  /** How many messages of class `c` have left their ingress queue. */
  function Left(ch: Chans, log: Log, c: Class): int {
    |Filter(log.put, c)| - Len(ch.Ingress(c))
  }

  lemma PutLeaves(ch: Chans, log: Log, m: Msg, c: Class)
    ensures Left(ch.Push(ClassOf(m), m), log.(put := log.put + [m]), c) == Left(ch, log, c)
  {
    FilterAppend(log.put, m, c);
  }

  lemma PopLeaves(ch: Chans, log: Log, k: Class, c: Class)
    requires Len(ch.Ingress(k)) > 0
    ensures Left(ch.Pop(k), log, c) == Left(ch, log, c) + if c == k then 1 else 0
  {
  }

  // ----- Any class: out of ingress within two rounds -----

  /** This round's drain loop will receive the message with index `k` of class `c`,
      when `left` messages of the class have left. */
  predicate Covered(r: Reorder, c: Class, left: int, k: nat)
    requires HandOk(r)
  {
    match r
    case CountLow(_) => true
    case CountNormal(_, lenLow) => c == Low ==> k < left + lenLow
    case CountHigh(_, lenLow, lenNormal) => (c == Low ==> k < left + lenLow) && (c == Normal ==> k < left + lenNormal)
    case Draining(d) => k < left + Owed(d, c)
    case _ => false
  }

  /** At least the sends to come before that message leaves its queue. */
  function SendsAhead(q: nat, r: Reorder, c: Class, left: int, k: nat): nat
    requires HandOk(r)
  {
    Remaining(q, r) + if Covered(r, c, left, k) then 0 else RoundCap(q)
  }

  /** The message with index `k` of its class is in its ingress queue. */
  predicate Waiting(s: State, c: Class, k: nat) {
    Left(s.ch, s.log, c) <= k < |Filter(s.log.put, c)|
  }

  function Tally(q: nat, s: State, c: Class, k: nat): nat
    requires HandOk(s.reorder)
  {
    |s.log.sent| + SendsAhead(q, s.reorder, c, Left(s.ch, s.log, c), k)
  }

  /** Messages only ever leave, and a step that leaves a waiting message where it is
      does not let its tally grow. */
  ghost predicate TallyKept(q: nat, s: State, t: State, c: Class, k: nat)
    requires HandOk(s.reorder) && HandOk(t.reorder)
  {
    && Left(s.ch, s.log, c) <= Left(t.ch, t.log, c)
    && |Filter(s.log.put, c)| <= |Filter(t.log.put, c)|
    && (Waiting(s, c, k) && Left(t.ch, t.log, c) <= k ==> Tally(q, t, c, k) <= Tally(q, s, c, k))
  }

  lemma PutGrows(put: seq<Msg>, m: Msg, c: Class)
    ensures |Filter(put, c)| <= |Filter(put + [m], c)|
  {
    FilterAppend(put, m, c);
  }

  lemma PutTally(q: nat, s: State, p: nat, m: Msg, c: Class, k: nat)
    requires HandOk(s.reorder)
    ensures TallyKept(q, s, Put(q, s, p, m), c, k)
  {
    PutLeaves(s.ch, s.log, m, c);
    PutGrows(s.log.put, m, c);
  }

  lemma TakeTally(q: nat, s: State, j: Class, c: Class, k: nat)
    requires HandOk(s.reorder) && HandOk(Take(s, j).reorder)
    ensures TallyKept(q, s, Take(s, j), c, k)
  {
  }

  lemma ReceiveAhead(q: nat, d: Drain, m: Msg, c: Class, left: int, k: nat)
    requires DrainOk(d) && DrainOk(d.(hand := Some(m))) && d.hand.None?
    ensures var left' := left + if c == d.phase then 1 else 0;
            SendsAhead(q, Draining(d.(hand := Some(m))), c, left', k) == SendsAhead(q, Draining(d), c, left, k)
  {
  }

  lemma ReceiveTally(q: nat, s: State, d: Drain, c: Class, k: nat)
    requires s.reorder == Draining(d) && HandOk(s.reorder) && HandOk(Receive(s, d).reorder)
    ensures TallyKept(q, s, Receive(s, d), c, k)
  {
    if Receive(s, d) != s {
      ReceiveAhead(q, d, s.ch.Ingress(d.phase).q[0], c, Left(s.ch, s.log, c), k);
      PopLeaves(s.ch, s.log, d.phase, c);
    }
  }

  lemma SendAhead(q: nat, d: Drain, c: Class, left: int, k: nat)
    requires DrainOk(d)
    ensures d.FirstDue() ==>
            SendsAhead(q, Draining(d.(first := None)), c, left, k) + 1
            == SendsAhead(q, Draining(d), c, left, k)
    ensures d.hand.Some? ==> DrainOk(d.Sent())
    ensures d.hand.Some? ==> SendsAhead(q, Draining(d.Sent()), c, left, k) + 1 == SendsAhead(q, Draining(d), c, left, k)
  {
  }

  lemma SendFirstTally(q: nat, s: State, d: Drain, c: Class, k: nat)
    requires s.reorder == Draining(d) && DrainOk(d)
    ensures HandOk(SendFirst(q, s, d).reorder) && TallyKept(q, s, SendFirst(q, s, d), c, k)
  {
    SendAhead(q, d, c, Left(s.ch, s.log, c), k);
  }

  lemma SendHandTally(q: nat, s: State, d: Drain, c: Class, k: nat)
    requires s.reorder == Draining(d) && DrainOk(d)
    ensures HandOk(SendHand(q, s, d).reorder) && TallyKept(q, s, SendHand(q, s, d), c, k)
  {
    SendAhead(q, d, c, Left(s.ch, s.log, c), k);
  }

  lemma NextTally(q: nat, s: State, d: Drain, c: Class, k: nat)
    requires s.reorder == Draining(d) && DrainOk(d)
    ensures HandOk(NextPhase(s, d).reorder) && TallyKept(q, s, NextPhase(s, d), c, k)
  {
  }

  /** Counting a queue covers everything that is in it. */
  lemma CountAhead(q: nat, r: Reorder, c: Class, left: int, k: nat, n: nat)
    requires Counting(r) && HandOk(r) && n <= q
    ensures r.CountLow? && (c == Low ==> k < left + n) ==>
              SendsAhead(q, CountNormal(r.got, n), c, left, k) <= SendsAhead(q, r, c, left, k)
    ensures r.CountNormal? && (c == Normal ==> k < left + n) ==>
              SendsAhead(q, CountHigh(r.got, r.lenLow, n), c, left, k) <= SendsAhead(q, r, c, left, k)
    ensures r.CountHigh? && (c == High ==> k < left + n) ==>
              SendsAhead(q, Draining(Drain(High, Some(r.got), None, n, r.lenNormal, r.lenLow)), c, left, k)
              <= SendsAhead(q, r, c, left, k)
  {
  }

  lemma OperandTally(q: nat, s: State, l: Label, c: Class, k: nat)
    requires Idle(s.reorder)
    ensures HandOk(OperandStep(s, l).reorder) && TallyKept(q, s, OperandStep(s, l), c, k)
  {
    OperandsStayIdle(s, l);
    FrameTally(q, s, OperandStep(s, l), c, k);
  }

  lemma MoveTally(q: nat, s: State, r': Reorder, stolen': nat, c: Class, k: nat)
    requires HandOk(s.reorder) && HandOk(r')
    requires Left(s.ch, s.log, c) <= k < |Filter(s.log.put, c)| ==>
               SendsAhead(q, r', c, Left(s.ch, s.log, c), k) <= SendsAhead(q, s.reorder, c, Left(s.ch, s.log, c), k)
    ensures TallyKept(q, s, s.(reorder := r'), c, k) && TallyKept(q, s, s.(reorder := r', stolen := stolen'), c, k)
  {
  }

  lemma CountLowTally(q: nat, s: State, c: Class, k: nat)
    requires HandOk(s.reorder) && Bounded(q, s.ch) && s.reorder.CountLow?
    ensures HandOk(CountStep(s, RCountLow).reorder) && TallyKept(q, s, CountStep(s, RCountLow), c, k)
  {
    CountAhead(q, s.reorder, c, Left(s.ch, s.log, c), k, Len(s.ch.low));
    MoveTally(q, s, CountNormal(s.reorder.got, Len(s.ch.low)), 0, c, k);
  }

  lemma CountNormalTally(q: nat, s: State, c: Class, k: nat)
    requires HandOk(s.reorder) && Bounded(q, s.ch) && s.reorder.CountNormal?
    ensures HandOk(CountStep(s, RCountNormal).reorder) && TallyKept(q, s, CountStep(s, RCountNormal), c, k)
  {
    CountAhead(q, s.reorder, c, Left(s.ch, s.log, c), k, Len(s.ch.normal));
    MoveTally(q, s, CountHigh(s.reorder.got, s.reorder.lenLow, Len(s.ch.normal)), 0, c, k);
  }

  lemma CountHighTally(q: nat, s: State, c: Class, k: nat)
    requires HandOk(s.reorder) && Bounded(q, s.ch) && s.reorder.CountHigh?
    ensures HandOk(CountStep(s, RCountHigh).reorder) && TallyKept(q, s, CountStep(s, RCountHigh), c, k)
  {
    var r := s.reorder;
    CountAhead(q, r, c, Left(s.ch, s.log, c), k, Len(s.ch.high));
    MoveTally(q, s, RoundFrom(r.got, Len(s.ch.high), r.lenNormal, r.lenLow), 0, c, k);
  }

  lemma CountTally(q: nat, s: State, l: Label, c: Class, k: nat)
    requires HandOk(s.reorder) && Bounded(q, s.ch) && Counting(s.reorder)
    ensures HandOk(CountStep(s, l).reorder) && TallyKept(q, s, CountStep(s, l), c, k)
  {
    if CountStep(s, l) != s {
      match s.reorder
      case CountLow(_) => CountLowTally(q, s, c, k);
      case CountNormal(_, _) => CountNormalTally(q, s, c, k);
      case CountHigh(_, _, _) => CountHighTally(q, s, c, k);
    }
  }

  lemma DirectTally(q: nat, s: State, w: nat, c: Class, k: nat)
    requires HandOk(s.reorder)
    ensures TallyKept(q, s, TakeDirect(s, w), c, k)
  {
    if Len(s.ch.normal) > 0 {
      PopLeaves(s.ch, s.log, Normal, c);
    }
  }

  /** Nothing that the tally looks at has changed. */
  ghost predicate SameTally(s: State, t: State) {
    && t.log.put == s.log.put && t.log.sent == s.log.sent
    && (t.reorder == s.reorder || (Idle(s.reorder) && Idle(t.reorder)))
    && Len(t.ch.high) == Len(s.ch.high) && Len(t.ch.normal) == Len(s.ch.normal) && Len(t.ch.low) == Len(s.ch.low)
  }

  lemma FrameTally(q: nat, s: State, t: State, c: Class, k: nat)
    requires HandOk(s.reorder) && SameTally(s, t)
    ensures HandOk(t.reorder) && TallyKept(q, s, t, c, k)
  {
  }

  lemma OneProducerFrame(q: nat, s: State, l: Label)
    requires IsProducerLabel(l) && l.p in s.producers && ProducerOk(s.ch, s.reorder, s.lock, l.p, s.producers[l.p])
    ensures SameTally(s, ProducerStep(q, s, l)) || ProducerStep(q, s, l) == Put(q, s, l.p, s.producers[l.p].m)
  {
  }

  lemma ProducerFrame(q: nat, s: State, l: Label)
    requires Setup(q, s) && IsProducerLabel(l)
    ensures SameTally(s, ProducerStep(q, s, l))
            || (l.p in s.producers && ProducerStep(q, s, l) == Put(q, s, l.p, s.producers[l.p].m))
  {
    if l.p in s.producers {
      assert ProducerOk(s.ch, s.reorder, s.lock, l.p, s.producers[l.p]);
      OneProducerFrame(q, s, l);
    }
  }

  lemma WorkerFrame(s: State, l: Label)
    requires IsWorkerLabel(l)
    ensures SameTally(s, WorkerStep(s, l)) || WorkerStep(s, l) == TakeDirect(s, l.w)
  {
  }

  lemma ReorderTally(q: nat, s: State, l: Label, c: Class, k: nat)
    requires HandOk(s.reorder) && Bounded(q, s.ch) && HandOk(ReorderStep(q, s, l).reorder)
    ensures TallyKept(q, s, ReorderStep(q, s, l), c, k)
  {
    if l.RTake? {
      TakeTally(q, s, l.c, c, k);
    } else if s.reorder.Draining? {
      var d := s.reorder.d;
      match l
      case RSendFirst => SendFirstTally(q, s, d, c, k);
      case RSendHand => SendHandTally(q, s, d, c, k);
      case RReceive => ReceiveTally(q, s, d, c, k);
      case RNext => NextTally(q, s, d, c, k);
      case _ =>
    } else if Counting(s.reorder) {
      CountTally(q, s, l, c, k);
    } else {
      OperandTally(q, s, l, c, k);
    }
  }

  lemma ProducersTally(q: nat, s: State, l: Label, c: Class, k: nat)
    requires Setup(q, s) && HandOk(s.reorder) && IsProducerLabel(l)
    ensures HandOk(ProducerStep(q, s, l).reorder) && TallyKept(q, s, ProducerStep(q, s, l), c, k)
  {
    ProducerFrame(q, s, l);
    if SameTally(s, ProducerStep(q, s, l)) {
      FrameTally(q, s, ProducerStep(q, s, l), c, k);
    } else {
      PutTally(q, s, l.p, s.producers[l.p].m, c, k);
    }
  }

  lemma WorkersTally(q: nat, s: State, l: Label, c: Class, k: nat)
    requires HandOk(s.reorder) && IsWorkerLabel(l)
    ensures HandOk(WorkerStep(s, l).reorder) && TallyKept(q, s, WorkerStep(s, l), c, k)
  {
    WorkerFrame(s, l);
    if SameTally(s, WorkerStep(s, l)) {
      FrameTally(q, s, WorkerStep(s, l), c, k);
    } else {
      DirectTally(q, s, l.w, c, k);
    }
  }

  predicate IsQuietLabel(l: Label) {
    l.PBegin? || l.WStart? || l.CloseDone? || l.NilDone?
  }

  lemma QuietTally(q: nat, s: State, l: Label, c: Class, k: nat)
    requires HandOk(s.reorder) && IsQuietLabel(l)
    ensures HandOk(Step(q, s, l).reorder) && TallyKept(q, s, Step(q, s, l), c, k)
  {
    FrameTally(q, s, Step(q, s, l), c, k);
  }

  lemma StepTally(q: nat, s: State, l: Label, c: Class, k: nat)
    requires Setup(q, s) && HandOk(s.reorder) && HandOk(Step(q, s, l).reorder)
    ensures TallyKept(q, s, Step(q, s, l), c, k)
  {
    if IsProducerLabel(l) {
      ProducersTally(q, s, l, c, k);
    } else if IsWorkerLabel(l) {
      WorkersTally(q, s, l, c, k);
    } else if IsQuietLabel(l) {
      QuietTally(q, s, l, c, k);
    } else {
      ReorderTally(q, s, l, c, k);
    }
  }

  lemma {:induction false} RunTally(q: nat, s: State, ls: seq<Label>, c: Class, k: nat)
    requires Inv(q, s)
    ensures Inv(q, Run(q, s, ls)) && TallyKept(q, s, Run(q, s, ls), c, k)
    decreases |ls|
  {
    if ls != [] {
      var u, l := Run(q, s, ls[..|ls| - 1]), ls[|ls| - 1];
      RunTally(q, s, ls[..|ls| - 1], c, k);
      StepKeeps(q, u, l);
      StepTally(q, u, l, c, k);
    }
  }

  lemma AheadIsBounded(q: nat, s: State, c: Class, k: nat)
    requires Inv(q, s)
    ensures SendsAhead(q, s.reorder, c, Left(s.ch, s.log, c), k) <= 2 * RoundCap(q)
  {
  }

  /** A message of any class, low included, is out of its ingress queue before egress
      has seen two more rounds' worth of sends: as long as it waits, at most
      2 * (3 * q + 1) messages have been sent since it was put. */
  lemma OutWithinTwoRounds(q: nat, ls: seq<Label>, more: seq<Label>, c: Class, k: nat)
    requires Waiting(Run(q, Init(), ls), c, k)
    ensures var s := Run(q, Init(), ls);
            var t := Run(q, s, more);
            Left(t.ch, t.log, c) <= k ==> |t.log.sent| - |s.log.sent| <= 2 * (3 * q + 1)
  {
    var s := Run(q, Init(), ls);
    Holds(q, ls);
    RunTally(q, s, more, c, k);
    AheadIsBounded(q, s, c, k);
  }

  // ----- High messages overtake: out to egress past at most 2q + 1 others -----

  function SentOf(log: Log, c: Class): nat {
    |Filter(log.sent, c)|
  }

  function Others(log: Log): nat {
    SentOf(log, Normal) + SentOf(log, Low)
  }

  /** The high messages this round has still to send. */
  function HighDue(d: Drain): nat {
    d.remHigh + if d.first.Some? && d.first.value.c == High then 1 else 0
  }

  /** The most normal and low messages that can still go out before the high message
      with index `k`, when `sent` high messages have gone out. */
  function OthersAhead(r: Reorder, sent: nat, k: nat): nat {
    if r.Draining? && k >= sent + HighDue(r.d)
    then r.d.remNormal + r.d.remLow + (if r.d.first.Some? && r.d.first.value.c != High then 1 else 0)
    else 0
  }

  function HighTally(s: State, k: nat): nat {
    Others(s.log) + OthersAhead(s.reorder, SentOf(s.log, High), k)
  }

  ghost predicate HighKept(s: State, t: State, k: nat) {
    && SentOf(s.log, High) <= SentOf(t.log, High)
    && |Filter(s.log.put, High)| <= |Filter(t.log.put, High)|
    && (SentOf(t.log, High) <= k < |Filter(s.log.put, High)| ==> HighTally(t, k) <= HighTally(s, k))
  }

  lemma EmitHigh(q: nat, s: State, d: Drain, l: Label, k: nat)
    requires s.reorder == Draining(d) && DrainOk(d) && (l.RSendFirst? || l.RSendHand?)
    ensures HighKept(s, DrainStep(q, s, l, d), k)
  {
    if DrainStep(q, s, l, d) != s {
      var m := if l.RSendFirst? then d.first.value.m else d.hand.value;
      FilterAppend(s.log.sent, m, High);
      FilterAppend(s.log.sent, m, Normal);
      FilterAppend(s.log.sent, m, Low);
    }
  }

  lemma DrainHigh(q: nat, s: State, d: Drain, l: Label, k: nat)
    requires s.reorder == Draining(d) && DrainOk(d)
    ensures HighKept(s, DrainStep(q, s, l, d), k)
  {
    if l.RSendFirst? || l.RSendHand? {
      EmitHigh(q, s, d, l, k);
    }
  }

  /** The count of the high queue, taken last, covers every high message put so far. */
  lemma CountHighCoversAll(s: State)
    requires s.reorder.CountHigh? && OrderOf(High, s.ch, s.reorder, s.log)
    ensures var t := CountStep(s, RCountHigh);
            SentOf(t.log, High) + HighDue(t.reorder.d) == |Filter(t.log.put, High)|
  {
  }

  lemma CountHighKept(s: State, l: Label, k: nat)
    requires OrderOf(High, s.ch, s.reorder, s.log) && Counting(s.reorder)
    ensures HighKept(s, CountStep(s, l), k)
  {
    if l.RCountHigh? && s.reorder.CountHigh? {
      CountHighCoversAll(s);
    }
  }

  lemma ReorderHigh(q: nat, s: State, l: Label, k: nat)
    requires HandOk(s.reorder) && OrderOf(High, s.ch, s.reorder, s.log)
    ensures HighKept(s, ReorderStep(q, s, l), k)
  {
    if l.RTake? {
      assert Take(s, l.c) != s ==> !s.reorder.Draining?;
    } else if s.reorder.Draining? {
      DrainHigh(q, s, s.reorder.d, l, k);
    } else if Counting(s.reorder) {
      CountHighKept(s, l, k);
    } else {
      OperandsStayIdle(s, l);
      FrameHigh(s, OperandStep(s, l), k);
    }
  }

  lemma FrameHigh(s: State, t: State, k: nat)
    requires SameTally(s, t)
    ensures HighKept(s, t, k)
  {
  }

  lemma ProducersHigh(q: nat, s: State, l: Label, k: nat)
    requires Setup(q, s) && IsProducerLabel(l)
    ensures HighKept(s, ProducerStep(q, s, l), k)
  {
    ProducerFrame(q, s, l);
    if SameTally(s, ProducerStep(q, s, l)) {
      FrameHigh(s, ProducerStep(q, s, l), k);
    } else {
      PutGrows(s.log.put, s.producers[l.p].m, High);
    }
  }

  lemma WorkersHigh(s: State, l: Label, k: nat)
    requires IsWorkerLabel(l)
    ensures HighKept(s, WorkerStep(s, l), k)
  {
    WorkerFrame(s, l);
    if SameTally(s, WorkerStep(s, l)) {
      FrameHigh(s, WorkerStep(s, l), k);
    }
  }

  lemma StepHigh(q: nat, s: State, l: Label, k: nat)
    requires Setup(q, s) && HandOk(s.reorder) && OrderOf(High, s.ch, s.reorder, s.log)
    ensures HighKept(s, Step(q, s, l), k)
  {
    if IsProducerLabel(l) {
      ProducersHigh(q, s, l, k);
    } else if IsWorkerLabel(l) {
      WorkersHigh(s, l, k);
    } else {
      ReorderHigh(q, s, l, k);
    }
  }

  lemma {:induction false} RunHigh(q: nat, s: State, ls: seq<Label>, k: nat)
    requires Inv(q, s)
    ensures Inv(q, Run(q, s, ls)) && HighKept(s, Run(q, s, ls), k)
    decreases |ls|
  {
    if ls != [] {
      var u, l := Run(q, s, ls[..|ls| - 1]), ls[|ls| - 1];
      RunHigh(q, s, ls[..|ls| - 1], k);
      StepKeeps(q, u, l);
      StepHigh(q, u, l, k);
    }
  }

  /** Bounded waiting: from the moment a high message (the one with index `k`) is in
      its ingress queue until it is in egress, at most 2 * q + 1 normal and low
      messages enter egress. */
  lemma HighWaitsForFew(q: nat, ls: seq<Label>, more: seq<Label>, k: nat)
    requires Waiting(Run(q, Init(), ls), High, k)
    ensures var s := Run(q, Init(), ls);
            var t := Run(q, s, more);
            SentOf(t.log, High) <= k ==> Others(t.log) - Others(s.log) <= 2 * q + 1
  {
    var s := Run(q, Init(), ls);
    Holds(q, ls);
    RunHigh(q, s, more, k);
  }
}
