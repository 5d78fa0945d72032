/** How messages flow through the queue: order within a class, what the counters of
  a round promise, and the shape and size of the rounds. */
module MsgQueueFlow {
  import opened Collections
  import opened MsgQueue
  import opened MsgQueueOrder

  // ----- A channel carries its own class only -----

  ghost predicate OfClass(ms: seq<Msg>, c: Class) {
    forall m :: m in ms ==> ClassOf(m) == c
  }

  predicate GotOk(g: Got) {
    ClassOf(g.m) == g.c
  }

  /** What may be in reorder's hands in a phase. */
  predicate DrainOk(d: Drain) {
    && (d.first.Some? ==> GotOk(d.first.value))
    && (d.hand.Some? ==> d.Rem() > 0 && !d.FirstDue() && ClassOf(d.hand.value) == d.phase)
    && (d.phase != High ==> d.remHigh == 0 && (d.first.Some? ==> d.first.value.c != High))
    && (d.phase == Low ==> d.remNormal == 0 && (d.first.Some? ==> d.first.value.c == Low))
  }

  predicate HandOk(r: Reorder) {
    && (Counting(r) ==> GotOk(r.got))
    && (r.Draining? ==> DrainOk(r.d))
  }

  ghost predicate Classes(ch: Chans, r: Reorder) {
    && OfClass(Content(ch.high), High)
    && OfClass(Content(ch.normal), Normal)
    && OfClass(Content(ch.low), Low)
    && HandOk(r)
  }

  lemma PopKeepsClasses(ch: Chans, r: Reorder, c: Class)
    requires Classes(ch, r) && Len(ch.Ingress(c)) > 0
    ensures ClassOf(ch.Ingress(c).q[0]) == c
    ensures Classes(ch.Pop(c), r)
  {
    assert ch.Ingress(c).q[0] in ch.Ingress(c).q;
  }

  // ----- Order -----

  /** What reorder has taken out of the queue of class `c` and not yet sent. */
  function HandOf(r: Reorder, c: Class): seq<Msg> {
    if Counting(r) then Only(r.got.m, r.got.c == c)
    else if r.Draining? then FirstOf(r.d, c) + InHand(r.d, c)
    else []
  }

  function Only(m: Msg, b: bool): seq<Msg> {
    if b then [m] else []
  }

  function FirstOf(d: Drain, c: Class): seq<Msg> {
    if d.first.Some? then Only(d.first.value.m, d.first.value.c == c) else []
  }

  function InHand(d: Drain, c: Class): seq<Msg> {
    if d.hand.Some? then Only(d.hand.value, d.phase == c) else []
  }

  /** What went in is what came out, then what reorder holds, then what is queued. */
  ghost predicate Line(put: seq<Msg>, sent: seq<Msg>, hand: seq<Msg>, queued: seq<Msg>) {
    put == sent + hand + queued
  }

  lemma LinePut(put: seq<Msg>, sent: seq<Msg>, hand: seq<Msg>, queued: seq<Msg>, m: Msg)
    requires Line(put, sent, hand, queued)
    ensures Line(put + [m], sent, hand, queued + [m])
  {
  }

  lemma LinePop(put: seq<Msg>, sent: seq<Msg>, hand: seq<Msg>, queued: seq<Msg>)
    requires Line(put, sent, hand, queued) && queued != []
    ensures Line(put, sent, hand + [queued[0]], queued[1..])
  {
  }

  lemma LineGrow(put: seq<Msg>, sent: seq<Msg>, hand: seq<Msg>, m: Msg)
    requires Line(put, sent, hand, [])
    ensures Line(put + [m], sent, hand + [m], [])
  {
  }

  lemma LineEmit(put: seq<Msg>, sent: seq<Msg>, hand: seq<Msg>, m: Msg, hand': seq<Msg>, queued: seq<Msg>)
    requires Line(put, sent, hand, queued) && hand == [m] + hand'
    ensures Line(put, sent + [m], hand', queued)
  {
  }

  lemma LineOut(put: seq<Msg>, out: seq<Msg>, queued: seq<Msg>)
    requires Line(put, out, [], queued) && queued != []
    ensures Line(put, out + [queued[0]], [], queued[1..])
  {
  }

  ghost predicate OrderOf(c: Class, ch: Chans, r: Reorder, log: Log) {
    Line(Filter(log.put, c), Filter(log.sent, c), HandOf(r, c), Content(ch.Ingress(c)))
  }

  /** Normal messages: all that went in came out or is queued; what came out without
      a worker taking it directly is what was sent, then what reorder holds. */
  ghost predicate OrderOfNormal(ch: Chans, r: Reorder, log: Log) {
    && Line(Filter(log.put, Normal), Outs(log.outs), [], Content(ch.normal))
    && Line(OutsBy(log.outs, false), Filter(log.sent, Normal), HandOf(r, Normal), [])
  }

  ghost predicate Order(ch: Chans, r: Reorder, log: Log) {
    && OrderOf(High, ch, r, log)
    && OrderOfNormal(ch, r, log)
    && OrderOf(Low, ch, r, log)
  }

  /** The egress queue is first in, first out. */
  ghost predicate Egress(ch: Chans, log: Log) {
    Line(log.sent, log.taken, [], Content(ch.egress))
  }

  lemma PushKeepsOrder(ch: Chans, r: Reorder, log: Log, m: Msg)
    requires Order(ch, r, log)
    ensures Order(ch.Push(ClassOf(m), m), r, log.(put := log.put + [m]))
  {
    FilterAppend(log.put, m, High);
    FilterAppend(log.put, m, Normal);
    FilterAppend(log.put, m, Low);
    match ClassOf(m)
    case Normal => LinePut(Filter(log.put, Normal), Outs(log.outs), [], Content(ch.normal), m);
    case c => LinePut(Filter(log.put, c), Filter(log.sent, c), HandOf(r, c), Content(ch.Ingress(c)), m);
  }

  /** The head of the queue of class `c` passes into reorder's hands. */
  lemma PopKeepsOrder(ch: Chans, r: Reorder, log: Log, c: Class, r': Reorder)
    requires Order(ch, r, log) && Len(ch.Ingress(c)) > 0
    requires HandOf(r', High) == if c == High then HandOf(r, High) + [ch.Ingress(c).q[0]] else HandOf(r, High)
    requires HandOf(r', Normal) == if c == Normal then HandOf(r, Normal) + [ch.Ingress(c).q[0]] else HandOf(r, Normal)
    requires HandOf(r', Low) == if c == Low then HandOf(r, Low) + [ch.Ingress(c).q[0]] else HandOf(r, Low)
    ensures Order(ch.Pop(c), r', PopLog(log, c, ch.Ingress(c).q[0]))
  {
    match c
    case Normal =>
      var m := ch.normal.q[0];
      OutsAppend(log.outs, Out(m, false));
      LineOut(Filter(log.put, Normal), Outs(log.outs), Content(ch.normal));
      LineGrow(OutsBy(log.outs, false), Filter(log.sent, Normal), HandOf(r, Normal), m);
    case _ =>
      LinePop(Filter(log.put, c), Filter(log.sent, c), HandOf(r, c), Content(ch.Ingress(c)));
  }

  lemma EmitKeepsOrder(ch: Chans, r: Reorder, log: Log, m: Msg, r': Reorder)
    requires Order(ch, r, log)
    requires HandOf(r, High) == if ClassOf(m) == High then [m] + HandOf(r', High) else HandOf(r', High)
    requires HandOf(r, Normal) == if ClassOf(m) == Normal then [m] + HandOf(r', Normal) else HandOf(r', Normal)
    requires HandOf(r, Low) == if ClassOf(m) == Low then [m] + HandOf(r', Low) else HandOf(r', Low)
    ensures Order(ch.(egress := Made(Content(ch.egress) + [m])), r', log.(sent := log.sent + [m]))
  {
    FilterAppend(log.sent, m, High);
    FilterAppend(log.sent, m, Normal);
    FilterAppend(log.sent, m, Low);
    match ClassOf(m)
    case High => LineEmit(Filter(log.put, High), Filter(log.sent, High), HandOf(r, High), m, HandOf(r', High),
        Content(ch.high));
    case Normal => LineEmit(OutsBy(log.outs, false), Filter(log.sent, Normal), HandOf(r, Normal), m,
        HandOf(r', Normal), []);
    case Low => LineEmit(Filter(log.put, Low), Filter(log.sent, Low), HandOf(r, Low), m, HandOf(r', Low),
        Content(ch.low));
  }

  lemma DirectKeepsOrder(ch: Chans, r: Reorder, log: Log)
    requires Order(ch, r, log) && Len(ch.normal) > 0
    ensures Order(ch.Pop(Normal), r, log.(outs := log.outs + [Out(ch.normal.q[0], true)]))
  {
    OutsAppend(log.outs, Out(ch.normal.q[0], true));
    LineOut(Filter(log.put, Normal), Outs(log.outs), Content(ch.normal));
  }

  lemma EgressKept(ch: Chans, log: Log)
    requires Egress(ch, log)
    ensures forall m :: Egress(ch.(egress := Made(Content(ch.egress) + [m])), log.(sent := log.sent + [m]))
    ensures Len(ch.egress) > 0 ==>
              Egress(ch.(egress := Made(ch.egress.q[1..])), log.(taken := log.taken + [ch.egress.q[0]]))
  {
    forall m ensures Line(log.sent + [m], log.taken, [], Content(ch.egress) + [m]) {
      LinePut(log.sent, log.taken, [], Content(ch.egress), m);
    }
    if Len(ch.egress) > 0 {
      LineOut(log.sent, log.taken, Content(ch.egress));
    }
  }

  lemma HandKeepsOrder(ch: Chans, r: Reorder, log: Log, r': Reorder)
    requires Order(ch, r, log)
    requires HandOf(r', High) == HandOf(r, High) && HandOf(r', Normal) == HandOf(r, Normal)
             && HandOf(r', Low) == HandOf(r, Low)
    ensures Order(ch, r', log)
  {
  }

  // ----- The counters of a round -----

  function Size(hand: Option<Msg>): nat {
    if hand.Some? then 1 else 0
  }

  /** Messages of class `c` that this round's drain loop has still to receive. */
  function Owed(d: Drain, c: Class): nat
    requires DrainOk(d)
  {
    var inHand := if d.phase == c then Size(d.hand) else 0;
    match c
    case High => d.remHigh - inHand
    case Normal => d.remNormal - inHand
    case Low => d.remLow - inHand
  }

  /** The counters never promise more than the queues hold; for normal messages,
      more than they hold plus what workers took directly since the count. */
  predicate CountsOk(q: nat, ch: Chans, r: Reorder, stolen: nat)
    requires HandOk(r)
  {
    match r
    case CountNormal(_, lenLow) => lenLow <= Len(ch.low)
    case CountHigh(_, lenLow, lenNormal) =>
      lenLow <= Len(ch.low) && lenNormal <= Len(ch.normal) + stolen && lenNormal <= q
    case Draining(d) =>
      && Owed(d, High) <= Len(ch.high)
      && Owed(d, Normal) <= Len(ch.normal) + stolen
      && Owed(d, Low) <= Len(ch.low)
      && d.remHigh <= q && d.remNormal <= q && d.remLow <= q
    case _ => true
  }

  // ----- The shape and size of a round -----

  function Flatten(rounds: seq<seq<Msg>>): seq<Msg> {
    if rounds == [] then [] else Flatten(rounds[..|rounds| - 1]) + rounds[|rounds| - 1]
  }

  function Rank(c: Class): nat {
    match c case High => 0 case Normal => 1 case Low => 2
  }

  /** high* normal* low*. */
  ghost predicate Shaped(ms: seq<Msg>) {
    forall i, j :: 0 <= i < j < |ms| ==> Rank(ClassOf(ms[i])) <= Rank(ClassOf(ms[j]))
  }

  /** The most a round can send: what the select took and three full queues. */
  function RoundCap(q: nat): nat {
    3 * q + 1
  }

  /** An upper bound on the sends left in the current round. */
  function Remaining(q: nat, r: Reorder): nat {
    match r
    case CountLow(_) => RoundCap(q)
    case CountNormal(_, lenLow) => 1 + lenLow + 2 * q
    case CountHigh(_, lenLow, lenNormal) => 1 + lenLow + lenNormal + q
    case Draining(d) => (if d.first.Some? then 1 else 0) + d.remHigh + d.remNormal + d.remLow
    case _ => 0
  }

  /** The round being sent: sorted so far, nothing of a later phase in it, and no
      longer than a round may be. */
  ghost predicate Current(q: nat, r: Reorder, round: seq<Msg>) {
    && (Counting(r) ==> round == [] && Remaining(q, r) <= RoundCap(q))
    && (r.Draining? ==>
          && |round| + Remaining(q, r) <= RoundCap(q)
          && (forall i :: 0 <= i < |round| ==> Rank(ClassOf(round[i])) <= Rank(r.d.phase)))
  }

  ghost predicate RoundsOk(q: nat, r: Reorder, log: Log, rounds: seq<seq<Msg>>) {
    && Flatten(rounds) == log.sent
    && (forall k :: 0 <= k < |rounds| ==> Shaped(rounds[k]) && |rounds[k]| <= RoundCap(q))
    && (Counting(r) || r.Draining? ==> rounds != [] && Current(q, r, rounds[|rounds| - 1]))
  }

  lemma FlattenAppend(rounds: seq<seq<Msg>>, round: seq<Msg>)
    ensures Flatten(rounds + [round]) == Flatten(rounds) + round
  {
    assert (rounds + [round])[..|rounds|] == rounds;
  }

  lemma NewRound(q: nat, r: Reorder, log: Log, rounds: seq<seq<Msg>>, got: Got, log': Log)
    requires RoundsOk(q, r, log, rounds) && log'.sent == log.sent
    ensures RoundsOk(q, CountLow(got), log', rounds + [[]])
  {
    FlattenAppend(rounds, []);
  }

  /** Sending `m` in its own phase. */
  lemma GrowRound(q: nat, r: Reorder, log: Log, rounds: seq<seq<Msg>>, m: Msg, d': Drain)
    requires RoundsOk(q, r, log, rounds) && r.Draining?
    requires ClassOf(m) == r.d.phase == d'.phase && Remaining(q, Draining(d')) + 1 == Remaining(q, r)
    ensures RoundsOk(q, Draining(d'), log.(sent := log.sent + [m]), AddToRound(rounds, m))
  {
    var init, last := rounds[..|rounds| - 1], rounds[|rounds| - 1];
    assert rounds == init + [last] && AddToRound(rounds, m) == init + [last + [m]];
    FlattenAppend(init, last);
    FlattenAppend(init, last + [m]);
    assert Flatten(init) + (last + [m]) == log.sent + [m];
    assert Shaped(last + [m]);
  }

  // ----- All of it, for every step -----

  ghost predicate FlowOf(q: nat, ch: Chans, r: Reorder, log: Log, rounds: seq<seq<Msg>>, stolen: nat) {
    && Classes(ch, r)
    && Order(ch, r, log)
    && Egress(ch, log)
    && CountsOk(q, ch, r, stolen)
    && RoundsOk(q, r, log, rounds)
  }

  ghost predicate Flow(q: nat, s: State) {
    FlowOf(q, s.ch, s.reorder, s.log, s.rounds, s.stolen)
  }

  /** A message more in its own queue: no count promises more than before. */
  lemma PushKeepsClasses(q: nat, ch: Chans, r: Reorder, stolen: nat, m: Msg)
    requires Classes(ch, r) && CountsOk(q, ch, r, stolen)
    ensures Classes(ch.Push(ClassOf(m), m), r) && CountsOk(q, ch.Push(ClassOf(m), m), r, stolen)
    ensures ch.Push(ClassOf(m), m).egress == ch.egress
  {
  }

  lemma PutKeepsFlow(q: nat, s: State, p: nat, m: Msg)
    requires Flow(q, s) && Bounded(q, s.ch)
    ensures Flow(q, Put(q, s, p, m))
  {
    if HasRoom(s.ch.Ingress(ClassOf(m)), q) {
      PushKeepsOrder(s.ch, s.reorder, s.log, m);
      PushKeepsClasses(q, s.ch, s.reorder, s.stolen, m);
    }
  }

  lemma TakeKeepsFlow(q: nat, s: State, c: Class)
    requires Flow(q, s) && Bounded(q, s.ch)
    ensures Flow(q, Take(s, c))
  {
    if Take(s, c) != s {
      var m := s.ch.Ingress(c).q[0];
      PopKeepsClasses(s.ch, s.reorder, c);
      PopKeepsOrder(s.ch, s.reorder, s.log, c, CountLow(Got(c, m)));
      NewRound(q, s.reorder, s.log, s.rounds, Got(c, m), PopLog(s.log, c, m));
    }
  }

  /** A message less in the queue, and one less owed. */
  lemma ReceiveKeepsCounts(q: nat, ch: Chans, d: Drain, m: Msg, stolen: nat)
    requires DrainOk(d) && d.hand.None? && d.Rem() > 0 && !d.FirstDue() && ClassOf(m) == d.phase
    requires Len(ch.Ingress(d.phase)) > 0 && CountsOk(q, ch, Draining(d), stolen)
    ensures DrainOk(d.(hand := Some(m))) && CountsOk(q, ch.Pop(d.phase), Draining(d.(hand := Some(m))), stolen)
  {
  }

  lemma ReceiveKeepsRounds(q: nat, d: Drain, m: Msg, log: Log, rounds: seq<seq<Msg>>)
    requires RoundsOk(q, Draining(d), log, rounds)
    ensures RoundsOk(q, Draining(d.(hand := Some(m))), PopLog(log, d.phase, m), rounds)
  {
  }

  lemma ReceiveKeepsFlow(q: nat, s: State, d: Drain)
    requires Flow(q, s) && Bounded(q, s.ch) && s.reorder == Draining(d)
    ensures Flow(q, Receive(s, d))
  {
    if Receive(s, d) != s {
      var m := s.ch.Ingress(d.phase).q[0];
      PopKeepsClasses(s.ch, s.reorder, d.phase);
      ReceiveKeepsCounts(q, s.ch, d, m, s.stolen);
      ReceiveKeepsRounds(q, d, m, s.log, s.rounds);
      PopKeepsOrder(s.ch, s.reorder, s.log, d.phase, Draining(d.(hand := Some(m))));
    }
  }

  lemma EmitKeepsFlow(q: nat, s: State, m: Msg, d': Drain)
    requires Flow(q, s) && s.reorder.Draining?
    requires ClassOf(m) == s.reorder.d.phase == d'.phase && DrainOk(d')
    requires Remaining(q, Draining(d')) + 1 == Remaining(q, s.reorder)
    requires HandOf(s.reorder, High) == if ClassOf(m) == High then [m] + HandOf(Draining(d'), High)
             else HandOf(Draining(d'), High)
    requires HandOf(s.reorder, Normal) == if ClassOf(m) == Normal then [m] + HandOf(Draining(d'), Normal)
             else HandOf(Draining(d'), Normal)
    requires HandOf(s.reorder, Low) == if ClassOf(m) == Low then [m] + HandOf(Draining(d'), Low)
             else HandOf(Draining(d'), Low)
    requires CountsOk(q, s.ch, Draining(d'), s.stolen)
    ensures Flow(q, Emit(s, m, d'))
  {
    EmitKeepsOrder(s.ch, s.reorder, s.log, m, Draining(d'));
    EgressKept(s.ch, s.log);
    GrowRound(q, s.reorder, s.log, s.rounds, m, d');
  }

  lemma SendFirstKeepsFlow(q: nat, s: State, d: Drain)
    requires Flow(q, s) && s.reorder == Draining(d)
    ensures Flow(q, SendFirst(q, s, d))
  {
    if SendFirst(q, s, d) != s {
      EmitKeepsFlow(q, s, d.first.value.m, d.(first := None));
    }
  }

  lemma SendHandKeepsFlow(q: nat, s: State, d: Drain)
    requires Flow(q, s) && s.reorder == Draining(d)
    ensures Flow(q, SendHand(q, s, d))
  {
    if SendHand(q, s, d) != s {
      EmitKeepsFlow(q, s, d.hand.value, d.Sent());
    }
  }

  /** Reorder moves on without touching a message. */
  lemma MoveKeepsFlow(q: nat, s: State, r': Reorder, stolen': nat)
    requires Flow(q, s)
    requires HandOf(r', High) == HandOf(s.reorder, High) && HandOf(r', Normal) == HandOf(s.reorder, Normal)
    requires HandOf(r', Low) == HandOf(s.reorder, Low)
    requires HandOk(r') && CountsOk(q, s.ch, r', stolen') && RoundsOk(q, r', s.log, s.rounds)
    ensures Flow(q, s.(reorder := r', stolen := stolen')) && (stolen' == s.stolen ==> Flow(q, s.(reorder := r')))
  {
    HandKeepsOrder(s.ch, s.reorder, s.log, r');
  }

  lemma CountLowKeepsFlow(q: nat, s: State)
    requires Flow(q, s) && Bounded(q, s.ch) && s.reorder.CountLow?
    ensures Flow(q, CountStep(s, RCountLow))
  {
    MoveKeepsFlow(q, s, CountNormal(s.reorder.got, Len(s.ch.low)), s.stolen);
  }

  lemma CountNormalKeepsFlow(q: nat, s: State)
    requires Flow(q, s) && Bounded(q, s.ch) && s.reorder.CountNormal?
    ensures Flow(q, CountStep(s, RCountNormal))
  {
    MoveKeepsFlow(q, s, CountHigh(s.reorder.got, s.reorder.lenLow, Len(s.ch.normal)), 0);
  }

  function RoundFrom(got: Got, lenHigh: nat, lenNormal: nat, lenLow: nat): Reorder {
    Draining(Drain(High, Some(got), None, lenHigh, lenNormal, lenLow))
  }

  lemma RoundHolds(got: Got, lenHigh: nat, lenNormal: nat, lenLow: nat, c: Class)
    ensures HandOf(RoundFrom(got, lenHigh, lenNormal, lenLow), c) == Only(got.m, got.c == c)
  {
  }

  lemma CountHighKeepsFlow(q: nat, s: State)
    requires Flow(q, s) && Bounded(q, s.ch) && s.reorder.CountHigh?
    ensures Flow(q, CountStep(s, RCountHigh))
  {
    var r := s.reorder;
    RoundHolds(r.got, Len(s.ch.high), r.lenNormal, r.lenLow, High);
    RoundHolds(r.got, Len(s.ch.high), r.lenNormal, r.lenLow, Normal);
    RoundHolds(r.got, Len(s.ch.high), r.lenNormal, r.lenLow, Low);
    MoveKeepsFlow(q, s, RoundFrom(r.got, Len(s.ch.high), r.lenNormal, r.lenLow), s.stolen);
  }

  lemma CountKeepsFlow(q: nat, s: State, l: Label)
    requires Flow(q, s) && Bounded(q, s.ch) && Counting(s.reorder)
    ensures Flow(q, CountStep(s, l))
  {
    match s.reorder
    case CountLow(_) => if l.RCountLow? { CountLowKeepsFlow(q, s); }
    case CountNormal(_, _) => if l.RCountNormal? { CountNormalKeepsFlow(q, s); }
    case CountHigh(_, _, _) => if l.RCountHigh? { CountHighKeepsFlow(q, s); }
  }

  predicate Idle(r: Reorder) {
    !Counting(r) && !r.Draining?
  }

  lemma IdleKeepsFlow(q: nat, s: State, r': Reorder)
    requires Flow(q, s) && Idle(s.reorder) && Idle(r')
    ensures Flow(q, s.(reorder := r'))
  {
    MoveKeepsFlow(q, s, r', s.stolen);
  }

  lemma OperandsStayIdle(s: State, l: Label)
    requires Idle(s.reorder)
    ensures var t := OperandStep(s, l); t == s.(reorder := t.reorder) && Idle(t.reorder)
  {
  }

  /** With nothing due in a phase, moving to the next one changes nothing else. */
  lemma PhaseKeeps(q: nat, ch: Chans, d: Drain, stolen: nat, log: Log, rounds: seq<seq<Msg>>)
    requires DrainOk(d) && !d.FirstDue() && d.hand.None? && d.Rem() == 0 && d.phase != Low
    requires CountsOk(q, ch, Draining(d), stolen) && RoundsOk(q, Draining(d), log, rounds)
    ensures var d' := d.(phase := if d.phase == High then Normal else Low);
            && DrainOk(d') && CountsOk(q, ch, Draining(d'), stolen) && RoundsOk(q, Draining(d'), log, rounds)
            && forall c :: HandOf(Draining(d'), c) == HandOf(Draining(d), c)
  {
    var d' := d.(phase := if d.phase == High then Normal else Low);
    assert forall c :: HandOf(Draining(d), c) == FirstOf(d, c);
    assert forall c :: HandOf(Draining(d'), c) == FirstOf(d, c);
  }

  lemma NextKeepsFlow(q: nat, s: State, d: Drain)
    requires Flow(q, s) && s.reorder == Draining(d)
    ensures Flow(q, NextPhase(s, d))
  {
    if !d.FirstDue() && d.hand.None? && d.Rem() == 0 {
      if d.phase == Low {
        assert forall c :: HandOf(s.reorder, c) == FirstOf(d, c);
        MoveKeepsFlow(q, s, Top, s.stolen);
      } else {
        PhaseKeeps(q, s.ch, d, s.stolen, s.log, s.rounds);
        MoveKeepsFlow(q, s, Draining(d.(phase := if d.phase == High then Normal else Low)), s.stolen);
      }
    }
  }

  lemma DirectKeepsFlow(q: nat, s: State, w: nat)
    requires Flow(q, s) && Bounded(q, s.ch)
    ensures Flow(q, TakeDirect(s, w))
  {
    if Len(s.ch.normal) > 0 {
      PopKeepsClasses(s.ch, s.reorder, Normal);
      DirectKeepsOrder(s.ch, s.reorder, s.log);
    }
  }

  lemma TakenKeepsFlow(q: nat, s: State, w: nat)
    requires Flow(q, s)
    ensures Flow(q, TakeEgress(s, w))
  {
    EgressKept(s.ch, s.log);
  }

  lemma DrainKeepsFlow(q: nat, s: State, l: Label, d: Drain)
    requires Flow(q, s) && Bounded(q, s.ch) && s.reorder == Draining(d)
    ensures Flow(q, DrainStep(q, s, l, d))
  {
    match l
    case RSendFirst => SendFirstKeepsFlow(q, s, d);
    case RReceive => ReceiveKeepsFlow(q, s, d);
    case RSendHand => SendHandKeepsFlow(q, s, d);
    case RNext => NextKeepsFlow(q, s, d);
    case _ =>
  }

  lemma OperandKeepsFlow(q: nat, s: State, l: Label)
    requires Flow(q, s) && Idle(s.reorder)
    ensures Flow(q, OperandStep(s, l))
  {
    OperandsStayIdle(s, l);
    IdleKeepsFlow(q, s, OperandStep(s, l).reorder);
  }

  lemma ReorderKeepsFlow(q: nat, s: State, l: Label)
    requires Flow(q, s) && Bounded(q, s.ch)
    ensures Flow(q, ReorderStep(q, s, l))
  {
    if l.RTake? {
      TakeKeepsFlow(q, s, l.c);
    } else if s.reorder.Draining? {
      DrainKeepsFlow(q, s, l, s.reorder.d);
    } else if Counting(s.reorder) {
      CountKeepsFlow(q, s, l);
    } else {
      OperandKeepsFlow(q, s, l);
    }
  }

  /** Making a channel puts nothing in it. */
  lemma CreationKeepsFlow(q: nat, s: State, ch: Chans)
    requires Flow(q, s)
    requires Content(ch.high) == Content(s.ch.high) && Content(ch.normal) == Content(s.ch.normal)
    requires Content(ch.low) == Content(s.ch.low) && Content(ch.egress) == Content(s.ch.egress)
    ensures FlowOf(q, ch, s.reorder, s.log, s.rounds, s.stolen)
  {
  }

  ghost predicate SameFlow(s: State, t: State) {
    t.ch == s.ch && t.reorder == s.reorder && t.log == s.log && t.rounds == s.rounds && t.stolen == s.stolen
  }

  lemma FrameFlow(q: nat, s: State, t: State)
    requires Flow(q, s) && SameFlow(s, t)
    ensures Flow(q, t)
  {
  }

  lemma SpawnKeepsFlow(q: nat, s: State, p: nat, m: Msg)
    requires Flow(q, s) && s.reorder.NotStarted?
    ensures Flow(q, SpawnReorder(s, p, m))
  {
    IdleKeepsFlow(q, s, Top);
    FrameFlow(q, s.(reorder := Top), SpawnReorder(s, p, m));
  }

  lemma IngressCreated(s: State, p: nat, m: Msg)
    requires ClassOf(m) != Normal
    ensures var t := CreateIngress(s, p, m);
            && Content(t.ch.high) == Content(s.ch.high) && t.ch.normal == s.ch.normal
            && Content(t.ch.low) == Content(s.ch.low) && t.ch.egress == s.ch.egress
            && SameFlow(s.(ch := t.ch), t)
  {
  }

  lemma IngressKeepsFlow(q: nat, s: State, p: nat, m: Msg)
    requires Flow(q, s) && ClassOf(m) != Normal
    ensures Flow(q, CreateIngress(s, p, m))
  {
    var t := CreateIngress(s, p, m);
    IngressCreated(s, p, m);
    CreationKeepsFlow(q, s, t.ch);
    FrameFlow(q, s.(ch := t.ch), t);
  }

  lemma EgressKeepsFlow(q: nat, s: State, p: nat, m: Msg)
    requires Flow(q, s)
    ensures Flow(q, CreateEgress(s, p, m))
  {
    var t := CreateEgress(s, p, m);
    CreationKeepsFlow(q, s, t.ch);
    FrameFlow(q, s.(ch := t.ch), t);
  }

  lemma ProducersKeepFlow(q: nat, s: State, l: Label)
    requires Setup(q, s) && Flow(q, s) && IsProducerLabel(l)
    ensures Flow(q, ProducerStep(q, s, l))
  {
    if l.p in s.producers {
      var p := l.p;
      assert ProducerOk(s.ch, s.reorder, s.lock, p, s.producers[p]);
      match s.producers[p]
      case WantLock(m) => if l.PLock? { FrameFlow(q, s, Lock(s, p, m)); }
      case MakeIngress(m) => if l.PMakeIngress? { IngressKeepsFlow(q, s, p, m); }
      case MakeEgress(m) => if l.PMakeEgress? { EgressKeepsFlow(q, s, p, m); }
      case Spawn(m) => if l.PSpawn? { SpawnKeepsFlow(q, s, p, m); }
      case Release(m) =>
        if l.PRelease? { FrameFlow(q, s, s.(lock := None, producers := s.producers[p := Sending(m)])); }
      case Sending(m) => if l.PSend? { PutKeepsFlow(q, s, p, m); }
    }
  }

  lemma WorkersKeepFlow(q: nat, s: State, l: Label)
    requires Flow(q, s) && Bounded(q, s.ch) && IsWorkerLabel(l)
    ensures Flow(q, WorkerStep(s, l))
  {
    if l.WTake? {
      DirectKeepsFlow(q, s, l.w);
      TakenKeepsFlow(q, s, l.w);
    } else {
      FrameFlow(q, s, WorkerLook(s, l));
    }
  }

  /** The invariant of every interleaving. */
  ghost predicate Inv(q: nat, s: State) {
    Setup(q, s) && Flow(q, s)
  }

  lemma StepKeeps(q: nat, s: State, l: Label)
    requires Inv(q, s)
    ensures Inv(q, Step(q, s, l))
  {
    SetupKept(q, s, l);
    if IsProducerLabel(l) {
      ProducersKeepFlow(q, s, l);
    } else if IsWorkerLabel(l) {
      WorkersKeepFlow(q, s, l);
    } else {
      ReorderKeepsFlow(q, s, l);
    }
  }

  lemma {:induction false} RunKeeps(q: nat, s: State, ls: seq<Label>)
    requires Inv(q, s)
    ensures Inv(q, Run(q, s, ls))
    decreases |ls|
  {
    if ls != [] {
      RunKeeps(q, s, ls[..|ls| - 1]);
      StepKeeps(q, Run(q, s, ls[..|ls| - 1]), ls[|ls| - 1]);
    }
  }

  lemma InitHolds(q: nat)
    ensures Inv(q, Init())
  {
  }
}
