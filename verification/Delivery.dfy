/** The delivery loop of messagetracing.go: `traceMsg` puts records into a buffered
  channel without blocking, and one goroutine connects to the tracing service, sends
  them one by one, and reconnects after errors until it has seen three in a row. */
module Delivery {
  import opened Collections

  const BUFFER := 128
  const MAX_FAILURES := 3

  /** A message to trace; the records themselves are not traced. */
  datatype Msg = Msg(id: nat, isRecord: bool)

  datatype Pc =
    | NotStarted
    | Connecting           // at the top of run
    | Pending              // connected, the undelivered record to be sent first
    | Receiving            // at the channel receive
    | Sending              // a received record is about to be sent
    | Failed               // run returned an error
    | Stopped(error: bool)

  datatype Event = Failure | Success

  datatype State = State(
    pc: Pc,
    ch: seq<Msg>,
    chClosed: bool,
    undelivered: Option<Msg>,
    failedCount: nat,
    closed: bool,
    accepted: seq<Msg>,      // history: records traceMsg accepted
    delivered: seq<Msg>,     // history: records whose send succeeded
    events: seq<Event>)      // history: failed runs and successful deliveries

  datatype Label = Trace(m: Msg) | Connect(found: bool) | Deliver(sent: bool) | Receive | Retry | MarkClosed | CloseChan

  function Init(): State {
    State(NotStarted, [], false, None, 0, false, [], [], [])
  }

  /** traceMsg: nothing for a record, else start the loop once, refuse when closed or
      when the buffer is full; a send on a closed channel panics and changes nothing. */
  function TraceMsg(s: State, m: Msg): State {
    if m.isRecord then s
    else
      var t := if s.pc.NotStarted? then s.(pc := Connecting) else s;
      if t.closed || t.chClosed || |t.ch| >= BUFFER then t
      else t.(ch := t.ch + [m], accepted := t.accepted + [m])
  }

  function Delivered(s: State, m: Msg): State {
    s.(undelivered := None, failedCount := 0, delivered := s.delivered + [m], events := s.events + [Success],
        pc := Receiving)
  }

  function Step(s: State, l: Label): State {
    match l
    case Trace(m) => TraceMsg(s, m)
    case Connect(found) =>
      if !s.pc.Connecting? then s
      else s.(pc := if !found then Failed else if s.undelivered.Some? then Pending else Receiving)
    case Deliver(sent) =>
      if (s.pc.Pending? || s.pc.Sending?) && s.undelivered.Some?
      then if sent then Delivered(s, s.undelivered.value) else s.(pc := Failed)
      else s
    case Receive =>
      if !s.pc.Receiving? then s
      else if s.ch != [] then s.(ch := s.ch[1..], undelivered := Some(s.ch[0]), pc := Sending)
      else if s.chClosed then s.(pc := Stopped(false))
      else s
    case Retry =>
      if !s.pc.Failed? then s
      else s.(failedCount := s.failedCount + 1, events := s.events + [Failure],
              pc := if s.failedCount + 1 >= MAX_FAILURES then Stopped(true) else Connecting)
    case MarkClosed => if s.pc.Stopped? then s.(closed := true) else s
    case CloseChan => s.(chClosed := true)
  }

  function Run(s: State, ls: seq<Label>): State {
    if ls == [] then s else Step(Run(s, ls[..|ls| - 1]), ls[|ls| - 1])
  }

  // ----- What every schedule keeps -----

  function Held(o: Option<Msg>): seq<Msg> {
    if o.Some? then [o.value] else []
  }

  /** Failures since the last success. */
  function Trailing(es: seq<Event>): nat {
    if es == [] || es[|es| - 1].Success? then 0 else 1 + Trailing(es[..|es| - 1])
  }

  ghost predicate Accounted(s: State) {
    s.accepted == s.delivered + Held(s.undelivered) + s.ch
  }

  ghost predicate Inv(s: State) {
    && Accounted(s)
    && |s.ch| <= BUFFER
    && s.failedCount == Trailing(s.events)
    && (s.pc.Stopped? && s.pc.error <==> s.failedCount >= MAX_FAILURES)
    && s.failedCount <= MAX_FAILURES
    && (s.pc.Pending? || s.pc.Sending? ==> s.undelivered.Some?)
    && (s.pc.Receiving? || s.pc.NotStarted? || (s.pc.Stopped? && !s.pc.error) ==> s.undelivered.None?)
    && (s.pc.NotStarted? ==> s.ch == [] && s.failedCount == 0)
  }

  lemma TrailingAppend(es: seq<Event>, e: Event)
    ensures Trailing(es + [e]) == if e.Success? then 0 else 1 + Trailing(es)
  {
    assert (es + [e])[..|es|] == es;
  }

  lemma TraceKeeps(s: State, m: Msg)
    requires Inv(s)
    ensures Inv(TraceMsg(s, m))
  {
    var t := if s.pc.NotStarted? then s.(pc := Connecting) else s;
    assert Inv(t);
    if !m.isRecord && !t.closed && !t.chClosed && |t.ch| < BUFFER {
      assert t.delivered + Held(t.undelivered) + (t.ch + [m]) == t.accepted + [m];
    }
  }

  lemma DeliverKeeps(s: State, sent: bool)
    requires Inv(s)
    ensures Inv(Step(s, Deliver(sent)))
  {
    if (s.pc.Pending? || s.pc.Sending?) && s.undelivered.Some? && sent {
      TrailingAppend(s.events, Success);
      assert Held(None) == [];
      assert (s.delivered + [s.undelivered.value]) + Held(None) == s.delivered + Held(s.undelivered);
    }
  }

  lemma ReceiveKeeps(s: State)
    requires Inv(s)
    ensures Inv(Step(s, Receive))
  {
    if s.pc.Receiving? && s.ch != [] {
      assert s.delivered + Held(None) == s.delivered;
      assert s.delivered + Held(Some(s.ch[0])) + s.ch[1..] == s.delivered + s.ch;
    }
  }

  lemma StepKeeps(s: State, l: Label)
    requires Inv(s)
    ensures Inv(Step(s, l))
  {
    match l
    case Trace(m) => TraceKeeps(s, m);
    case Connect(_) =>
    case Deliver(sent) => DeliverKeeps(s, sent);
    case Receive => ReceiveKeeps(s);
    case Retry => TrailingAppend(s.events, Failure);
    case MarkClosed =>
    case CloseChan =>
  }

  lemma {:induction false} RunKeeps(s: State, ls: seq<Label>)
    requires Inv(s)
    ensures Inv(Run(s, ls))
  {
    if ls != [] {
      RunKeeps(s, ls[..|ls| - 1]);
      StepKeeps(Run(s, ls[..|ls| - 1]), ls[|ls| - 1]);
    }
  }

  /** Nothing accepted is lost, through any number of reconnects: the accepted records
      are those delivered, then the undelivered one, then what the channel holds. */
  lemma NothingAcceptedIsLost(ls: seq<Label>)
    ensures var s := Run(Init(), ls); s.accepted == s.delivered + Held(s.undelivered) + s.ch
  {
    RunKeeps(Init(), ls);
  }

  /** Three failures in a row, ending at k. */
  predicate ThreeFailuresAt(es: seq<Event>, k: nat) {
    3 <= k <= |es| && es[k - 3].Failure? && es[k - 2].Failure? && es[k - 1].Failure?
  }

  lemma TrailingThree(es: seq<Event>)
    ensures Trailing(es) >= 3 <==> ThreeFailuresAt(es, |es|)
  {
    if es != [] && es[|es| - 1].Failure? {
      var a := es[..|es| - 1];
      if a != [] && a[|a| - 1].Failure? {
        var b := a[..|a| - 1];
        assert Trailing(es) == 2 + Trailing(b);
      }
    }
  }

  /** A step records at most one event, and none once stopped for errors. */
  lemma EventsGrow(s: State, l: Label)
    ensures var t := Step(s, l); t.events == s.events || exists e :: t.events == s.events + [e]
    ensures s.pc.Stopped? ==> Step(s, l).events == s.events && Step(s, l).pc == s.pc
  {
    var t := Step(s, l);
    if l.Deliver? && t.events != s.events {
      assert t.events == s.events + [Success];
    }
    if l.Retry? && t.events != s.events {
      assert t.events == s.events + [Failure];
    }
  }

  ghost predicate NoEarlierThree(es: seq<Event>) {
    forall k :: 0 <= k < |es| ==> !ThreeFailuresAt(es, k)
  }

  lemma LaterIsShort(s: State, t: State, k: nat)
    requires Inv(s) && k < |t.events|
    requires t.events == s.events || exists e :: t.events == s.events + [e]
    requires s.pc.Stopped? && s.pc.error ==> t.events == s.events
    requires NoEarlierThree(s.events)
    ensures !ThreeFailuresAt(t.events, k)
  {
    TrailingThree(s.events);
    if k < |s.events| {
      assert !ThreeFailuresAt(s.events, k);
    } else if k == |s.events| && t.events != s.events {
      assert s.events == t.events[..k];
    }
  }

  /** Failures only ever come while the loop runs. */
  lemma {:induction false} EarlierIsShort(ls: seq<Label>)
    ensures NoEarlierThree(Run(Init(), ls).events)
  {
    if ls != [] {
      var init, l := ls[..|ls| - 1], ls[|ls| - 1];
      EarlierIsShort(init);
      RunKeeps(Init(), init);
      EventsGrow(Run(Init(), init), l);
      var es := Run(Init(), ls).events;
      forall k | 0 <= k < |es| ensures !ThreeFailuresAt(es, k) {
        LaterIsShort(Run(Init(), init), Run(Init(), ls), k);
      }
    }
  }

  /** The loop stops for errors exactly at the third failure with no successful
      delivery between them. */
  lemma StopsAtThreeFailures(ls: seq<Label>)
    ensures var s := Run(Init(), ls);
            && ((s.pc.Stopped? && s.pc.error) <==> ThreeFailuresAt(s.events, |s.events|))
            && (forall k :: 0 <= k < |s.events| ==> !ThreeFailuresAt(s.events, k))
  {
    RunKeeps(Init(), ls);
    var s := Run(Init(), ls);
    TrailingThree(s.events);
    EarlierIsShort(ls);
  }

  // ----- What must come of the turns -----

  /** What the world does before the loop's next action: records traced by other
      goroutines, and whether the connect or send that follows succeeds. */
  datatype Turn = Turn(traced: seq<Msg>, ok: bool)

  /** The one action of the loop that its place in the code allows. */
  function NextLabel(pc: Pc, ok: bool): Label {
    match pc
    case Connecting => Connect(ok)
    case Pending => Deliver(ok)
    case Receiving => Receive
    case Sending => Deliver(ok)
    case Failed => Retry
    case Stopped(_) => MarkClosed
    case NotStarted => MarkClosed
  }

  function TraceAll(s: State, ms: seq<Msg>): State {
    if ms == [] then s else TraceMsg(TraceAll(s, ms[..|ms| - 1]), ms[|ms| - 1])
  }

  /** One action of the loop a turn. */
  function Play(s: State, turns: seq<Turn>): State
    decreases |turns|
  {
    if turns == [] then s
    else
      var u := TraceAll(s, turns[0].traced);
      Play(Step(u, NextLabel(u.pc, turns[0].ok)), turns[1..])
  }

  lemma {:induction false} TracesAreRun(s: State, ms: seq<Msg>) returns (run: seq<Label>)
    ensures TraceAll(s, ms) == Run(s, run)
  {
    run := [];
    if ms != [] {
      run := TracesAreRun(s, ms[..|ms| - 1]);
      var l := Trace(ms[|ms| - 1]);
      assert (run + [l])[..|run|] == run;
      run := run + [l];
    }
  }

  /** Every play keeps the invariant of the runs: whatever the world does, nothing
      accepted is lost and the loop gives up exactly at three failures. */
  lemma {:induction false} PlayKeeps(s: State, turns: seq<Turn>)
    requires Inv(s)
    ensures Inv(Play(s, turns))
    decreases |turns|
  {
    if turns != [] {
      var run := TracesAreRun(s, turns[0].traced);
      RunKeeps(s, run);
      var u := TraceAll(s, turns[0].traced);
      StepKeeps(u, NextLabel(u.pc, turns[0].ok));
      PlayKeeps(Step(u, NextLabel(u.pc, turns[0].ok)), turns[1..]);
    }
  }

  // ----- The code -----

  datatype Answer = Accepted | HelperClosed | BufferFull | Panicked

  /** A record is not traced, and that is no error. */
  function Answered(s: State, m: Msg): Answer {
    if m.isRecord then Accepted
    else if s.closed then HelperClosed
    else if s.chClosed then Panicked
    else if |s.ch| >= BUFFER then BufferFull
    else Accepted
  }

  class MsgTraceHelper {
    var pc: Pc
    var tracedMsgChan: seq<Msg>
    var chanClosed: bool
    var undelivered: Option<Msg>
    var failedCount: nat
    var closed: bool
    var accepted: seq<Msg>
    var delivered: seq<Msg>
    var events: seq<Event>
    var turns: seq<Turn>

    ghost function Value(): State
      reads this
    {
      State(pc, tracedMsgChan, chanClosed, undelivered, failedCount, closed, accepted, delivered, events)
    }

    /** What must come of the turns that are left. */
    ghost function Outcome(): State
      reads this
    {
      Play(Value(), turns)
    }

    constructor (turns: seq<Turn>)
      ensures Value() == Init() && this.turns == turns
    {
      pc, tracedMsgChan, chanClosed, undelivered, failedCount, closed := NotStarted, [], false, None, 0, false;
      accepted, delivered, events := [], [], [];
      this.turns := turns;
    }

    /** traceMsg: a closed helper refuses, a closed channel makes the send panic, and a
        full one refuses. */
    method TraceMsg(m: Msg) returns (answer: Answer)
      modifies this
      ensures Value() == Step(old(Value()), Trace(m)) && turns == old(turns)
      ensures answer == Answered(old(Value()), m)
      ensures !m.isRecord ==> accepted == if answer.Accepted? then old(accepted) + [m] else old(accepted)
    {
      if m.isRecord {
        return Accepted;
      }
      if pc.NotStarted? {
        pc := Connecting;
      }
      if closed {
        return HelperClosed;
      }
      if chanClosed {
        return Panicked;
      }
      if |tracedMsgChan| >= BUFFER {
        return BufferFull;
      }
      tracedMsgChan, accepted := tracedMsgChan + [m], accepted + [m];
      return Accepted;
    }

    /** Lets the other goroutines trace; says how the next action will go. */
    method Others() returns (ok: bool)
      requires turns != [] && !pc.NotStarted?
      modifies this
      ensures Value() == TraceAll(old(Value()), old(turns[0].traced))
      ensures pc == old(pc) && undelivered == old(undelivered) && failedCount == old(failedCount)
      ensures ok == old(turns[0].ok) && turns == old(turns[1..])
    {
      var traced := turns[0].traced;
      ok := turns[0].ok;
      turns := turns[1..];
      ghost var s := Value();
      for i := 0 to |traced|
        invariant Value() == TraceAll(s, traced[..i])
        invariant pc == old(pc) && undelivered == old(undelivered) && failedCount == old(failedCount)
                  && turns == old(turns[1..])
      {
        assert traced[..i + 1][..i] == traced[..i];
        var _ := TraceMsg(traced[i]);
      }
      assert traced[..|traced|] == traced;
    }

    /** deliver: the one-way send of the undelivered record. */
    method DeliverOne() returns (failed: bool)
      requires (pc.Pending? || pc.Sending?) && undelivered.Some? && turns != []
      modifies this
      ensures Outcome() == old(Outcome()) && |turns| < |old(turns)|
      ensures pc == if failed then Failed else Receiving
    {
      var sent := Others();
      if !sent {
        pc := Failed;
        return true;
      }
      delivered, events := delivered + [undelivered.value], events + [Success];
      undelivered, failedCount, pc := None, 0, Receiving;
      return false;
    }

    method ConnectService() returns (found: bool)
      requires pc.Connecting? && turns != []
      modifies this
      ensures Outcome() == old(Outcome()) && |turns| < |old(turns)| && undelivered == old(undelivered)
      ensures pc == if !found then Failed else if undelivered.Some? then Pending else Receiving
    {
      found := Others();
      pc := if !found then Failed else if undelivered.Some? then Pending else Receiving;
    }

    /** `<-mth.tracedMsgChan`, blocked while the channel is open and empty. */
    method ReceiveOne() returns (got: bool)
      requires pc.Receiving? && turns != []
      modifies this
      ensures Outcome() == old(Outcome()) && |turns| < |old(turns)|
      ensures if got then pc.Sending? && undelivered.Some? else pc == Stopped(false) || pc == old(pc)
    {
      var _ := Others();
      got := tracedMsgChan != [];
      if got {
        undelivered, tracedMsgChan, pc := Some(tracedMsgChan[0]), tracedMsgChan[1..], Sending;
      } else if chanClosed {
        pc := Stopped(false);
      }
    }

    /** run: connect, send what is left over, then receive and send.  It returns an error,
        or because the channel was closed, or the turns are used up. */
    method RunSession() returns (failed: bool)
      requires pc.Connecting? && turns != []
      modifies this
      ensures Outcome() == old(Outcome()) && |turns| < |old(turns)|
      ensures failed <==> pc.Failed?
      ensures failed || pc.Stopped? || turns == []
    {
      var found := ConnectService();
      if !found {
        return true;
      }
      if undelivered.Some? {
        if turns == [] {
          return false;
        }
        failed := DeliverOne();
        if failed {
          return true;
        }
      }
      while turns != [] && pc.Receiving?
        invariant Outcome() == old(Outcome()) && |turns| < |old(turns)|
        invariant pc.Receiving? || pc.Stopped? || turns == []
        invariant !pc.Failed?
        decreases |turns|
      {
        var got := ReceiveOne();
        if got && turns != [] {
          failed := DeliverOne();
          if failed {
            return true;
          }
        }
      }
      return false;
    }

    /** failedCount++ and its check. */
    method CountFailure()
      requires pc.Failed? && turns != []
      modifies this
      ensures Outcome() == old(Outcome()) && |turns| < |old(turns)|
      ensures pc.Connecting? || pc.Stopped?
    {
      var _ := Others();
      failedCount, events := failedCount + 1, events + [Failure];
      pc := if failedCount >= MAX_FAILURES then Stopped(true) else Connecting;
    }

    /** The goroutine of runOnce: what comes of the turns is what the system makes of
        them, one action of the loop a turn. */
    method Loop()
      requires pc.Connecting?
      modifies this
      ensures Outcome() == old(Outcome())
      ensures turns == [] ==> Value() == Play(old(Value()), old(turns))
      ensures turns == [] || (pc.Stopped? && closed)
    {
      while turns != [] && pc.Connecting?
        invariant Outcome() == old(Outcome())
        invariant pc.Connecting? || pc.Stopped? || turns == []
        decreases |turns|
      {
        var failed := RunSession();
        if failed && turns != [] {
          CountFailure();
        }
      }
      if turns != [] {
        var _ := Others();
        closed := true;
      }
    }
  }
}
