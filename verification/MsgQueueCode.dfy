/** The code of scalamsgq.go over the queue's fields: the reorder goroutine with its
  select, its counters and its three drain loops, and putMetaMsg with its lazy creation.

  Between any two of its actions, and while it is blocked, other goroutines run.  A turn
  says what they do before the next action, and which branch the select then looks at;
  `Play` says what must come of a sequence of turns, one action of the goroutine a turn,
  and the code is proved to do exactly that.  Every play is a run of the step system, so
  what is proved of all runs holds of the code. */
module MsgQueueCode {
  import opened Collections
  import opened MsgQueue
  import opened MsgQueueOrder
  import opened MsgQueueFlow

  predicate ReorderLabel(l: Label) {
    l.REnter? || l.ROperandHigh? || l.ROperandLow? || l.RTake? || l.RStop? || l.RCountLow? || l.RCountNormal?
    || l.RCountHigh? || l.RSendFirst? || l.RReceive? || l.RSendHand? || l.RNext?
  }

  datatype Pick = Done | Class(c: Class)

  datatype Turn = Turn(others: seq<Label>, pick: Pick)

  /** Reorder is started once, so nobody else moves it: `Other` skips nothing that could
      happen. */
  lemma OthersKeepReorder(q: nat, s: State, l: Label)
    requires Setup(q, s) && !s.reorder.NotStarted? && !ReorderLabel(l)
    ensures Step(q, s, l).reorder == s.reorder
  {
    if IsProducerLabel(l) && l.p in s.producers {
      assert ProducerOk(s.ch, s.reorder, s.lock, l.p, s.producers[l.p]);
    }
  }

  /** Nor does anyone but producer p move producer p. */
  lemma OthersKeepProducer(q: nat, s: State, l: Label, p: nat)
    requires p in s.producers && !(IsProducerLabel(l) && l.p == p)
    ensures p in Step(q, s, l).producers && Step(q, s, l).producers[p] == s.producers[p]
  {
    if IsProducerLabel(l) {
      OthersProduce(q, s, l, p);
    } else if IsWorkerLabel(l) {
      assert WorkerStep(s, l).producers == s.producers;
    } else if !l.PBegin? {
      assert ReorderStep(q, s, l).producers == s.producers;
    }
  }

  lemma OthersProduce(q: nat, s: State, l: Label, p: nat)
    requires p in s.producers && IsProducerLabel(l) && l.p != p
    ensures p in ProducerStep(q, s, l).producers && ProducerStep(q, s, l).producers[p] == s.producers[p]
  {
  }

  // ----- What must come of the turns -----

  function Other(q: nat, s: State, l: Label): State {
    var t := Step(q, s, l);
    if !ReorderLabel(l) && t.reorder == s.reorder then t else s
  }

  function OthersRun(q: nat, s: State, ls: seq<Label>): (t: State)
    ensures t.reorder == s.reorder
  {
    if ls == [] then s else Other(q, OthersRun(q, s, ls[..|ls| - 1]), ls[|ls| - 1])
  }

  /** The one action of reorder that its place in the code allows. */
  function NextLabel(r: MsgQueue.Reorder, pick: Pick): Label {
    match r
    case NotStarted => REnter
    case Top => REnter
    case OperandHigh(_) => ROperandHigh
    case OperandLow(_, _) => ROperandLow
    case Parked(_, _, _) => if pick.Done? then RStop else RTake(pick.c)
    case CountLow(_) => RCountLow
    case CountNormal(_, _) => RCountNormal
    case CountHigh(_, _, _) => RCountHigh
    case Draining(d) =>
      if d.FirstDue() then RSendFirst
      else if d.hand.Some? then RSendHand
      else if d.Rem() > 0 then RReceive
      else RNext
    case Stopped => REnter
  }

  function AfterTurn(q: nat, s: State, turn: Turn): State {
    var u := OthersRun(q, s, turn.others);
    Step(q, u, NextLabel(u.reorder, turn.pick))
  }

  function Play(q: nat, s: State, turns: seq<Turn>): State
    decreases |turns|
  {
    if turns == [] then s else Play(q, AfterTurn(q, s, turns[0]), turns[1..])
  }

  lemma RunAppend(q: nat, s: State, ls: seq<Label>, l: Label)
    ensures Run(q, s, ls + [l]) == Step(q, Run(q, s, ls), l)
  {
    assert (ls + [l])[..|ls|] == ls;
  }

  lemma {:induction false} OthersAreRun(q: nat, s: State, ls: seq<Label>) returns (run: seq<Label>)
    ensures OthersRun(q, s, ls) == Run(q, s, run)
  {
    run := [];
    if ls != [] {
      run := OthersAreRun(q, s, ls[..|ls| - 1]);
      var u, l := OthersRun(q, s, ls[..|ls| - 1]), ls[|ls| - 1];
      if Other(q, u, l) != u {
        RunAppend(q, s, run, l);
        run := run + [l];
      }
    }
  }

  lemma {:induction false} RunConcat(q: nat, s: State, a: seq<Label>, b: seq<Label>)
    ensures Run(q, Run(q, s, a), b) == Run(q, s, a + b)
  {
    if b == [] {
      assert a + b == a;
    } else {
      RunConcat(q, s, a, b[..|b| - 1]);
      assert (a + b)[..|a + b| - 1] == a + b[..|b| - 1];
    }
  }

  /** Every play is a run of the step system. */
  lemma {:induction false} PlayIsRun(q: nat, s: State, turns: seq<Turn>) returns (run: seq<Label>)
    ensures Play(q, s, turns) == Run(q, s, run)
    decreases |turns|
  {
    run := [];
    if turns != [] {
      var first := OthersAreRun(q, s, turns[0].others);
      var u := OthersRun(q, s, turns[0].others);
      var l := NextLabel(u.reorder, turns[0].pick);
      RunAppend(q, s, first, l);
      var rest := PlayIsRun(q, AfterTurn(q, s, turns[0]), turns[1..]);
      RunConcat(q, s, first + [l], rest);
      run := first + [l] + rest;
    }
  }

  /** So the code keeps the invariant of all runs. */
  lemma PlayKeeps(q: nat, s: State, turns: seq<Turn>)
    requires Inv(q, s)
    ensures Inv(q, Play(q, s, turns))
  {
    var run := PlayIsRun(q, s, turns);
    RunKeeps(q, s, run);
  }

  lemma PlayTurn(q: nat, s: State, turns: seq<Turn>, l: Label)
    requires turns != [] && l == NextLabel(s.reorder, turns[0].pick)
    ensures Play(q, s, turns) == Play(q, Step(q, OthersRun(q, s, turns[0].others), l), turns[1..])
  {
  }

  lemma PhaseStep(q: nat, s: State, d: Drain, r: Reorder)
    requires s.reorder == Draining(d) && !d.FirstDue() && d.hand.None? && d.Rem() == 0
    requires r == if d.phase == Low then Top else Draining(d.(phase := if d.phase == High then Normal else Low))
    ensures Step(q, s, RNext) == s.(reorder := r)
  {
    assert Step(q, s, RNext) == NextPhase(s, d);
  }

  // The same for a producer inside putMetaMsg.

  function OtherThan(q: nat, s: State, p: nat, l: Label): State {
    var t := Step(q, s, l);
    if !(IsProducerLabel(l) && l.p == p) && p in s.producers && p in t.producers
        && t.producers[p] == s.producers[p] then t else s
  }

  function OthersThanRun(q: nat, s: State, p: nat, ls: seq<Label>): (t: State)
    ensures p in s.producers ==> p in t.producers && t.producers[p] == s.producers[p]
  {
    if ls == [] then s else OtherThan(q, OthersThanRun(q, s, p, ls[..|ls| - 1]), p, ls[|ls| - 1])
  }

  function NextPut(p: nat, pc: Producer): Label {
    match pc
    case WantLock(_) => PLock(p)
    case MakeIngress(_) => PMakeIngress(p)
    case MakeEgress(_) => PMakeEgress(p)
    case Spawn(_) => PSpawn(p)
    case Release(_) => PRelease(p)
    case Sending(_) => PSend(p)
  }

  /** Until the message is put. */
  function PlayPut(q: nat, s: State, p: nat, turns: seq<Turn>): State
    decreases |turns|
  {
    if turns == [] || p !in s.producers then s
    else PlayPut(q, Step(q, OthersThanRun(q, s, p, turns[0].others), NextPut(p, s.producers[p])), p, turns[1..])
  }

  lemma {:induction false} OthersThanAreRun(q: nat, s: State, p: nat, ls: seq<Label>) returns (run: seq<Label>)
    ensures OthersThanRun(q, s, p, ls) == Run(q, s, run)
  {
    run := [];
    if ls != [] {
      run := OthersThanAreRun(q, s, p, ls[..|ls| - 1]);
      var u, l := OthersThanRun(q, s, p, ls[..|ls| - 1]), ls[|ls| - 1];
      if OtherThan(q, u, p, l) != u {
        RunAppend(q, s, run, l);
        run := run + [l];
      }
    }
  }

  /** So putting keeps the invariant of all runs, too. */
  lemma {:induction false} PlayPutKeeps(q: nat, s: State, p: nat, turns: seq<Turn>)
    requires Inv(q, s)
    ensures Inv(q, PlayPut(q, s, p, turns))
    decreases |turns|
  {
    if turns != [] && p in s.producers {
      var run := OthersThanAreRun(q, s, p, turns[0].others);
      RunKeeps(q, s, run);
      StepKeeps(q, Run(q, s, run), NextPut(p, s.producers[p]));
      PlayPutKeeps(q, Step(q, Run(q, s, run), NextPut(p, s.producers[p])), p, turns[1..]);
    }
  }

  // ----- The code -----

  datatype Rest = Rest(lock: Option<nat>, producers: map<nat, Producer>, confirmed: bool, workers: map<nat, Worker>,
                       doneClosed: bool, doneNil: bool, created: Created)

  /** History. */
  datatype Past = Past(log: Log, rounds: seq<seq<Msg>>, stolen: nat)

  function Whole(ch: Chans, r: MsgQueue.Reorder, rest: Rest, past: Past): State {
    State(ch, rest.lock, rest.producers, r, rest.confirmed, rest.workers, rest.doneClosed, rest.doneNil,
          past.log, past.rounds, past.stolen, rest.created)
  }

  class MsgQ {
    const qSize: nat
    var ch: Chans                   // ingressHighChan, ingressNormalChan, ingressLowChan, egressChan
    var reorder: MsgQueue.Reorder   // where the goroutine is
    var rest: Rest                  // what only the others write
    var past: Past
    var turns: seq<Turn>

    function Value(): State
      reads this
    {
      Whole(ch, reorder, rest, past)
    }

    /** What must come of the turns that are left. */
    ghost function Outcome(): State
      reads this
    {
      Play(qSize, Value(), turns)
    }

    method Become(t: State)
      modifies this
      ensures Value() == t && turns == old(turns)
    {
      ch, reorder := t.ch, t.reorder;
      rest := Rest(t.lock, t.producers, t.confirmed, t.workers, t.doneClosed, t.doneNil, t.created);
      past := Past(t.log, t.rounds, t.stolen);
    }

    /** The others' turn. */
    method Others() returns (pick: Pick)
      requires turns != []
      modifies this
      ensures Value() == OthersRun(qSize, old(Value()), old(turns[0].others))
      ensures reorder == old(reorder) && turns == old(turns[1..]) && pick == old(turns[0].pick)
    {
      var turn := turns[0];
      turns := turns[1..];
      ghost var s, ls := Value(), turn.others;
      for i := 0 to |turn.others|
        invariant Value() == OthersRun(qSize, s, ls[..i]) && turns == old(turns[1..])
      {
        var l := turn.others[i];
        var t := Step(qSize, Value(), l);
        assert ls[..i + 1][..i] == ls[..i];
        if !ReorderLabel(l) && t.reorder == reorder {
          Become(t);
        }
      }
      assert ls[..|ls|] == ls;
      return turn.pick;
    }

    // The locals of a round are a `Drain`: the message the select took, the one in hand,
    // and lenH, lenN and lenL.  First the actions, each one step of the system.

    method EmitFirst(d: Drain)
      requires reorder == Draining(d) && d.FirstDue() && HasRoom(ch.egress, qSize)
      modifies this
      ensures Value() == Step(qSize, old(Value()), RSendFirst) && turns == old(turns)
      ensures reorder == Draining(d.(first := None))
    {
      var m := d.first.value.m;
      ch := ch.(egress := Made(ch.egress.q + [m]));
      past := past.(log := past.log.(sent := past.log.sent + [m]), rounds := AddToRound(past.rounds, m));
      reorder := Draining(d.(first := None));
    }

    method EmitHand(d: Drain)
      requires reorder == Draining(d) && !d.FirstDue() && d.hand.Some? && d.Rem() > 0 && HasRoom(ch.egress, qSize)
      modifies this
      ensures Value() == Step(qSize, old(Value()), RSendHand) && turns == old(turns)
      ensures reorder == Draining(d.Sent())
    {
      var m := d.hand.value;
      ch := ch.(egress := Made(ch.egress.q + [m]));
      past := past.(log := past.log.(sent := past.log.sent + [m]), rounds := AddToRound(past.rounds, m));
      reorder := Draining(d.Sent());
    }

    method TakeOne(d: Drain) returns (d': Drain)
      requires reorder == Draining(d) && !d.FirstDue() && d.hand.None? && d.Rem() > 0
      requires Len(ch.Ingress(d.phase)) > 0
      modifies this
      ensures Value() == Step(qSize, old(Value()), RReceive) && turns == old(turns)
      ensures reorder == Draining(d') && d' == d.(hand := Some(old(ch).Ingress(d.phase).q[0]))
    {
      var m := ch.Ingress(d.phase).q[0];
      ch := ch.Pop(d.phase);
      past := past.(log := PopLog(past.log, d.phase, m));
      d' := d.(hand := Some(m));
      reorder := Draining(d');
    }

    method Branch(c: Class) returns (got: Got)
      requires reorder.Parked? && (c == High ==> reorder.high) && (c == Low ==> reorder.low)
      requires Len(ch.Ingress(c)) > 0
      modifies this
      ensures Value() == Step(qSize, old(Value()), RTake(c)) && turns == old(turns)
      ensures reorder == CountLow(got) && got == Got(c, old(ch).Ingress(c).q[0])
    {
      var m := ch.Ingress(c).q[0];
      ch := ch.Pop(c);
      got := Got(c, m);
      past, reorder := past.(log := PopLog(past.log, c, m), rounds := past.rounds + [[]]), CountLow(got);
    }

    method ReadDone() returns (done: bool)
      requires turns != [] && reorder == Top
      modifies this
      ensures Outcome() == old(Outcome()) && |turns| < |old(turns)| && reorder == OperandHigh(done)
    {
      PlayTurn(qSize, Value(), turns, REnter);
      var _ := Others();
      done := !rest.doneNil;
      reorder := OperandHigh(done);
    }

    method ReadHigh(done: bool) returns (high: bool)
      requires turns != [] && reorder == OperandHigh(done)
      modifies this
      ensures Outcome() == old(Outcome()) && |turns| < |old(turns)| && reorder == OperandLow(done, high)
    {
      PlayTurn(qSize, Value(), turns, ROperandHigh);
      var _ := Others();
      high := ch.high.Made?;
      reorder := OperandLow(done, high);
    }

    method ReadLow(done: bool, high: bool) returns (low: bool)
      requires turns != [] && reorder == OperandLow(done, high)
      modifies this
      ensures Outcome() == old(Outcome()) && |turns| < |old(turns)| && reorder == Parked(done, high, low)
    {
      PlayTurn(qSize, Value(), turns, ROperandLow);
      var _ := Others();
      low := ch.low.Made?;
      reorder := Parked(done, high, low);
    }

    method Stop()
      requires reorder.Parked? && reorder.done && rest.doneClosed
      modifies this
      ensures Value() == Step(qSize, old(Value()), RStop) && turns == old(turns) && reorder == Stopped
    {
      reorder := Stopped;
    }

    method CountLowQueue(got: Got) returns (lenL: nat)
      requires turns != [] && reorder == CountLow(got)
      modifies this
      ensures Outcome() == old(Outcome()) && |turns| < |old(turns)| && reorder == CountNormal(got, lenL)
    {
      PlayTurn(qSize, Value(), turns, RCountLow);
      var _ := Others();
      lenL := Len(ch.low);
      reorder := CountNormal(got, lenL);
    }

    method CountNormalQueue(got: Got, lenL: nat) returns (lenN: nat)
      requires turns != [] && reorder == CountNormal(got, lenL)
      modifies this
      ensures Outcome() == old(Outcome()) && |turns| < |old(turns)| && reorder == CountHigh(got, lenL, lenN)
    {
      PlayTurn(qSize, Value(), turns, RCountNormal);
      var _ := Others();
      lenN := Len(ch.normal);
      reorder, past := CountHigh(got, lenL, lenN), past.(stolen := 0);
    }

    method CountHighQueue(got: Got, lenL: nat, lenN: nat) returns (lenH: nat)
      requires turns != [] && reorder == CountHigh(got, lenL, lenN)
      modifies this
      ensures Outcome() == old(Outcome()) && |turns| < |old(turns)| && reorder == RoundFrom(got, lenH, lenN, lenL)
    {
      PlayTurn(qSize, Value(), turns, RCountHigh);
      var _ := Others();
      lenH := Len(ch.high);
      reorder := RoundFrom(got, lenH, lenN, lenL);
    }

    // Then the control flow.  A method that returns without `go` has used up the turns.

    /** One turn at a send on egress. */
    method TrySend(d: Drain) returns (sent: bool)
      requires turns != [] && reorder == Draining(d) && (d.FirstDue() || (d.hand.Some? && d.Rem() > 0))
      modifies this
      ensures Outcome() == old(Outcome()) && |turns| < |old(turns)|
      ensures reorder == Draining(if !sent then d else if d.FirstDue() then d.(first := None) else d.Sent())
    {
      PlayTurn(qSize, Value(), turns, if d.FirstDue() then RSendFirst else RSendHand);
      var _ := Others();
      sent := HasRoom(ch.egress, qSize);
      if sent {
        if d.FirstDue() {
          EmitFirst(d);
        } else {
          EmitHand(d);
        }
      }
    }

    /** A send on egress, blocked while the channel is full: of the message the select
        took, or of the one in hand, whose counter then goes down. */
    method Send(d: Drain) returns (go: bool, d': Drain)
      requires reorder == Draining(d) && (d.FirstDue() || (d.hand.Some? && d.Rem() > 0))
      modifies this
      ensures Outcome() == old(Outcome()) && |turns| <= |old(turns)|
      ensures d' == if d.FirstDue() then d.(first := None) else d.Sent()
      ensures if go then reorder == Draining(d') else turns == []
    {
      d' := if d.FirstDue() then d.(first := None) else d.Sent();
      go := false;
      while turns != [] && !go
        invariant Outcome() == old(Outcome()) && |turns| <= |old(turns)|
        invariant reorder == Draining(if go then d' else d)
        decreases |turns|
      {
        go := TrySend(d);
      }
    }

    /** A receive from the queue of the phase, blocked while it is empty. */
    method Receive(d: Drain) returns (go: bool, d': Drain)
      requires reorder == Draining(d) && !d.FirstDue() && d.hand.None? && d.Rem() > 0
      modifies this
      ensures Outcome() == old(Outcome()) && |turns| <= |old(turns)|
      ensures !go ==> turns == []
      ensures go ==> reorder == Draining(d') && d'.hand.Some? && d' == d.(hand := d'.hand)
    {
      while turns != []
        invariant Outcome() == old(Outcome()) && |turns| <= |old(turns)|
        invariant reorder == Draining(d)
        decreases |turns|
      {
        PlayTurn(qSize, Value(), turns, RReceive);
        var _ := Others();
        if Len(ch.Ingress(d.phase)) > 0 {
          d' := TakeOne(d);
          return true, d';
        }
      }
      return false, d;
    }

    /** From one drain loop to the next, or back to the top. */
    method Advance(d: Drain) returns (d': Drain)
      requires turns != [] && reorder == Draining(d) && !d.FirstDue() && d.hand.None? && d.Rem() == 0
      modifies this
      ensures Outcome() == old(Outcome()) && |turns| < |old(turns)|
      ensures d' == if d.phase == Low then d else d.(phase := if d.phase == High then Normal else Low)
      ensures reorder == if d.phase == Low then Top else Draining(d')
    {
      PlayTurn(qSize, Value(), turns, RNext);
      var _ := Others();
      ghost var s := Value();
      d' := d;
      if d.phase == Low {
        reorder := Top;
      } else {
        d' := d.(phase := if d.phase == High then Normal else Low);
        reorder := Draining(d');
      }
      PhaseStep(qSize, s, d, reorder);
    }

    /** `for len != 0 { egress <- <-ingress; len-- }` for the class of the phase. */
    method DrainCounted(d0: Drain) returns (go: bool, d: Drain)
      requires reorder == Draining(d0) && d0.hand.None? && !d0.FirstDue()
      modifies this
      ensures Outcome() == old(Outcome()) && |turns| <= |old(turns)|
      ensures !go ==> turns == []
      ensures go ==> reorder == Draining(d) && d.phase == d0.phase && !d.FirstDue() && d.hand.None? && d.Rem() == 0
    {
      d := d0;
      while d.Rem() != 0
        invariant Outcome() == old(Outcome()) && |turns| <= |old(turns)|
        invariant reorder == Draining(d) && d.phase == d0.phase && !d.FirstDue() && d.hand.None?
        decreases d.Rem()
      {
        go, d := Receive(d);
        if !go {
          return;
        }
        go, d := Send(d);
        if !go {
          return;
        }
      }
      go := true;
    }

    /** `if msg != nil { egress <- msg }`, the counted loop, and on to the next phase. */
    method DrainClass(d0: Drain) returns (go: bool, d: Drain)
      requires reorder == Draining(d0) && d0.hand.None?
      modifies this
      ensures Outcome() == old(Outcome()) && |turns| <= |old(turns)|
      ensures !go ==> turns == []
      ensures go && d0.phase == Low ==> reorder == Top
      ensures go && d0.phase != Low ==>
              reorder == Draining(d) && d.hand.None?
              && d.phase == if d0.phase == High then Normal else Low
    {
      d := d0;
      if d.FirstDue() {
        go, d := Send(d);
        if !go {
          return;
        }
      }
      go, d := DrainCounted(d);
      if !go || turns == [] {
        go := false;
        return;
      }
      d := Advance(d);
    }

    /** The operands of the select are read one after the other, on entry. */
    method ReadOperands() returns (go: bool, done: bool, high: bool, low: bool)
      requires reorder == Top
      modifies this
      ensures Outcome() == old(Outcome()) && |turns| <= |old(turns)|
      ensures if go then reorder == Parked(done, high, low) && |turns| < |old(turns)| else turns == []
    {
      go, done, high, low := false, false, false, false;
      if turns == [] {
        return;
      }
      done := ReadDone();
      if turns == [] {
        return;
      }
      high := ReadHigh(done);
      if turns == [] {
        return;
      }
      low := ReadLow(done, high);
      go := true;
    }

    /** One turn at the select: the branch it looks at is taken when it is ready. */
    method TryBranch(done: bool, high: bool, low: bool) returns (stop: bool, got: Option<Got>)
      requires turns != [] && reorder == Parked(done, high, low)
      modifies this
      ensures Outcome() == old(Outcome()) && |turns| < |old(turns)|
      ensures if stop then reorder == Stopped
              else if got.Some? then reorder == CountLow(got.value)
              else reorder == old(reorder)
    {
      stop, got := false, Option.None;
      PlayTurn(qSize, Value(), turns, NextLabel(reorder, turns[0].pick));
      var pick := Others();
      if pick.Done? {
        if done && rest.doneClosed {
          Stop();
          stop := true;
        }
      } else if (pick.c == High ==> high) && (pick.c == Low ==> low) && Len(ch.Ingress(pick.c)) > 0 {
        var g := Branch(pick.c);
        got := Option.Some(g);
      }
    }

    method Select() returns (go: bool, stop: bool, got: Option<Got>)
      requires reorder == Top
      modifies this
      ensures Outcome() == old(Outcome()) && |turns| <= |old(turns)|
      ensures !go ==> turns == []
      ensures go && stop ==> reorder == Stopped
      ensures go && !stop ==> got.Some? && reorder == CountLow(got.value) && |turns| < |old(turns)|
    {
      var done, high, low;
      go, done, high, low := ReadOperands();
      stop, got := false, Option.None;
      if !go {
        return;
      }
      while turns != [] && !stop && got.None?
        invariant Outcome() == old(Outcome()) && |turns| < |old(turns)|
        invariant if stop then reorder == Stopped
                  else if got.Some? then reorder == CountLow(got.value)
                  else reorder == Parked(done, high, low)
        decreases |turns|
      {
        stop, got := TryBranch(done, high, low);
      }
      go := stop || got.Some?;
    }

    /** Reading the three lengths, low first. */
    method CountAll(got: Got) returns (go: bool, d: Drain)
      requires reorder == CountLow(got)
      modifies this
      ensures Outcome() == old(Outcome()) && |turns| <= |old(turns)|
      ensures !go ==> turns == []
      ensures go ==> reorder == Draining(d) && d.phase == High && d.hand.None? && d.first == Some(got)
    {
      go, d := false, Drain(High, Some(got), None, 0, 0, 0);
      if turns == [] {
        return;
      }
      var lenL := CountLowQueue(got);
      if turns == [] {
        return;
      }
      var lenN := CountNormalQueue(got, lenL);
      if turns == [] {
        return;
      }
      var lenH := CountHighQueue(got, lenL, lenN);
      return true, Drain(High, Some(got), None, lenH, lenN, lenL);
    }

    /** reorder: what has come of the turns used, and must come of those left after it
        stopped, is what the step system makes of all of them, one action a turn. */
    method Reorder()
      requires reorder == Top
      modifies this
      ensures Outcome() == old(Outcome())
      ensures turns == [] ==> Value() == Play(qSize, old(Value()), old(turns))
      ensures turns == [] || reorder == Stopped
    {
      while turns != []
        invariant Outcome() == old(Outcome()) && reorder == Top
        decreases |turns|
      {
        var go, stop, got := Select();
        if !go || stop {
          return;
        }
        var d;
        go, d := CountAll(got.value);
        if !go {
          return;
        }
        go, d := DrainClass(d);
        if !go {
          return;
        }
        go, d := DrainClass(d);
        if !go {
          return;
        }
        go, d := DrainClass(d);
        if !go {
          return;
        }
      }
    }

    // ----- putMetaMsg -----

    predicate Stands(p: nat, pc: Producer)
      reads this
    {
      p in rest.producers && rest.producers[p] == pc
    }

    ghost function PutOutcome(p: nat): State
      reads this
    {
      PlayPut(qSize, Value(), p, turns)
    }

    /** The turn of everyone but producer p. */
    method OthersThan(p: nat, ghost pc: Producer)
      requires Stands(p, pc) && turns != []
      modifies this
      ensures Value() == OthersThanRun(qSize, old(Value()), p, old(turns[0].others))
      ensures Stands(p, pc) && turns == old(turns[1..])
    {
      var turn := turns[0];
      turns := turns[1..];
      ghost var s, ls := Value(), turn.others;
      for i := 0 to |turn.others|
        invariant Value() == OthersThanRun(qSize, s, p, ls[..i]) && turns == old(turns[1..])
      {
        var l := turn.others[i];
        var t := Step(qSize, Value(), l);
        assert ls[..i + 1][..i] == ls[..i];
        if !(IsProducerLabel(l) && l.p == p) && p in rest.producers && p in t.producers
            && t.producers[p] == rest.producers[p] {
          Become(t);
        }
      }
      assert ls[..|ls|] == ls;
    }

    method Enter(p: nat, mm: Msg) returns (pc: Producer)
      requires p !in rest.producers
      modifies this
      ensures Value() == Step(qSize, old(Value()), PBegin(p, mm)) && Stands(p, pc) && turns == old(turns)
      ensures pc == if old(ch).Ingress(ClassOf(mm)).Nil? then WantLock(mm) else Sending(mm)
    {
      pc := if ch.Ingress(ClassOf(mm)).Nil? then WantLock(mm) else Sending(mm);
      rest := rest.(producers := rest.producers[p := pc]);
    }

    /** The mutex, blocked while someone has it. */
    method Acquire(p: nat, mm: Msg) returns (go: bool)
      requires Stands(p, WantLock(mm))
      modifies this
      ensures PutOutcome(p) == old(PutOutcome(p)) && |turns| <= |old(turns)|
      ensures if go then Stands(p, MakeIngress(mm)) else turns == []
    {
      while turns != []
        invariant Stands(p, WantLock(mm)) && PutOutcome(p) == old(PutOutcome(p)) && |turns| <= |old(turns)|
        decreases |turns|
      {
        OthersThan(p, WantLock(mm));
        if rest.lock.None? {
          rest := rest.(lock := Option.Some(p), producers := rest.producers[p := MakeIngress(mm)]);
          return true;
        }
      }
      return false;
    }

    /** `if *ch == nil { *ch = make(...) }`. */
    method MakeIngressChan(p: nat, mm: Msg)
      requires Stands(p, MakeIngress(mm)) && turns != []
      modifies this
      ensures Stands(p, MakeEgress(mm)) && PutOutcome(p) == old(PutOutcome(p)) && |turns| < |old(turns)|
    {
      OthersThan(p, MakeIngress(mm));
      rest := rest.(producers := rest.producers[p := MakeEgress(mm)]);
      var c := ClassOf(mm);
      if ch.Ingress(c).Nil? {
        ch := ch.SetIngress(c, Made([]));
        rest := rest.(created := if c == High then rest.created.(high := rest.created.high + 1)
                                 else rest.created.(low := rest.created.low + 1));
      }
    }

    /** `if mq.egressChan == nil { mq.egressChan = make(...) }`. */
    method MakeEgressChan(p: nat, mm: Msg) returns (made: bool)
      requires Stands(p, MakeEgress(mm)) && turns != []
      modifies this
      ensures Stands(p, if made then Spawn(mm) else Release(mm)) && PutOutcome(p) == old(PutOutcome(p))
              && |turns| < |old(turns)|
    {
      OthersThan(p, MakeEgress(mm));
      made := ch.egress.Nil?;
      if made {
        ch := ch.(egress := Made([]));
        rest := rest.(created := rest.created.(egress := rest.created.egress + 1));
      }
      rest := rest.(producers := rest.producers[p := if made then Spawn(mm) else Release(mm)]);
    }

    /** `go mq.reorder()`. */
    method GoReorder(p: nat, mm: Msg)
      requires Stands(p, Spawn(mm)) && turns != []
      modifies this
      ensures Stands(p, Release(mm)) && PutOutcome(p) == old(PutOutcome(p)) && |turns| < |old(turns)| && reorder == Top
    {
      OthersThan(p, Spawn(mm));
      reorder := Top;
      rest := rest.(producers := rest.producers[p := Release(mm)],
                    created := rest.created.(reorder := rest.created.reorder + 1));
    }

    method Unlock(p: nat, mm: Msg)
      requires Stands(p, Release(mm)) && turns != []
      modifies this
      ensures Stands(p, Sending(mm)) && PutOutcome(p) == old(PutOutcome(p)) && |turns| < |old(turns)|
    {
      OthersThan(p, Release(mm));
      rest := rest.(lock := Option.None, producers := rest.producers[p := Sending(mm)]);
    }

    /** initChan: the lock, the two nil checks under it, and the start of reorder. */
    method InitChan(p: nat, mm: Msg) returns (go: bool)
      requires Stands(p, WantLock(mm))
      modifies this
      ensures PutOutcome(p) == old(PutOutcome(p)) && |turns| <= |old(turns)|
      ensures if go then Stands(p, Sending(mm)) else turns == []
    {
      go := Acquire(p, mm);
      if !go || turns == [] {
        return false;
      }
      MakeIngressChan(p, mm);
      if turns == [] {
        return false;
      }
      var made := MakeEgressChan(p, mm);
      if made {
        if turns == [] {
          return false;
        }
        GoReorder(p, mm);
      }
      if turns == [] {
        return false;
      }
      Unlock(p, mm);
      return true;
    }

    /** The channel send, blocked while the queue is full. */
    method PutIn(p: nat, mm: Msg) returns (go: bool)
      requires Stands(p, Sending(mm))
      modifies this
      ensures PutOutcome(p) == old(PutOutcome(p))
      ensures if go then p !in rest.producers && past.log.put != []
              && past.log.put[|past.log.put| - 1] == mm else turns == []
    {
      while turns != []
        invariant Stands(p, Sending(mm)) && PutOutcome(p) == old(PutOutcome(p))
        decreases |turns|
      {
        OthersThan(p, Sending(mm));
        if HasRoom(ch.Ingress(ClassOf(mm)), qSize) {
          ch := ch.Push(ClassOf(mm), mm);
          rest := rest.(producers := rest.producers - {p});
          past := past.(log := past.log.(put := past.log.put + [mm]));
          return true;
        }
      }
      return false;
    }

    /** putMetaMsg: it returns with its message the last one put, and the queue is what
        the step system makes of its actions, one a turn, and the others'. */
    method PutMetaMsg(p: nat, mm: Msg) returns (go: bool)
      requires p !in rest.producers
      modifies this
      ensures Value() == PlayPut(qSize, Step(qSize, old(Value()), PBegin(p, mm)), p, old(turns))
      ensures if go then p !in rest.producers && past.log.put != []
              && past.log.put[|past.log.put| - 1] == mm else turns == []
    {
      var pc := Enter(p, mm);
      go := true;
      if pc.WantLock? {
        go := InitChan(p, mm);
      }
      if go {
        go := PutIn(p, mm);
      }
    }
  }
}
