/** `send` of a stream as code over the connection: the compare-and-swap on the flag, the
  encoding into the shared buffer or a copy, the mutex, and the write in pieces.

  As in MsgQueueCode, a turn says what the other senders do before the next action, and
  how that action goes; `Play` says what must come of the turns, one action each. */
module FrameSendersCode {
  import opened Collections
  import opened Framing
  import opened FrameSenders

  /** `junk`: encoding has only got as far as this.  `n`: how many bytes the next write
      takes.  `fails`: it returns an error instead. */
  datatype Turn = Turn(others: seq<Label>, junk: Option<seq<byte>>, n: nat, fails: bool)

  predicate Ended(pc: Pc) {
    pc.Done? || pc.TooLarge? || pc.Broken?
  }

  /** Others leave the sender itself alone. */
  function Other(s: State, id: nat, l: Label): State {
    if l.id == id then s else Step(s, l)
  }

  function OthersRun(s: State, id: nat, ls: seq<Label>): State {
    if ls == [] then s else Other(OthersRun(s, id, ls[..|ls| - 1]), id, ls[|ls| - 1])
  }

  /** The one action that the sender's place in the code allows. */
  function NextLabel(s: State, id: nat, turn: Turn): Label
    requires id in s.senders
  {
    var x := s.senders[id];
    match x.pc
    case Claiming => Claim(id)
    case Encoding => if turn.junk.Some? then Scribble(id, turn.junk.value) else Encoded(id)
    case Ready => Lock(id)
    case Writing(done) => if done == |Out(s, x)| then Clear(id) else if turn.fails then Fail(id) else Write(id, turn.n)
    case Unlocking(_) => Unlock(id)
    case _ => Unlock(id)
  }

  lemma OthersKeep(s: State, id: nat, l: Label)
    requires id in s.senders && l.id != id
    ensures id in Step(s, l).senders && Step(s, l).senders[id] == s.senders[id]
  {
  }

  lemma {:induction false} OthersRunKeep(s: State, id: nat, ls: seq<Label>)
    requires id in s.senders
    ensures id in OthersRun(s, id, ls).senders && OthersRun(s, id, ls).senders[id] == s.senders[id]
  {
    if ls != [] {
      OthersRunKeep(s, id, ls[..|ls| - 1]);
      var u, l := OthersRun(s, id, ls[..|ls| - 1]), ls[|ls| - 1];
      if l.id != id {
        OthersKeep(u, id, l);
      }
    }
  }

  /** Until the call returns. */
  function Play(s: State, id: nat, turns: seq<Turn>): State
    decreases |turns|
  {
    if turns == [] || id !in s.senders || Ended(s.senders[id].pc) then s
    else
      var u := OthersRun(s, id, turns[0].others);
      if id in u.senders then Play(Step(u, NextLabel(u, id, turns[0])), id, turns[1..]) else s
  }

  lemma PlayTurn(s: State, id: nat, turns: seq<Turn>)
    requires turns != [] && id in s.senders && !Ended(s.senders[id].pc)
    ensures var u := OthersRun(s, id, turns[0].others);
            && id in u.senders && u.senders[id] == s.senders[id]
            && Play(s, id, turns) == Play(Step(u, NextLabel(u, id, turns[0])), id, turns[1..])
  {
    OthersRunKeep(s, id, turns[0].others);
  }

  lemma {:induction false} OthersKeepAll(s: State, id: nat, ls: seq<Label>)
    requires Buffers(s) && Traffic(s)
    ensures Buffers(OthersRun(s, id, ls)) && Traffic(OthersRun(s, id, ls))
  {
    if ls != [] {
      OthersKeepAll(s, id, ls[..|ls| - 1]);
      var u, l := OthersRun(s, id, ls[..|ls| - 1]), ls[|ls| - 1];
      StepKeepsBuffers(u, l);
      StepKeepsTraffic(u, l);
    }
  }

  /** So sending keeps the invariants of all runs. */
  lemma {:induction false} PlayKeeps(s: State, id: nat, turns: seq<Turn>)
    requires Buffers(s) && Traffic(s)
    ensures Buffers(Play(s, id, turns)) && Traffic(Play(s, id, turns))
    decreases |turns|
  {
    if turns != [] && id in s.senders && !Ended(s.senders[id].pc) {
      PlayTurn(s, id, turns);
      OthersKeepAll(s, id, turns[0].others);
      var u := OthersRun(s, id, turns[0].others);
      StepKeepsBuffers(u, NextLabel(u, id, turns[0]));
      StepKeepsTraffic(u, NextLabel(u, id, turns[0]));
      PlayKeeps(Step(u, NextLabel(u, id, turns[0])), id, turns[1..]);
    }
  }

  datatype Result = Ok | ErrTooLarge | ErrWrite | Running

  class Connection {
    var senders: map<nat, Sender>       // where every sender is, with its locals
    var encMainCopy: set<nat>           // the streams whose flag is 1
    var encBuffers: map<nat, seq<byte>> // the streams' encoder buffers
    var mutex: Option<nat>
    var netconn: seq<byte>              // what has been written
    var broken: bool
    var past: (seq<nat>, seq<Payload>)  // history
    var turns: seq<Turn>

    function Value(): State
      reads this
    {
      State(senders, encMainCopy, encBuffers, mutex, netconn, broken, past.0, past.1)
    }

    ghost function Outcome(id: nat): State
      reads this
    {
      Play(Value(), id, turns)
    }

    predicate At(id: nat, pc: Pc)
      reads this
    {
      id in senders && senders[id].pc == pc
    }

    method Become(t: State)
      modifies this
      ensures Value() == t && turns == old(turns)
    {
      senders, encMainCopy, encBuffers, mutex, netconn, broken := t.senders, t.flag, t.shared, t.lock, t.wire, t.broken;
      past := (t.order, t.payloads);
    }

    /** The others' turn. */
    method Others(id: nat) returns (turn: Turn)
      requires turns != [] && id in senders && !Ended(senders[id].pc)
      modifies this
      ensures turn == old(turns[0]) && turns == old(turns[1..])
      ensures Value() == OthersRun(old(Value()), id, turn.others)
      ensures id in senders && senders[id] == old(senders[id])
    {
      OthersRunKeep(Value(), id, turns[0].others);
      turn := turns[0];
      turns := turns[1..];
      ghost var s, ls := Value(), turn.others;
      for i := 0 to |turn.others|
        invariant Value() == OthersRun(s, id, ls[..i]) && turns == old(turns[1..])
      {
        assert ls[..i + 1][..i] == ls[..i];
        if turn.others[i].id != id {
          Become(Step(Value(), turn.others[i]));
        }
      }
      assert ls[..|ls|] == ls;
    }

    method Set(id: nat, x: Sender)
      modifies `senders
      ensures senders == old(senders)[id := x]
    {
      senders := senders[id := x];
    }

    /** CompareAndSwapInt32(&encMainCopy, 0, 1). */
    method ClaimBuffer(id: nat)
      requires At(id, Claiming) && turns != []
      modifies this
      ensures Outcome(id) == old(Outcome(id)) && |turns| < |old(turns)| && At(id, Encoding)
    {
      PlayTurn(Value(), id, turns);
      var _ := Others(id);
      var x := senders[id];
      if x.stream !in encMainCopy {
        encMainCopy := encMainCopy + {x.stream};
        x := x.(main := true);
      }
      Set(id, x.(pc := Encoding));
    }

    /** enc.Encode and the check of its length. */
    method Encode(id: nat) returns (go: bool)
      requires At(id, Encoding)
      modifies this
      ensures Outcome(id) == old(Outcome(id)) && |turns| <= |old(turns)|
      ensures if go then At(id, Ready) || At(id, TooLarge) else turns == []
    {
      while turns != []
        invariant Outcome(id) == old(Outcome(id)) && |turns| <= |old(turns)| && At(id, Encoding)
        decreases |turns|
      {
        PlayTurn(Value(), id, turns);
        var turn := Others(id);
        var x := senders[id];
        if turn.junk.Some? {
          FillBuffer(id, turn.junk.value);
        } else if |x.payload| > MAX_INT32 {
          Set(id, x.(pc := TooLarge));
          return true;
        } else {
          FillBuffer(id, x.payload);
          Set(id, Finished(senders[id]));
          return true;
        }
      }
      return false;
    }

    /** Writing into the buffer the sender uses. */
    method FillBuffer(id: nat, bytes: seq<byte>)
      requires id in senders
      modifies this
      ensures Value() == Fill(old(Value()), id, bytes) && turns == old(turns)
    {
      var x := senders[id];
      if x.main {
        encBuffers := encBuffers[x.stream := bytes];
      } else {
        Set(id, x.(copy := bytes));
      }
    }

    method TakeMutex(id: nat)
      requires At(id, Ready) && mutex.None?
      modifies this
      ensures Value() == Step(old(Value()), Lock(id)) && turns == old(turns) && At(id, Writing(0))
    {
      var x := senders[id];
      mutex := Some(id);
      Set(id, x.(pc := Writing(0)));
      if !broken && |x.payload| <= MAX_INT32 {
        past := (past.0 + [id], past.1 + [x.payload]);
      }
    }

    /** The mutex, blocked while another sender has it. */
    method Acquire(id: nat) returns (go: bool)
      requires At(id, Ready)
      modifies this
      ensures Outcome(id) == old(Outcome(id)) && |turns| <= |old(turns)|
      ensures if go then At(id, Writing(0)) else turns == []
    {
      while turns != []
        invariant Outcome(id) == old(Outcome(id)) && |turns| <= |old(turns)| && At(id, Ready)
        decreases |turns|
      {
        PlayTurn(Value(), id, turns);
        var _ := Others(id);
        if mutex.None? {
          TakeMutex(id);
          return true;
        }
      }
      return false;
    }

    /** What the two slices handed to the write show now. */
    function Slices(id: nat): (out: seq<byte>)
      requires id in senders
      reads this
      ensures out == Out(Value(), senders[id])
    {
      var x := senders[id];
      x.header + if x.main then (if x.stream in encBuffers then encBuffers[x.stream] else []) else x.copy
    }

    /** The deferred function: the flag, if the sender has the main copy. */
    method ClearMain(id: nat, ok: bool)
      requires id in senders
      modifies this
      ensures Value() == ClearFlag(old(Value()), id, ok) && turns == old(turns) && At(id, Unlocking(ok))
    {
      var x := senders[id];
      if x.main {
        encMainCopy := encMainCopy - {x.stream};
      }
      Set(id, x.(pc := Unlocking(ok)));
    }

    method WriteSome(id: nat, done: nat, n: nat)
      requires At(id, Writing(done))
      modifies this
      ensures Value() == Step(old(Value()), Write(id, n)) && turns == old(turns)
      ensures id in senders && senders[id].pc.Writing?
    {
      var out := Slices(id);
      if !broken && done + n <= |out| {
        netconn := netconn + out[done..done + n];
        Set(id, senders[id].(pc := Writing(done + n)));
      }
    }

    /** One write of the rest of the buffers, or the clearing of the flag after the last. */
    method WriteOnce(id: nat, done: nat) returns (more: bool)
      requires At(id, Writing(done)) && turns != []
      modifies this
      ensures Outcome(id) == old(Outcome(id)) && |turns| < |old(turns)|
      ensures id in senders && if more then senders[id].pc.Writing? else senders[id].pc.Unlocking?
    {
      PlayTurn(Value(), id, turns);
      var turn := Others(id);
      var size := |Slices(id)|;
      if done == size {
        ClearMain(id, true);
        return false;
      }
      if !turn.fails {
        WriteSome(id, done, turn.n);
        return true;
      }
      if done < size {
        ClearMain(id, false);
        broken := true;
        return false;
      }
      return true;
    }

    method WriteTo(id: nat) returns (go: bool)
      requires At(id, Writing(0))
      modifies this
      ensures Outcome(id) == old(Outcome(id)) && |turns| <= |old(turns)|
      ensures if go then id in senders && senders[id].pc.Unlocking? else turns == []
    {
      var more := true;
      while turns != [] && more
        invariant Outcome(id) == old(Outcome(id)) && |turns| <= |old(turns)|
        invariant id in senders && if more then senders[id].pc.Writing? else senders[id].pc.Unlocking?
        decreases |turns|
      {
        more := WriteOnce(id, senders[id].pc.done);
      }
      go := !more;
    }

    method Release(id: nat)
      requires id in senders && senders[id].pc.Unlocking? && turns != []
      modifies this
      ensures Outcome(id) == old(Outcome(id)) && id in senders && (At(id, Done) || At(id, Broken))
    {
      PlayTurn(Value(), id, turns);
      var _ := Others(id);
      var x := senders[id];
      mutex := None;
      Set(id, x.(pc := if x.pc.ok then Done else Broken));
    }

    /** send: the connection is what the step system makes of its actions, one a turn, and
        the others'; the result says how it ended. */
    method Send(id: nat, stream: nat, payload: seq<byte>) returns (r: Result)
      requires id !in senders
      modifies this
      ensures Value() == Play(Step(old(Value()), Begin(id, stream, payload)), id, old(turns))
      ensures match r
              case Ok => At(id, Done)
              case ErrTooLarge => At(id, TooLarge)
              case ErrWrite => At(id, Broken)
              case Running => turns == []
    {
      Set(id, Sender(stream, payload, false, [], [], Claiming));
      r := Running;
      if turns == [] {
        return;
      }
      ClaimBuffer(id);
      var go := Encode(id);
      if !go {
        return;
      }
      if senders[id].pc.TooLarge? {
        return ErrTooLarge;
      }
      go := Acquire(id);
      if !go {
        return;
      }
      go := WriteTo(id);
      if !go || turns == [] {
        return;
      }
      Release(id);
      r := if senders[id].pc.Done? then Ok else ErrWrite;
    }
  }
}
