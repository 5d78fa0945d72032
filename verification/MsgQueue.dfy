/** The prioritised message queue of scalamsgq.go as an interleaved step system.

  Every goroutine that touches a `msgQ` is here: any number of producers inside
  `putMetaMsg`, the reorder goroutine, any number of workers, and `close`.  A label
  names one atomic action of one of them; `Step` performs it when that action is
  possible and otherwise leaves the state alone (the goroutine is blocked).  A
  schedule is any sequence of labels, so a statement about `Run(q, Init(), ls)` for
  all `ls` is a statement about every interleaving. */
module MsgQueue {
  import opened Collections

  datatype Class = High | Normal | Low

  /** A message and the marker interfaces its type implements. */
  datatype Msg = Msg(id: nat, isHigh: bool, isLow: bool)

  /** The type switch of putMetaMsg: the high marker is looked at first. */
  function ClassOf(m: Msg): Class {
    if m.isHigh then High else if m.isLow then Low else Normal
  }

  // ----- Channels -----

  /** A Go channel variable: nil until it is made. */
  datatype Chan = Nil | Made(q: seq<Msg>)

  function Content(ch: Chan): seq<Msg> {
    if ch.Made? then ch.q else []
  }

  /** len(ch), which is 0 for a nil channel. */
  function Len(ch: Chan): nat {
    |Content(ch)|
  }

  predicate HasRoom(ch: Chan, cap: nat) {
    ch.Made? && |ch.q| < cap
  }

  datatype Chans = Chans(high: Chan, normal: Chan, low: Chan, egress: Chan) {
    function Ingress(c: Class): Chan {
      match c case High => high case Normal => normal case Low => low
    }

    function SetIngress(c: Class, ch: Chan): Chans {
      match c
      case High => this.(high := ch)
      case Normal => this.(normal := ch)
      case Low => this.(low := ch)
    }

    function Push(c: Class, m: Msg): Chans {
      SetIngress(c, Made(Content(Ingress(c)) + [m]))
    }

    function Pop(c: Class): Chans
      requires Len(Ingress(c)) > 0
    {
      SetIngress(c, Made(Ingress(c).q[1..]))
    }
  }

  // ----- Goroutines -----

  /** Where a goroutine inside putMetaMsg is. */
  datatype Producer =
    | WantLock(m: Msg)     // saw a nil ingress channel
    | MakeIngress(m: Msg)  // holds the lock
    | MakeEgress(m: Msg)
    | Spawn(m: Msg)        // made the egress channel, about to start reorder
    | Release(m: Msg)
    | Sending(m: Msg)      // blocked on, or about to do, the channel send

  /** A message the select took, and the channel it came from: the code keeps it in
      msgH, msgN or msgL accordingly. */
  datatype Got = Got(c: Class, m: Msg)

  /** What the drain loops of one round still have to do: the message the select took
      (until it is sent), the message just received and not yet sent, and the three
      counters, each of which is decremented after its send. */
  datatype Drain = Drain(phase: Class, first: Option<Got>, hand: Option<Msg>, remHigh: nat, remNormal: nat,
      remLow: nat) {
    function Rem(): nat {
      match phase case High => remHigh case Normal => remNormal case Low => remLow
    }

    /** The message taken by the select goes out at the start of its own phase. */
    predicate FirstDue() {
      first.Some? && first.value.c == phase
    }

    function Sent(): Drain
      requires Rem() > 0
    {
      match phase
      case High => this.(hand := None, remHigh := remHigh - 1)
      case Normal => this.(hand := None, remNormal := remNormal - 1)
      case Low => this.(hand := None, remLow := remLow - 1)
    }
  }

  /** Where the reorder goroutine is.  The operands of its select are read once, on
      entry: `Parked` remembers which of them were not nil then. */
  datatype Reorder =
    | NotStarted
    | Top
    | OperandHigh(done: bool)
    | OperandLow(done: bool, high: bool)
    | Parked(done: bool, high: bool, low: bool)
    | CountLow(got: Got)
    | CountNormal(got: Got, lenLow: nat)
    | CountHigh(got: Got, lenLow: nat, lenNormal: nat)
    | Draining(d: Drain)
    | Stopped

  datatype Worker = Choosing | OnNormal | OnEgress | Busy(m: Msg)

  // ----- History: nothing in a step looks at it -----

  /** A message that left the normal ingress queue, and whether a worker took it
      straight from there. */
  datatype Out = Out(m: Msg, direct: bool)

  datatype Log = Log(put: seq<Msg>, outs: seq<Out>, sent: seq<Msg>, taken: seq<Msg>)

  datatype Created = Created(high: nat, low: nat, egress: nat, reorder: nat)

  datatype State = State(
    ch: Chans,
    lock: Option<nat>,
    producers: map<nat, Producer>,
    reorder: Reorder,
    confirmed: bool,
    workers: map<nat, Worker>,
    doneClosed: bool,
    doneNil: bool,
    log: Log,
    rounds: seq<seq<Msg>>,
    stolen: nat,             // direct takes since reorder last read the normal count
    created: Created)

  datatype Label =
    | PBegin(p: nat, m: Msg) | PLock(p: nat) | PMakeIngress(p: nat) | PMakeEgress(p: nat)
    | PSpawn(p: nat) | PRelease(p: nat) | PSend(p: nat)
    | REnter | ROperandHigh | ROperandLow | RTake(c: Class) | RStop
    | RCountLow | RCountNormal | RCountHigh | RSendFirst | RReceive | RSendHand | RNext
    | WStart(w: nat) | WChoose(w: nat) | WTake(w: nat) | WDone(w: nat) | WExit(w: nat)
    | CloseDone | NilDone

  function Init(): State {
    State(Chans(Nil, Made([]), Nil, Nil), None, map[], NotStarted, false, map[], false, false,
          Log([], [], [], []), [], 0, Created(0, 0, 0, 0))
  }

  // ----- Producers: putMetaMsg -----

  function Begin(s: State, p: nat, m: Msg): State {
    if p in s.producers then s
    else s.(producers := s.producers[p := if s.ch.Ingress(ClassOf(m)).Nil? then WantLock(m) else Sending(m)])
  }

  function Lock(s: State, p: nat, m: Msg): State {
    if s.lock.Some? then s else s.(lock := Some(p), producers := s.producers[p := MakeIngress(m)])
  }

  function CreateIngress(s: State, p: nat, m: Msg): State {
    var t := s.(producers := s.producers[p := MakeEgress(m)]);
    var c := ClassOf(m);
    if s.ch.Ingress(c).Made? then t
    else t.(ch := s.ch.SetIngress(c, Made([])),
            created := if c == High then s.created.(high := s.created.high + 1)
                       else s.created.(low := s.created.low + 1))
  }

  function CreateEgress(s: State, p: nat, m: Msg): State {
    if s.ch.egress.Made? then s.(producers := s.producers[p := Release(m)])
    else s.(ch := s.ch.(egress := Made([])), producers := s.producers[p := Spawn(m)],
            created := s.created.(egress := s.created.egress + 1))
  }

  function SpawnReorder(s: State, p: nat, m: Msg): State {
    s.(reorder := Top, producers := s.producers[p := Release(m)],
       created := s.created.(reorder := s.created.reorder + 1))
  }

  function Put(q: nat, s: State, p: nat, m: Msg): State {
    if !HasRoom(s.ch.Ingress(ClassOf(m)), q) then s
    else s.(ch := s.ch.Push(ClassOf(m), m), producers := s.producers - {p}, log := s.log.(put := s.log.put + [m]))
  }

  predicate IsProducerLabel(l: Label) {
    l.PLock? || l.PMakeIngress? || l.PMakeEgress? || l.PSpawn? || l.PRelease? || l.PSend?
  }

  function ProducerStep(q: nat, s: State, l: Label): State
    requires IsProducerLabel(l)
  {
    if l.p !in s.producers then s
    else
      var pc, p := s.producers[l.p], l.p;
      if l.PLock? && pc.WantLock? then Lock(s, p, pc.m)
      else if l.PMakeIngress? && pc.MakeIngress? then CreateIngress(s, p, pc.m)
      else if l.PMakeEgress? && pc.MakeEgress? then CreateEgress(s, p, pc.m)
      else if l.PSpawn? && pc.Spawn? then SpawnReorder(s, p, pc.m)
      else if l.PRelease? && pc.Release? then s.(lock := None, producers := s.producers[p := Sending(pc.m)])
      else if l.PSend? && pc.Sending? then Put(q, s, p, pc.m)
      else s
  }

  // ----- The reorder goroutine -----

  function PopLog(log: Log, c: Class, m: Msg): Log {
    if c == Normal then log.(outs := log.outs + [Out(m, false)]) else log
  }

  /** One branch of the select; a nil operand is never ready. */
  function Take(s: State, c: Class): State {
    if s.reorder.Parked? && (c == High ==> s.reorder.high) && (c == Low ==> s.reorder.low)
        && Len(s.ch.Ingress(c)) > 0 then
      var m := s.ch.Ingress(c).q[0];
      s.(ch := s.ch.Pop(c), reorder := CountLow(Got(c, m)), log := PopLog(s.log, c, m), rounds := s.rounds + [[]])
    else s
  }

  function Receive(s: State, d: Drain): State {
    if !d.FirstDue() && d.hand.None? && d.Rem() > 0 && Len(s.ch.Ingress(d.phase)) > 0 then
      var m := s.ch.Ingress(d.phase).q[0];
      s.(ch := s.ch.Pop(d.phase), reorder := Draining(d.(hand := Some(m))), log := PopLog(s.log, d.phase, m))
    else s
  }

  function AddToRound(rounds: seq<seq<Msg>>, m: Msg): seq<seq<Msg>> {
    if rounds == [] then [[m]] else rounds[..|rounds| - 1] + [rounds[|rounds| - 1] + [m]]
  }

  function Emit(s: State, m: Msg, d: Drain): State {
    s.(ch := s.ch.(egress := Made(Content(s.ch.egress) + [m])), reorder := Draining(d),
       log := s.log.(sent := s.log.sent + [m]), rounds := AddToRound(s.rounds, m))
  }

  function SendFirst(q: nat, s: State, d: Drain): State {
    if d.FirstDue() && HasRoom(s.ch.egress, q) then Emit(s, d.first.value.m, d.(first := None)) else s
  }

  function SendHand(q: nat, s: State, d: Drain): State {
    if d.hand.Some? && d.Rem() > 0 && HasRoom(s.ch.egress, q) then Emit(s, d.hand.value, d.Sent()) else s
  }

  function NextPhase(s: State, d: Drain): State {
    if d.FirstDue() || d.hand.Some? || d.Rem() != 0 then s
    else s.(reorder := match d.phase
                       case High => Draining(d.(phase := Normal))
                       case Normal => Draining(d.(phase := Low))
                       case Low => Top)
  }

  function DrainStep(q: nat, s: State, l: Label, d: Drain): State {
    match l
    case RSendFirst => SendFirst(q, s, d)
    case RReceive => Receive(s, d)
    case RSendHand => SendHand(q, s, d)
    case RNext => NextPhase(s, d)
    case _ => s
  }

  /** Reading the operands of the select, and leaving through done. */
  function OperandStep(s: State, l: Label): State {
    match s.reorder
    case Top => if l.REnter? then s.(reorder := OperandHigh(!s.doneNil)) else s
    case OperandHigh(done) => if l.ROperandHigh? then s.(reorder := OperandLow(done, s.ch.high.Made?)) else s
    case OperandLow(done, high) => if l.ROperandLow? then s.(reorder := Parked(done, high, s.ch.low.Made?)) else s
    case Parked(done, _, _) => if l.RStop? && done && s.doneClosed then s.(reorder := Stopped) else s
    case _ => s
  }

  /** Reading the three lengths, low first. */
  function CountStep(s: State, l: Label): State {
    match s.reorder
    case CountLow(got) => if l.RCountLow? then s.(reorder := CountNormal(got, Len(s.ch.low))) else s
    case CountNormal(got, lenLow) =>
      if l.RCountNormal? then s.(reorder := CountHigh(got, lenLow, Len(s.ch.normal)), stolen := 0) else s
    case CountHigh(got, lenLow, lenNormal) =>
      if l.RCountHigh?
      then s.(reorder := Draining(Drain(High, Some(got), None, Len(s.ch.high), lenNormal, lenLow))) else s
    case _ => s
  }

  predicate Counting(r: Reorder) {
    r.CountLow? || r.CountNormal? || r.CountHigh?
  }

  function ReorderStep(q: nat, s: State, l: Label): State {
    if l.RTake? then Take(s, l.c)
    else if s.reorder.Draining? then DrainStep(q, s, l, s.reorder.d)
    else if Counting(s.reorder) then CountStep(s, l)
    else OperandStep(s, l)
  }

  // ----- Workers -----

  function Choose(s: State, w: nat): State {
    if s.ch.egress.Nil? then s.(workers := s.workers[w := OnNormal])
    else if s.confirmed || s.lock.None? then s.(confirmed := true, workers := s.workers[w := OnEgress])
    else s
  }

  /** A worker parked on the old normal queue still takes from it. */
  function TakeDirect(s: State, w: nat): State {
    if Len(s.ch.normal) == 0 then s
    else
      var m := s.ch.normal.q[0];
      s.(ch := s.ch.Pop(Normal), workers := s.workers[w := Busy(m)],
         log := s.log.(outs := s.log.outs + [Out(m, true)]), stolen := s.stolen + 1)
  }

  function TakeEgress(s: State, w: nat): State {
    if Len(s.ch.egress) == 0 then s
    else
      var m := s.ch.egress.q[0];
      s.(ch := s.ch.(egress := Made(s.ch.egress.q[1..])), workers := s.workers[w := Busy(m)],
         log := s.log.(taken := s.log.taken + [m]))
  }

  predicate IsWorkerLabel(l: Label) {
    l.WChoose? || l.WTake? || l.WDone? || l.WExit?
  }

  function WorkerTake(s: State, w: nat): State {
    if w !in s.workers then s
    else if s.workers[w].OnNormal? then TakeDirect(s, w)
    else if s.workers[w].OnEgress? then TakeEgress(s, w)
    else s
  }

  /** The actions of a worker that move no message. */
  function WorkerLook(s: State, l: Label): State
    requires IsWorkerLabel(l)
  {
    if l.w !in s.workers then s
    else
      var pc, w := s.workers[l.w], l.w;
      if l.WChoose? && pc.Choosing? then Choose(s, w)
      else if l.WDone? && pc.Busy? then s.(workers := s.workers[w := Choosing])
      else if l.WExit? && (pc.OnNormal? || pc.OnEgress?) then s.(workers := s.workers - {w})
      else s
  }

  function WorkerStep(s: State, l: Label): State
    requires IsWorkerLabel(l)
  {
    if l.WTake? then WorkerTake(s, l.w) else WorkerLook(s, l)
  }

  // ----- Schedules -----

  function Step(q: nat, s: State, l: Label): State {
    if l.PBegin? then Begin(s, l.p, l.m)
    else if IsProducerLabel(l) then ProducerStep(q, s, l)
    else if l.WStart? then if l.w in s.workers then s else s.(workers := s.workers[l.w := Choosing])
    else if IsWorkerLabel(l) then WorkerStep(s, l)
    else if l.CloseDone? then s.(doneClosed := true)
    else if l.NilDone? then s.(doneNil := s.doneNil || s.doneClosed)
    else ReorderStep(q, s, l)
  }

  function Run(q: nat, s: State, ls: seq<Label>): State
    decreases |ls|
  {
    if ls == [] then s else Step(q, Run(q, s, ls[..|ls| - 1]), ls[|ls| - 1])
  }
}
