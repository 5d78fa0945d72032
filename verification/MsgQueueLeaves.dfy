/** Exactly which waiting messages can still leave their ingress queue without another one
  being put. */
module MsgQueueLeaves {
  import opened Collections
  import opened MsgQueue
  import opened MsgQueueOrder
  import opened MsgQueueFlow
  import opened MsgQueueTheorems
  import opened MsgQueueWaiting
  import opened MsgQueueBlind
  import opened MsgQueueWitness

  predicate NoPuts(ls: seq<Label>) {
    forall l :: l in ls ==> !l.PSend?
  }

  /** The round is, or will be, promised more normal messages than there are, because
      workers took some directly since the count. */
  predicate Starved(r: Reorder, normal: nat)
    requires HandOk(r)
  {
    match r
    case CountHigh(_, _, lenNormal) => lenNormal > normal
    case Draining(d) => d.phase != Low && Owed(d, Normal) > normal
    case _ => false
  }

  /** What a starved round still gets to before it waits: every normal message, and the
      high messages that it counted, or has yet to count. */
  predicate Reached(r: Reorder, c: Class, left: int, k: nat)
    requires HandOk(r)
  {
    match c
    case Normal => true
    case High => r.CountHigh? || (r.Draining? && k < left + Owed(r.d, High))
    case Low => false
  }

  /** The message with index k of class c waits for one that is still to be put. */
  ghost predicate Doomed(s: State, c: Class, k: nat)
    requires HandOk(s.reorder)
  {
    Blind(s) || (Starved(s.reorder, Len(s.ch.normal)) && !Reached(s.reorder, c, Left(s.ch, s.log, c), k))
  }

  ghost predicate HasLeft(q: nat, s: State, ls: seq<Label>, c: Class, k: nat) {
    var t := Run(q, s, ls);
    Left(t.ch, t.log, c) > k
  }

  ghost predicate CanLeave(q: nat, s: State, c: Class, k: nat) {
    exists ls: seq<Label> :: NoPuts(ls) && HasLeft(q, s, ls, c, k)
  }

  // ----- Doomed messages stay -----

  ghost predicate BlindTo(s: State, c: Class) {
    && (s.reorder.Parked? || s.reorder.OperandLow?) && !Watched(s.reorder, c)
    && forall j :: Watched(s.reorder, j) ==> Len(s.ch.Ingress(j)) == 0
  }

  ghost predicate Never(s: State, c: Class, k: nat)
    requires HandOk(s.reorder)
  {
    && c != Normal && Left(s.ch, s.log, c) <= k
    && (s.reorder.Stopped? || BlindTo(s, c)
        || (Starved(s.reorder, Len(s.ch.normal)) && !Reached(s.reorder, c, Left(s.ch, s.log, c), k)))
  }

  lemma DoomedIsNever(s: State, c: Class, k: nat)
    requires HandOk(s.reorder) && Waiting(s, c, k) && Doomed(s, c, k)
    ensures Never(s, c, k)
  {
    assert Len(s.ch.Ingress(c)) > 0;
    assert s.reorder.Parked? || s.reorder.OperandLow? ==> Watched(s.reorder, Normal);
  }

  lemma QuietProducers(q: nat, s: State, l: Label)
    requires Setup(q, s) && IsProducerLabel(l) && !l.PSend?
    ensures SameTally(s, ProducerStep(q, s, l))
    ensures !s.reorder.NotStarted? ==> ProducerStep(q, s, l).reorder == s.reorder
  {
    if l.p in s.producers {
      assert ProducerOk(s.ch, s.reorder, s.lock, l.p, s.producers[l.p]);
    }
  }

  lemma NeverFrame(s: State, t: State, c: Class, k: nat)
    requires HandOk(s.reorder) && Never(s, c, k) && SameTally(s, t) && t.reorder == s.reorder
    ensures Never(t, c, k)
  {
    assert forall j :: Len(t.ch.Ingress(j)) == Len(s.ch.Ingress(j));
  }

  lemma NeverWorkers(s: State, l: Label, c: Class, k: nat)
    requires HandOk(s.reorder) && Never(s, c, k) && IsWorkerLabel(l)
    ensures WorkerStep(s, l).reorder == s.reorder && Never(WorkerStep(s, l), c, k)
  {
    WorkerFrame(s, l);
    if SameTally(s, WorkerStep(s, l)) {
      NeverFrame(s, WorkerStep(s, l), c, k);
    } else {
      var t := TakeDirect(s, l.w);
      assert Left(t.ch, t.log, c) == Left(s.ch, s.log, c);
      assert BlindTo(s, c) ==> Watched(s.reorder, Normal);
    }
  }

  lemma NeverReceives(s: State, d: Drain, c: Class, k: nat)
    requires s.reorder == Draining(d) && DrainOk(d) && Never(s, c, k)
    ensures HandOk(Receive(s, d).reorder) ==> Never(Receive(s, d), c, k)
  {
    if Receive(s, d) != s {
      PopLeaves(s.ch, s.log, d.phase, c);
    }
  }

  lemma SentOwes(d: Drain, c: Class)
    requires DrainOk(d)
    ensures d.FirstDue() ==> DrainOk(d.(first := None)) && Owed(d.(first := None), c) == Owed(d, c)
    ensures d.hand.Some? ==> DrainOk(d.Sent()) && Owed(d.Sent(), c) == Owed(d, c)
  {
  }

  lemma NeverEmits(s: State, d: Drain, m: Msg, d': Drain, c: Class, k: nat)
    requires s.reorder == Draining(d) && DrainOk(d) && DrainOk(d') && Never(s, c, k) && d'.phase == d.phase
    requires Owed(d', Normal) == Owed(d, Normal) && Owed(d', High) == Owed(d, High)
    ensures Never(Emit(s, m, d'), c, k)
  {
    assert Left(Emit(s, m, d').ch, Emit(s, m, d').log, c) == Left(s.ch, s.log, c);
  }

  lemma NeverSends(q: nat, s: State, d: Drain, c: Class, k: nat)
    requires s.reorder == Draining(d) && DrainOk(d) && Never(s, c, k)
    ensures HandOk(SendFirst(q, s, d).reorder) ==> Never(SendFirst(q, s, d), c, k)
    ensures HandOk(SendHand(q, s, d).reorder) ==> Never(SendHand(q, s, d), c, k)
  {
    SentOwes(d, Normal);
    SentOwes(d, High);
    if d.FirstDue() {
      NeverEmits(s, d, d.first.value.m, d.(first := None), c, k);
    }
    if d.hand.Some? {
      NeverEmits(s, d, d.hand.value, d.Sent(), c, k);
    }
  }

  lemma NeverNext(s: State, d: Drain, c: Class, k: nat)
    requires s.reorder == Draining(d) && DrainOk(d) && Never(s, c, k)
    ensures HandOk(NextPhase(s, d).reorder) ==> Never(NextPhase(s, d), c, k)
  {
    assert d.phase == Normal && Owed(d, Normal) > 0 ==> d.hand.Some? || d.Rem() > 0;
  }

  lemma NeverDrains(q: nat, s: State, l: Label, d: Drain, c: Class, k: nat)
    requires s.reorder == Draining(d) && DrainOk(d) && Never(s, c, k)
    ensures HandOk(DrainStep(q, s, l, d).reorder) ==> Never(DrainStep(q, s, l, d), c, k)
  {
    match l
    case RReceive => NeverReceives(s, d, c, k);
    case RSendFirst => NeverSends(q, s, d, c, k);
    case RSendHand => NeverSends(q, s, d, c, k);
    case RNext => NeverNext(s, d, c, k);
    case _ =>
  }

  lemma NeverReorder(q: nat, s: State, l: Label, c: Class, k: nat)
    requires HandOk(s.reorder) && Never(s, c, k) && HandOk(ReorderStep(q, s, l).reorder)
    ensures Never(ReorderStep(q, s, l), c, k)
  {
    if l.RTake? {
      if BlindTo(s, c) && s.reorder.Parked? && Watched(s.reorder, l.c) {
        assert Len(s.ch.Ingress(l.c)) == 0;
      }
    } else if s.reorder.Draining? {
      NeverDrains(q, s, l, s.reorder.d, c, k);
    } else if Counting(s.reorder) {
    } else if s.reorder.OperandLow? && l.ROperandLow? {
      var t := OperandStep(s, l);
      assert forall j :: Watched(t.reorder, j) ==> Watched(s.reorder, j);
    }
  }

  lemma NeverStep(q: nat, s: State, l: Label, c: Class, k: nat)
    requires Inv(q, s) && Never(s, c, k) && !l.PSend?
    ensures Inv(q, Step(q, s, l)) && Never(Step(q, s, l), c, k)
  {
    StepKeeps(q, s, l);
    if IsProducerLabel(l) {
      QuietProducers(q, s, l);
      NeverFrame(s, ProducerStep(q, s, l), c, k);
    } else if IsWorkerLabel(l) {
      NeverWorkers(s, l, c, k);
    } else if IsQuietLabel(l) {
      NeverFrame(s, Step(q, s, l), c, k);
    } else {
      NeverReorder(q, s, l, c, k);
    }
  }

  lemma {:induction false} NeverRun(q: nat, s: State, ls: seq<Label>, c: Class, k: nat)
    requires Inv(q, s) && Never(s, c, k) && NoPuts(ls)
    ensures Inv(q, Run(q, s, ls)) && Never(Run(q, s, ls), c, k)
    decreases |ls|
  {
    if ls != [] {
      NeverRun(q, s, ls[..|ls| - 1], c, k);
      NeverStep(q, Run(q, s, ls[..|ls| - 1]), ls[|ls| - 1], c, k);
    }
  }

  // ----- What else every run keeps -----

  /** Whoever made the first ingress channel has still to make egress and start reorder. */
  ghost predicate Starting(s: State) {
    s.reorder.NotStarted? && (s.ch.high.Made? || s.ch.low.Made?) ==>
      && s.lock.Some? && s.lock.value in s.producers
      && (s.producers[s.lock.value].MakeEgress? || s.producers[s.lock.value].Spawn?)
  }

  predicate StopsClosed(s: State) {
    s.reorder.Stopped? ==> s.doneClosed
  }

  lemma ProducersKeepStarting(q: nat, s: State, l: Label)
    requires Setup(q, s) && Starting(s) && IsProducerLabel(l)
    ensures Starting(ProducerStep(q, s, l))
  {
    if l.p in s.producers {
      assert ProducerOk(s.ch, s.reorder, s.lock, l.p, s.producers[l.p]);
    }
  }

  lemma WorkersLeaveStart(s: State, l: Label)
    requires IsWorkerLabel(l)
    ensures var t := WorkerStep(s, l);
            && t.reorder == s.reorder && t.lock == s.lock && t.producers == s.producers && t.doneClosed == s.doneClosed
            && t.ch.high == s.ch.high && t.ch.low == s.ch.low
  {
  }

  lemma ReorderLeavesStart(q: nat, s: State, l: Label)
    requires StopsClosed(s)
    ensures var t := ReorderStep(q, s, l);
            (t.reorder.NotStarted? ==> t == s) && StopsClosed(t)
            && t.doneClosed == s.doneClosed
  {
  }

  lemma ProducersLeaveDone(q: nat, s: State, l: Label)
    requires IsProducerLabel(l)
    ensures var t := ProducerStep(q, s, l); t.doneClosed == s.doneClosed && (t.reorder == s.reorder || t.reorder.Top?)
  {
  }

  lemma QuietKeepsStarting(q: nat, s: State, l: Label)
    requires Setup(q, s) && Starting(s) && StopsClosed(s) && IsQuietLabel(l)
    ensures Starting(Step(q, s, l)) && StopsClosed(Step(q, s, l))
  {
  }

  lemma StepKeepsStarting(q: nat, s: State, l: Label)
    requires Setup(q, s) && Starting(s) && StopsClosed(s)
    ensures Starting(Step(q, s, l)) && StopsClosed(Step(q, s, l))
  {
    if IsProducerLabel(l) {
      ProducersKeepStarting(q, s, l);
      ProducersLeaveDone(q, s, l);
    } else if IsWorkerLabel(l) {
      WorkersLeaveStart(s, l);
    } else if IsQuietLabel(l) {
      QuietKeepsStarting(q, s, l);
    } else {
      ReorderLeavesStart(q, s, l);
    }
  }

  /** What is known of every reachable state in which done is open. */
  ghost predicate Good(q: nat, s: State) {
    Inv(q, s) && Starting(s) && StopsClosed(s) && !s.doneClosed
  }

  lemma {:induction false} AlwaysStarting(q: nat, ls: seq<Label>)
    ensures Inv(q, Run(q, Init(), ls)) && Starting(Run(q, Init(), ls)) && StopsClosed(Run(q, Init(), ls))
    decreases |ls|
  {
    if ls == [] {
      InitHolds(q);
    } else {
      var s, l := Run(q, Init(), ls[..|ls| - 1]), ls[|ls| - 1];
      AlwaysStarting(q, ls[..|ls| - 1]);
      StepKeeps(q, s, l);
      StepKeepsStarting(q, s, l);
    }
  }

  /** Labels by which a message is helped out: none puts, none closes done. */
  predicate Helps(l: Label) {
    !l.PSend? && !l.CloseDone?
  }

  lemma GoodStep(q: nat, s: State, l: Label)
    requires Good(q, s) && Helps(l)
    ensures Good(q, Step(q, s, l))
  {
    StepKeeps(q, s, l);
    StepKeepsStarting(q, s, l);
    DoneStaysOpen(q, s, l);
  }

  lemma DoneStaysOpen(q: nat, s: State, l: Label)
    requires !l.CloseDone? && StopsClosed(s)
    ensures Step(q, s, l).doneClosed == s.doneClosed
  {
    if IsProducerLabel(l) {
      ProducersLeaveDone(q, s, l);
    } else if IsWorkerLabel(l) {
      WorkersLeaveStart(s, l);
    } else if !IsQuietLabel(l) {
      ReorderLeavesStart(q, s, l);
    }
  }

  // ----- Room in egress -----

  /** Nothing has moved but, perhaps, out of egress. */
  ghost predicate Steady(s: State, t: State) {
    && t.reorder == s.reorder && t.log.put == s.log.put && t.log.sent == s.log.sent
    && Len(t.ch.high) == Len(s.ch.high) && Len(t.ch.normal) == Len(s.ch.normal) && Len(t.ch.low) == Len(s.ch.low)
  }

  predicate AllHelp(ls: seq<Label>) {
    forall l :: l in ls ==> Helps(l)
  }

  lemma RunOn(q: nat, s: State, ls: seq<Label>, l: Label) returns (more: seq<Label>)
    requires AllHelp(ls) && Helps(l)
    ensures AllHelp(more) && Run(q, s, more) == Step(q, Run(q, s, ls), l)
  {
    more := ls + [l];
    assert more[..|ls|] == ls;
  }

  lemma {:induction false} GoodRun(q: nat, s: State, ls: seq<Label>)
    requires Good(q, s) && AllHelp(ls)
    ensures Good(q, Run(q, s, ls))
    decreases |ls|
  {
    if ls != [] {
      GoodRun(q, s, ls[..|ls| - 1]);
      GoodStep(q, Run(q, s, ls[..|ls| - 1]), ls[|ls| - 1]);
    }
  }

  /** The holder of the lock, if any, can go on and release it. */
  lemma FreeLock(q: nat, s: State, ls: seq<Label>, t: State) returns (more: seq<Label>, u: State)
    requires AllHelp(ls) && t == Run(q, s, ls) && Setup(q, t) && !t.reorder.NotStarted?
    ensures AllHelp(more) && u == Run(q, s, more)
    ensures u.lock.None? && Steady(t, u) && u.ch.egress == t.ch.egress && u.workers == t.workers
    decreases HolderDue(t)
  {
    if t.lock.None? {
      more, u := ls, t;
    } else {
      var l := HolderNext(t);
      HolderMoves(q, t);
      SetupKept(q, t, l);
      var on := RunOn(q, s, ls, l);
      more, u := FreeLock(q, s, on, Step(q, t, l));
    }
  }

  function HolderDue(s: State): nat {
    if s.lock.None? || s.lock.value !in s.producers then 0
    else match s.producers[s.lock.value] case MakeIngress(_) => 3 case MakeEgress(_) => 2 case _ => 1
  }

  function HolderNext(s: State): Label
    requires s.lock.Some? && s.lock.value in s.producers
  {
    var p := s.lock.value;
    match s.producers[p]
    case MakeIngress(_) => PMakeIngress(p)
    case MakeEgress(_) => PMakeEgress(p)
    case Spawn(_) => PSpawn(p)
    case _ => PRelease(p)
  }

  lemma HolderMoves(q: nat, s: State)
    requires Setup(q, s) && s.lock.Some? && !s.reorder.NotStarted?
    ensures var t := Step(q, s, HolderNext(s));
            && (t.lock.None? || HolderDue(t) < HolderDue(s)) && HolderDue(s) > 0
            && Steady(s, t) && t.ch.egress == s.ch.egress && t.workers == s.workers
            && Helps(HolderNext(s))
  {
    var p := s.lock.value;
    assert ProducerOk(s.ch, s.reorder, s.lock, p, s.producers[p]);
  }

  lemma Beyond(keys: set<nat>) returns (n: nat)
    ensures forall x :: x in keys ==> x < n
  {
    if keys == {} {
      n := 0;
    } else {
      var x :| x in keys;
      var m := Beyond(keys - {x});
      n := if x < m then m else x + 1;
      forall y | y in keys ensures y < n {
        assert y == x || y in keys - {x};
      }
    }
  }

  lemma NewReader(q: nat, s: State, w: nat)
    requires w !in s.workers && s.lock.None? && s.ch.egress.Made?
    ensures var t := Step(q, Step(q, s, WStart(w)), WChoose(w));
            Steady(s, t) && t.ch == s.ch && w in t.workers && t.workers[w].OnEgress?
  {
    var t := Step(q, s, WStart(w));
    assert t == s.(workers := s.workers[w := Choosing]);
    assert Step(q, t, WChoose(w)) == t.(confirmed := true, workers := t.workers[w := OnEgress]);
  }

  /** A new worker comes to read egress. */
  lemma WorkerComes(q: nat, s: State, ls: seq<Label>, t: State) returns (more: seq<Label>, w: nat, u: State)
    requires AllHelp(ls) && t == Run(q, s, ls) && t.lock.None? && t.ch.egress.Made?
    ensures AllHelp(more) && u == Run(q, s, more)
    ensures Steady(t, u) && u.ch == t.ch && w in u.workers && u.workers[w].OnEgress?
  {
    w := Beyond(t.workers.Keys);
    NewReader(q, t, w);
    more := RunOn(q, s, ls, WStart(w));
    more := RunOn(q, s, more, WChoose(w));
    u := Run(q, s, more);
  }

  lemma EgressTaken(q: nat, s: State, w: nat)
    requires 0 < Len(s.ch.egress) <= q && w in s.workers && s.workers[w].OnEgress?
    ensures var t := Step(q, s, WTake(w)); Steady(s, t) && HasRoom(t.ch.egress, q)
  {
    assert Step(q, s, WTake(w)) == TakeEgress(s, w);
  }

  /** Egress can be made to have room, with nothing else moved. */
  lemma MakeRoom(q: nat, s: State) returns (ls: seq<Label>, t: State)
    requires q >= 1 && Setup(q, s) && !s.reorder.NotStarted?
    ensures AllHelp(ls) && t == Run(q, s, ls) && Steady(s, t) && HasRoom(t.ch.egress, q)
  {
    if HasRoom(s.ch.egress, q) {
      ls, t := [], s;
    } else {
      var free, u := FreeLock(q, s, [], s);
      var on, w, v := WorkerComes(q, s, free, u);
      EgressTaken(q, v, w);
      ls := RunOn(q, s, on, WTake(w));
      t := Step(q, v, WTake(w));
    }
  }

  lemma StaleComes(q: nat, s: State, w: nat)
    requires w !in s.workers && s.ch.egress.Nil? && Len(s.ch.normal) > 0
    ensures var t := Step(q, Step(q, Step(q, s, WStart(w)), WChoose(w)), WTake(w));
            && t.reorder == s.reorder && t.log.put == s.log.put
            && Left(t.ch, t.log, Normal) == Left(s.ch, s.log, Normal) + 1
  {
    var t := Step(q, s, WStart(w));
    assert t == s.(workers := s.workers[w := Choosing]);
    var u := Step(q, t, WChoose(w));
    assert u == s.(workers := s.workers[w := Choosing][w := OnNormal]);
    assert Step(q, u, WTake(w)) == TakeDirect(u, w);
  }

  /** Before there is an egress queue, a new worker takes from the normal queue. */
  lemma TakenDirectly(q: nat, s: State) returns (ls: seq<Label>)
    requires s.ch.egress.Nil? && Len(s.ch.normal) > 0
    ensures AllHelp(ls)
    ensures var t := Run(q, s, ls);
            && t.reorder == s.reorder && t.log.put == s.log.put
            && Left(t.ch, t.log, Normal) == Left(s.ch, s.log, Normal) + 1
  {
    var w := Beyond(s.workers.Keys);
    StaleComes(q, s, w);
    ls := RunOn(q, s, [], WStart(w));
    ls := RunOn(q, s, ls, WChoose(w));
    ls := RunOn(q, s, ls, WTake(w));
  }

  // ----- Getting a message out -----

  /** Reorder's own steps between two sends, counted down. */
  function Stage(s: State, c: Class, k: nat): nat
    requires HandOk(s.reorder)
  {
    var late := if Covered(s.reorder, c, Left(s.ch, s.log, c), k) then 0 else 30;
    match s.reorder
    case NotStarted => if s.ch.egress.Made? then 60 else 61
    case Top => 25
    case OperandHigh(_) => 24
    case OperandLow(_, _) => 23
    case Parked(_, _, _) => 22
    case CountLow(_) => 15
    case CountNormal(_, _) => 14 + late
    case CountHigh(_, _, _) => 13 + late
    case Draining(d) => 4 * (2 - Rank(d.phase)) + late + if d.hand.None? then 1 else 0
    case Stopped => 0
  }

  /** The message is out, or it still waits, is not doomed, and is nearer to leaving. */
  ghost predicate Nearer(s: State, t: State, c: Class, k: nat)
    requires HandOk(s.reorder)
  {
    || Left(t.ch, t.log, c) > k
    || (&& HandOk(t.reorder) && Waiting(t, c, k) && !Doomed(t, c, k)
        && (|| Left(t.ch, t.log, c) > Left(s.ch, s.log, c)
            || |t.log.sent| > |s.log.sent|
            || (|t.log.sent| == |s.log.sent| && Stage(t, c, k) < Stage(s, c, k))))
  }

  /** What these steps need to know of the invariant. */
  predicate Fit(q: nat, s: State) {
    HandOk(s.reorder) && CountsOk(q, s.ch, s.reorder, s.stolen)
  }

  lemma GoodIsFit(q: nat, s: State)
    requires Good(q, s)
    ensures Fit(q, s) && !s.reorder.Stopped?
  {
  }

  /** Reorder has moved on, and no message has. */
  ghost predicate OnlyReorder(s: State, t: State) {
    t.ch == s.ch && t.log == s.log
  }

  lemma MoveNearer(s: State, t: State, c: Class, k: nat)
    requires HandOk(s.reorder) && HandOk(t.reorder) && OnlyReorder(s, t) && Waiting(s, c, k)
    requires !Doomed(t, c, k) && Stage(t, c, k) < Stage(s, c, k)
    ensures Nearer(s, t, c, k)
  {
  }

  lemma NotBlind(s: State, j: Class)
    requires Watched(s.reorder, j) && Len(s.ch.Ingress(j)) > 0
    ensures !Blind(s)
  {
  }

  lemma WatchedWaits(s: State, c: Class, k: nat) returns (j: Class)
    requires HandOk(s.reorder) && Waiting(s, c, k) && !Doomed(s, c, k) && (s.reorder.Parked? || s.reorder.OperandLow?)
    ensures Watched(s.reorder, j) && Len(s.ch.Ingress(j)) > 0
  {
    assert Len(s.ch.Ingress(c)) > 0;
    j :| Watched(s.reorder, j) && Len(s.ch.Ingress(j)) > 0;
  }

  lemma OperandsNearer(q: nat, s: State, c: Class, k: nat) returns (l: Label)
    requires HandOk(s.reorder) && Waiting(s, c, k) && !Doomed(s, c, k)
    requires s.reorder.Top? || s.reorder.OperandHigh?
    ensures Helps(l) && Nearer(s, Step(q, s, l), c, k)
  {
    l := if s.reorder.Top? then REnter else ROperandHigh;
    var t := Step(q, s, l);
    assert Len(s.ch.Ingress(c)) > 0;
    NotBlind(t, c);
    MoveNearer(s, t, c, k);
  }

  lemma OperandLowNearer(q: nat, s: State, c: Class, k: nat)
    requires HandOk(s.reorder) && Waiting(s, c, k) && !Doomed(s, c, k) && s.reorder.OperandLow?
    ensures Nearer(s, Step(q, s, ROperandLow), c, k)
  {
    var t := Step(q, s, ROperandLow);
    var j := WatchedWaits(s, c, k);
    NotBlind(t, j);
    MoveNearer(s, t, c, k);
  }

  lemma TakeNearer(s: State, j: Class, c: Class, k: nat)
    requires HandOk(s.reorder) && Waiting(s, c, k) && s.reorder.Parked? && Watched(s.reorder, j)
             && Len(s.ch.Ingress(j)) > 0
    ensures HandOk(Take(s, j).reorder) ==> Nearer(s, Take(s, j), c, k)
  {
    var t := Take(s, j);
    PopLeaves(s.ch, s.log, j, c);
    assert t.reorder.CountLow? && t.log.sent == s.log.sent && t.log.put == s.log.put;
    assert !Blind(t);
  }

  lemma ParkedNearer(q: nat, s: State, c: Class, k: nat) returns (l: Label)
    requires HandOk(s.reorder) && Waiting(s, c, k) && !Doomed(s, c, k) && s.reorder.Parked?
    ensures Helps(l) && (HandOk(Step(q, s, l).reorder) ==> Nearer(s, Step(q, s, l), c, k))
  {
    var j := WatchedWaits(s, c, k);
    l := RTake(j);
    assert Step(q, s, l) == Take(s, j);
    TakeNearer(s, j, c, k);
  }

  lemma CountsNearer(q: nat, s: State, c: Class, k: nat) returns (l: Label)
    requires HandOk(s.reorder) && Waiting(s, c, k) && !Doomed(s, c, k) && Counting(s.reorder)
    ensures Helps(l) && (HandOk(Step(q, s, l).reorder) ==> Nearer(s, Step(q, s, l), c, k))
  {
    l := if s.reorder.CountLow? then RCountLow else if s.reorder.CountNormal? then RCountNormal else RCountHigh;
    var t := Step(q, s, l);
    assert t == CountStep(s, l);
    if HandOk(t.reorder) {
      CountedNearer(s, t, c, k);
    }
  }

  /** The next length is read. */
  predicate NextCount(s: State, r: Reorder) {
    match s.reorder
    case CountLow(got) => r == CountNormal(got, Len(s.ch.low))
    case CountNormal(got, lenLow) => r == CountHigh(got, lenLow, Len(s.ch.normal))
    case CountHigh(got, lenLow, lenNormal) => r == RoundFrom(got, Len(s.ch.high), lenNormal, lenLow)
    case _ => false
  }

  lemma CountedNearer(s: State, t: State, c: Class, k: nat)
    requires HandOk(s.reorder) && HandOk(t.reorder) && OnlyReorder(s, t) && NextCount(s, t.reorder)
    requires Waiting(s, c, k) && !Doomed(s, c, k)
    ensures Nearer(s, t, c, k)
  {
    CoveredStays(s, t.reorder, c, k);
    assert !Blind(t);
    MoveNearer(s, t, c, k);
  }

  lemma CoveredStays(s: State, r: Reorder, c: Class, k: nat)
    requires HandOk(s.reorder) && HandOk(r) && NextCount(s, r) && Waiting(s, c, k)
    ensures Covered(s.reorder, c, Left(s.ch, s.log, c), k) ==> Covered(r, c, Left(s.ch, s.log, c), k)
    ensures c == High && r.Draining? ==> Reached(r, c, Left(s.ch, s.log, c), k)
  {
  }

  predicate Sends(d: Drain) {
    d.FirstDue() || d.hand.Some?
  }

  lemma SendsNearer(q: nat, s: State, d: Drain, c: Class, k: nat) returns (l: Label)
    requires HandOk(s.reorder) && Waiting(s, c, k) && !Doomed(s, c, k) && s.reorder == Draining(d) && Sends(d)
             && HasRoom(s.ch.egress, q)
    ensures Helps(l) && |Step(q, s, l).log.sent| > |s.log.sent|
    ensures HandOk(Step(q, s, l).reorder) ==> Nearer(s, Step(q, s, l), c, k)
  {
    l := if d.FirstDue() then RSendFirst else RSendHand;
    var t := Step(q, s, l);
    assert t == if d.FirstDue() then SendFirst(q, s, d) else SendHand(q, s, d);
    assert Left(t.ch, t.log, c) == Left(s.ch, s.log, c);
  }

  /** A loop that would wait for a message that is not there is a starved one. */
  lemma NotStarving(q: nat, s: State, d: Drain, c: Class, k: nat)
    requires Fit(q, s) && Waiting(s, c, k) && !Doomed(s, c, k) && s.reorder == Draining(d) && !Sends(d) && d.Rem() > 0
    ensures Len(s.ch.Ingress(d.phase)) > 0
  {
  }

  lemma ReceivesNearer(q: nat, s: State, d: Drain, c: Class, k: nat)
    requires Fit(q, s) && Waiting(s, c, k) && !Doomed(s, c, k) && s.reorder == Draining(d) && !Sends(d) && d.Rem() > 0
    ensures HandOk(Step(q, s, RReceive).reorder) ==> Nearer(s, Step(q, s, RReceive), c, k)
  {
    NotStarving(q, s, d, c, k);
    var t, m := Step(q, s, RReceive), s.ch.Ingress(d.phase).q[0];
    assert t == Receive(s, d);
    PopLeaves(s.ch, s.log, d.phase, c);
    if HandOk(t.reorder) {
      ReceivedOwes(d, m, c);
    }
  }

  lemma ReceivedOwes(d: Drain, m: Msg, c: Class)
    requires DrainOk(d) && d.hand.None? && DrainOk(d.(hand := Some(m)))
    ensures Owed(d.(hand := Some(m)), c) == Owed(d, c) - if c == d.phase then 1 else 0
  {
  }

  lemma PhaseNearer(q: nat, s: State, d: Drain, c: Class, k: nat)
    requires HandOk(s.reorder) && Waiting(s, c, k) && !Doomed(s, c, k) && s.reorder == Draining(d) && !Sends(d)
             && d.Rem() == 0
    ensures HandOk(Step(q, s, RNext).reorder) ==> Nearer(s, Step(q, s, RNext), c, k)
  {
    var t := Step(q, s, RNext);
    assert t == NextPhase(s, d);
    if HandOk(t.reorder) {
      assert !Blind(t);
      MoveNearer(s, t, c, k);
    }
  }

  /** Whoever holds the lock makes egress, then starts reorder. */
  lemma StartsNearer(q: nat, s: State, c: Class, k: nat) returns (l: Label)
    requires Setup(q, s) && Starting(s) && Waiting(s, c, k)
    requires s.reorder.NotStarted? && (c != Normal || s.ch.egress.Made?)
    ensures Helps(l) && Nearer(s, Step(q, s, l), c, k)
  {
    var p := s.lock.value;
    assert ProducerOk(s.ch, s.reorder, s.lock, p, s.producers[p]);
    l := if s.producers[p].MakeEgress? then PMakeEgress(p) else PSpawn(p);
  }

  /** The next label, where reorder is not about to send. */
  lemma NextLabel(q: nat, s: State, c: Class, k: nat) returns (l: Label)
    requires Good(q, s) && Waiting(s, c, k) && !Doomed(s, c, k)
    requires s.reorder.NotStarted? ==> c != Normal || s.ch.egress.Made?
    requires s.reorder.Draining? ==> !Sends(s.reorder.d)
    ensures Helps(l) && (HandOk(Step(q, s, l).reorder) ==> Nearer(s, Step(q, s, l), c, k))
  {
    GoodIsFit(q, s);
    match s.reorder
    case NotStarted => l := StartsNearer(q, s, c, k);
    case Top => l := OperandsNearer(q, s, c, k);
    case OperandHigh(_) => l := OperandsNearer(q, s, c, k);
    case OperandLow(_, _) =>
      l := ROperandLow;
      OperandLowNearer(q, s, c, k);
    case Parked(_, _, _) => l := ParkedNearer(q, s, c, k);
    case CountLow(_) => l := CountsNearer(q, s, c, k);
    case CountNormal(_, _) => l := CountsNearer(q, s, c, k);
    case CountHigh(_, _, _) => l := CountsNearer(q, s, c, k);
    case Draining(d) =>
      if d.Rem() > 0 {
        l := RReceive;
        ReceivesNearer(q, s, d, c, k);
      } else {
        l := RNext;
        PhaseNearer(q, s, d, c, k);
      }
  }

  /** What each advance lowers: messages in front, sends ahead, reorder's own steps. */
  ghost predicate Lower(q: nat, s: State, t: State, c: Class, k: nat)
    requires HandOk(s.reorder) && HandOk(t.reorder)
  {
    var left, left' := Left(s.ch, s.log, c), Left(t.ch, t.log, c);
    var ahead, ahead' := SendsAhead(q, s.reorder, c, left, k), SendsAhead(q, t.reorder, c, left', k);
    left' > left || (left' == left && (ahead' < ahead || (ahead' == ahead && Stage(t, c, k) < Stage(s, c, k))))
  }

  ghost predicate Advanced(q: nat, s: State, t: State, c: Class, k: nat)
    requires HandOk(s.reorder)
  {
    Left(t.ch, t.log, c) > k || (HandOk(t.reorder) && Waiting(t, c, k) && !Doomed(t, c, k) && Lower(q, s, t, c, k))
  }

  lemma NearerIsLower(q: nat, s: State, t: State, c: Class, k: nat)
    requires HandOk(s.reorder) && HandOk(t.reorder) && Waiting(s, c, k) && TallyKept(q, s, t, c, k)
             && Nearer(s, t, c, k)
    ensures Advanced(q, s, t, c, k)
  {
  }

  /** Room in egress changes nothing for a message that waits behind a drain. */
  lemma SteadyWaits(s: State, t: State, c: Class, k: nat)
    requires HandOk(s.reorder) && Steady(s, t) && s.reorder.Draining? && Waiting(s, c, k) && !Doomed(s, c, k)
    ensures Waiting(t, c, k) && !Doomed(t, c, k) && Left(t.ch, t.log, c) == Left(s.ch, s.log, c)
  {
    assert Len(t.ch.Ingress(c)) == Len(s.ch.Ingress(c));
  }

  lemma SendNearer(s: State, t: State, u: State, c: Class, k: nat)
    requires HandOk(s.reorder) && Steady(s, t) && s.reorder.Draining? && HandOk(u.reorder)
    requires Nearer(t, u, c, k) && |u.log.sent| > |t.log.sent|
    ensures Nearer(s, u, c, k)
  {
  }

  lemma AdvanceSend(q: nat, s: State, d: Drain, c: Class, k: nat) returns (ls: seq<Label>)
    requires q >= 1 && Setup(q, s) && Fit(q, s) && Waiting(s, c, k) && !Doomed(s, c, k)
    requires s.reorder == Draining(d) && Sends(d)
    ensures AllHelp(ls) && (HandOk(Run(q, s, ls).reorder) ==> Nearer(s, Run(q, s, ls), c, k))
  {
    var room, t := MakeRoom(q, s);
    SteadyWaits(s, t, c, k);
    var l := SendsNearer(q, t, d, c, k);
    ls := RunOn(q, s, room, l);
    var u := Run(q, s, ls);
    if HandOk(u.reorder) {
      SendNearer(s, t, u, c, k);
    }
  }

  /** Some actions without a put bring the message nearer. */
  lemma Approach(q: nat, s: State, c: Class, k: nat) returns (ls: seq<Label>)
    requires q >= 1 && Good(q, s) && Waiting(s, c, k) && !Doomed(s, c, k)
    ensures AllHelp(ls) && (HandOk(Run(q, s, ls).reorder) ==> Nearer(s, Run(q, s, ls), c, k))
  {
    GoodIsFit(q, s);
    if s.reorder.NotStarted? && c == Normal && s.ch.egress.Nil? {
      ls := TakenDirectly(q, s);
    } else if s.reorder.Draining? && Sends(s.reorder.d) {
      ls := AdvanceSend(q, s, s.reorder.d, c, k);
    } else {
      var l := NextLabel(q, s, c, k);
      ls := RunOn(q, s, [], l);
    }
  }

  lemma Advance(q: nat, s: State, c: Class, k: nat) returns (ls: seq<Label>, t: State)
    requires q >= 1 && Good(q, s) && Waiting(s, c, k) && !Doomed(s, c, k)
    ensures AllHelp(ls) && t == Run(q, s, ls) && Good(q, t) && Advanced(q, s, t, c, k)
  {
    ls := Approach(q, s, c, k);
    t := Run(q, s, ls);
    GoodRun(q, s, ls);
    RunTally(q, s, ls, c, k);
    NearerIsLower(q, s, t, c, k);
  }

  lemma {:induction false} RunJoin(q: nat, s: State, xs: seq<Label>, ys: seq<Label>)
    ensures Run(q, s, xs + ys) == Run(q, Run(q, s, xs), ys)
    decreases |ys|
  {
    if ys == [] {
      assert xs + ys == xs;
    } else {
      RunJoin(q, s, xs, ys[..|ys| - 1]);
      assert (xs + ys)[..|xs + ys| - 1] == xs + ys[..|ys| - 1];
    }
  }

  /** The measures by name. */
  ghost predicate Measured(q: nat, s: State, c: Class, k: nat, front: nat, ahead: nat, stage: nat)
    requires HandOk(s.reorder)
  {
    && Left(s.ch, s.log, c) == k - front && stage == Stage(s, c, k)
    && ahead == SendsAhead(q, s.reorder, c, k - front, k)
  }

  lemma Measure(q: nat, s: State, c: Class, k: nat) returns (front: nat, ahead: nat, stage: nat)
    requires HandOk(s.reorder) && Waiting(s, c, k)
    ensures Measured(q, s, c, k, front, ahead, stage)
  {
    front, stage := k - Left(s.ch, s.log, c), Stage(s, c, k);
    ahead := SendsAhead(q, s.reorder, c, k - front, k);
  }

  lemma MeasureLower(q: nat, s: State, t: State, c: Class, k: nat, front: nat, ahead: nat, stage: nat)
    returns (front': nat, ahead': nat, stage': nat)
    requires HandOk(s.reorder) && HandOk(t.reorder) && Waiting(t, c, k)
    requires Measured(q, s, c, k, front, ahead, stage) && Lower(q, s, t, c, k)
    ensures Measured(q, t, c, k, front', ahead', stage')
    ensures front' < front || (front' == front && (ahead' < ahead || (ahead' == ahead && stage' < stage)))
  {
    front', ahead', stage' := Measure(q, t, c, k);
  }

  /** Advance until it is out. */
  lemma {:induction false} Leaves(q: nat, s: State, c: Class, k: nat, front: nat, ahead: nat, stage: nat)
    returns (ls: seq<Label>)
    requires q >= 1 && Good(q, s) && Waiting(s, c, k) && !Doomed(s, c, k) && Measured(q, s, c, k, front, ahead, stage)
    ensures NoPuts(ls) && HasLeft(q, s, ls, c, k)
    decreases front, ahead, stage
  {
    var first, t := Advance(q, s, c, k);
    if Left(t.ch, t.log, c) > k {
      ls := first;
    } else {
      var f, a, g := MeasureLower(q, s, t, c, k, front, ahead, stage);
      var rest := Leaves(q, t, c, k, f, a, g);
      RunJoin(q, s, first, rest);
      ls := first + rest;
    }
  }

  /** In every run with done open, a message that waits in its ingress queue can leave it
      without a further one being put exactly when it is not doomed: reorder is not blind,
      and no starved drain stands between. */
  lemma LeavesIff(q: nat, ls: seq<Label>, c: Class, k: nat)
    requires q >= 1 && Waiting(Run(q, Init(), ls), c, k) && !Run(q, Init(), ls).doneClosed
    ensures var s := Run(q, Init(), ls); HandOk(s.reorder) && (CanLeave(q, s, c, k) <==> !Doomed(s, c, k))
  {
    AlwaysStarting(q, ls);
    var s := Run(q, Init(), ls);
    if Doomed(s, c, k) {
      DoomedIsNever(s, c, k);
      forall more: seq<Label> | NoPuts(more) ensures !HasLeft(q, s, more, c, k) {
        NeverRun(q, s, more, c, k);
      }
    } else {
      var front, ahead, stage := Measure(q, s, c, k);
      var more := Leaves(q, s, c, k, front, ahead, stage);
      assert HasLeft(q, s, more, c, k);
    }
  }

  // ----- The stuck runs -----

  lemma FirstWaits(q: nat, ls: seq<Label>, c: Class) returns (k: nat)
    requires Len(Run(q, Init(), ls).ch.Ingress(c)) > 0
    ensures Waiting(Run(q, Init(), ls), c, k) && HandOk(Run(q, Init(), ls).reorder)
  {
    AlwaysStarting(q, ls);
    var s := Run(q, Init(), ls);
    assert OrderOf(High, s.ch, s.reorder, s.log) && OrderOfNormal(s.ch, s.reorder, s.log)
           && OrderOf(Low, s.ch, s.reorder, s.log);
    k := Left(s.ch, s.log, c);
  }

  /** A first low message behind a first high one waits for another message. */
  lemma LowMessageStuck(q: nat, h: Msg, low: Msg) returns (ls: seq<Label>, k: nat)
    requires q >= 1 && ClassOf(h) == High && ClassOf(low) == Low
    ensures var s := Run(q, Init(), ls); !s.doneClosed && Waiting(s, Low, k) && !CanLeave(q, s, Low, k)
  {
    ls := LowMessageLeftBehind(q, h, low);
    k := FirstWaits(q, ls, Low);
    LeavesIff(q, ls, Low, k);
  }

  /** So does a first high message behind a first low one. */
  lemma HighMessageStuck(q: nat, low: Msg, h: Msg) returns (ls: seq<Label>, k: nat)
    requires q >= 1 && ClassOf(h) == High && ClassOf(low) == Low
    ensures var s := Run(q, Init(), ls); !s.doneClosed && Waiting(s, High, k) && !CanLeave(q, s, High, k)
  {
    ls := HighMessageLeftBehind(q, low, h);
    k := FirstWaits(q, ls, High);
    LeavesIff(q, ls, High, k);
  }

  /** And a low message behind a starved drain, although reorder is not blind. */
  lemma StarvedMessageStuck(q: nat, h: Msg, n: Msg, low: Msg) returns (ls: seq<Label>, k: nat)
    requires q >= 1 && ClassOf(h) == High && ClassOf(n) == Normal && ClassOf(low) == Low
    ensures var s := Run(q, Init(), ls);
            !s.doneClosed && !Blind(s) && Waiting(s, Low, k) && !CanLeave(q, s, Low, k)
  {
    ls := LowMessageBehindStarvedDrain(q, h, n, low);
    k := FirstWaits(q, ls, Low);
    LeavesIff(q, ls, Low, k);
  }
}
