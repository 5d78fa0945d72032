/** Runs that end where a message is stuck: a low message behind a first high one, a high
  message behind a first low one, and any message behind a drain whose normal message a
  worker took directly. */
module MsgQueueWitness {
  import opened Collections
  import opened MsgQueue
  import opened MsgQueueOrder
  import opened MsgQueueFlow
  import opened MsgQueueBlind

  /** What these runs follow of a state. */
  ghost predicate Looks(s: State, ch: Chans, lock: Option<nat>, producers: map<nat, Producer>, r: Reorder,
                        workers: map<nat, Worker>) {
    && s.ch == ch && s.lock == lock && s.producers == producers && s.reorder == r && s.workers == workers
    && !s.doneClosed && !s.doneNil
  }

  lemma Then(q: nat, ls: seq<Label>, l: Label) returns (more: seq<Label>)
    ensures more == ls + [l] && Run(q, Init(), more) == Step(q, Run(q, Init(), ls), l)
  {
    more := ls + [l];
    assert more[..|ls|] == ls;
  }

  lemma Begins(q: nat, ls: seq<Label>, p: nat, m: Msg, ch: Chans, lock: Option<nat>, ps: map<nat, Producer>,
               r: Reorder, ws: map<nat, Worker>)
    returns (more: seq<Label>)
    requires Looks(Run(q, Init(), ls), ch, lock, ps, r, ws) && p !in ps
    ensures Looks(Run(q, Init(), more), ch, lock,
            ps[p := if ch.Ingress(ClassOf(m)).Nil? then WantLock(m) else Sending(m)], r, ws)
  {
    more := Then(q, ls, PBegin(p, m));
  }

  /** Through the lock of initChan, reorder being started already. */
  lemma Opens(q: nat, ls: seq<Label>, p: nat, m: Msg, ch: Chans, ps: map<nat, Producer>, r: Reorder,
              ws: map<nat, Worker>)
    returns (more: seq<Label>)
    requires Looks(Run(q, Init(), ls), ch, None, ps[p := WantLock(m)], r, ws)
    requires ch.egress.Made? && ch.Ingress(ClassOf(m)).Nil? && ClassOf(m) != Normal
    ensures Looks(Run(q, Init(), more), ch.SetIngress(ClassOf(m), Made([])), None, ps[p := Sending(m)], r, ws)
  {
    var ch' := ch.SetIngress(ClassOf(m), Made([]));
    more := Then(q, ls, PLock(p));
    assert Looks(Run(q, Init(), more), ch, Some(p), ps[p := MakeIngress(m)], r, ws);
    more := Then(q, more, PMakeIngress(p));
    assert Looks(Run(q, Init(), more), ch', Some(p), ps[p := MakeEgress(m)], r, ws);
    more := Then(q, more, PMakeEgress(p));
    assert Looks(Run(q, Init(), more), ch', Some(p), ps[p := Release(m)], r, ws);
    more := Then(q, more, PRelease(p));
  }

  lemma Puts(q: nat, ls: seq<Label>, p: nat, m: Msg, ch: Chans, lock: Option<nat>, ps: map<nat, Producer>, r: Reorder,
             ws: map<nat, Worker>)
    returns (more: seq<Label>)
    requires q >= 1 && Looks(Run(q, Init(), ls), ch, lock, ps[p := Sending(m)], r, ws) && p !in ps
    requires ch.Ingress(ClassOf(m)) == Made([])
    ensures Looks(Run(q, Init(), more), ch.SetIngress(ClassOf(m), Made([m])), lock, ps, r, ws)
  {
    more := Then(q, ls, PSend(p));
    assert [] + [m] == [m] && ps[p := Sending(m)] - {p} == ps;
  }

  function One(c: Class, ch: Chan): Chans {
    Chans(Nil, Made([]), Nil, Nil).SetIngress(c, ch)
  }

  /** Channels after the first sender of class c has made what it needs. */
  function Opened(c: Class): Chans {
    One(c, Made([])).(egress := Made([]))
  }

  /** The first high or low sender makes the channels and starts reorder. */
  lemma FirstSender(q: nat, ls: seq<Label>, m: Msg, ws: map<nat, Worker>) returns (more: seq<Label>)
    requires ClassOf(m) != Normal
             && Looks(Run(q, Init(), ls), Chans(Nil, Made([]), Nil, Nil), None, map[], NotStarted, ws)
    ensures Looks(Run(q, Init(), more), Opened(ClassOf(m)), None, map[0 := Sending(m)], Top, ws)
  {
    var none: map<nat, Producer> := map[];
    more := Begins(q, ls, 0, m, Chans(Nil, Made([]), Nil, Nil), None, none, NotStarted, ws);
    assert none[0 := WantLock(m)] == map[0 := WantLock(m)];
    more := FirstOpens(q, more, m, ws);
    more := FirstStarts(q, more, m, ws);
  }

  lemma FirstOpens(q: nat, ls: seq<Label>, m: Msg, ws: map<nat, Worker>) returns (more: seq<Label>)
    requires ClassOf(m) != Normal
    requires Looks(Run(q, Init(), ls), Chans(Nil, Made([]), Nil, Nil), None, map[0 := WantLock(m)], NotStarted, ws)
    ensures Looks(Run(q, Init(), more), One(ClassOf(m), Made([])), Some(0), map[0 := MakeEgress(m)], NotStarted, ws)
  {
    more := Then(q, ls, PLock(0));
    assert Looks(Run(q, Init(), more), Chans(Nil, Made([]), Nil, Nil), Some(0), map[0 := MakeIngress(m)], NotStarted,
           ws);
    more := Then(q, more, PMakeIngress(0));
  }

  lemma FirstStarts(q: nat, ls: seq<Label>, m: Msg, ws: map<nat, Worker>) returns (more: seq<Label>)
    requires ClassOf(m) != Normal
    requires Looks(Run(q, Init(), ls), One(ClassOf(m), Made([])), Some(0), map[0 := MakeEgress(m)], NotStarted, ws)
    ensures Looks(Run(q, Init(), more), Opened(ClassOf(m)), None, map[0 := Sending(m)], Top, ws)
  {
    var c := ClassOf(m);
    more := Then(q, ls, PMakeEgress(0));
    assert Looks(Run(q, Init(), more), Opened(c), Some(0), map[0 := Spawn(m)], NotStarted, ws);
    more := Then(q, more, PSpawn(0));
    assert Looks(Run(q, Init(), more), Opened(c), Some(0), map[0 := Release(m)], Top, ws);
    more := Then(q, more, PRelease(0));
  }

  lemma ReadsHigh(q: nat, ls: seq<Label>, m: Msg, ws: map<nat, Worker>) returns (more: seq<Label>)
    requires ClassOf(m) != Normal && Looks(Run(q, Init(), ls), Opened(ClassOf(m)), None, map[0 := Sending(m)], Top, ws)
    ensures Looks(Run(q, Init(), more), Opened(ClassOf(m)), None, map[0 := Sending(m)],
            OperandLow(true, ClassOf(m) == High), ws)
  {
    more := Then(q, ls, REnter);
    assert Looks(Run(q, Init(), more), Opened(ClassOf(m)), None, map[0 := Sending(m)], OperandHigh(true), ws);
    more := Then(q, more, ROperandHigh);
  }

  /** Reorder reads its operands and parks; the other channel is not among them. */
  lemma Parks(q: nat, ls: seq<Label>, m: Msg, ws: map<nat, Worker>) returns (more: seq<Label>)
    requires ClassOf(m) != Normal && Looks(Run(q, Init(), ls), Opened(ClassOf(m)), None, map[0 := Sending(m)], Top, ws)
    ensures Looks(Run(q, Init(), more), Opened(ClassOf(m)), None, map[0 := Sending(m)],
                  Parked(true, ClassOf(m) == High, ClassOf(m) == Low), ws)
  {
    more := ReadsHigh(q, ls, m, ws);
    more := Then(q, more, ROperandLow);
  }

  predicate OtherClass(c: Class, other: Class) {
    (c == High && other == Low) || (c == Low && other == High)
  }

  /** The first sender of the other class makes its channel and puts its message. */
  lemma OtherSender(q: nat, ls: seq<Label>, m: Msg, o: Msg, r: Reorder, ws: map<nat, Worker>) returns (more: seq<Label>)
    requires q >= 1 && OtherClass(ClassOf(m), ClassOf(o)) && !r.NotStarted?
    requires Looks(Run(q, Init(), ls), Opened(ClassOf(m)), None, map[0 := Sending(m)], r, ws)
    ensures Looks(Run(q, Init(), more), Opened(ClassOf(m)).SetIngress(ClassOf(o), Made([o])), None,
            map[0 := Sending(m)], r, ws)
  {
    var ch, ps := Opened(ClassOf(m)), map[0 := Sending(m)];
    more := Begins(q, ls, 1, o, ch, None, ps, r, ws);
    more := Opens(q, more, 1, o, ch, ps, r, ws);
    more := Puts(q, more, 1, o, ch.SetIngress(ClassOf(o), Made([])), None, ps, r, ws);
  }

  lemma LeftBehind(q: nat, m: Msg, o: Msg) returns (ls: seq<Label>)
    requires q >= 1 && OtherClass(ClassOf(m), ClassOf(o))
    ensures var s := Run(q, Init(), ls);
            s.reorder == Parked(true, ClassOf(m) == High, ClassOf(m) == Low)
            && s.ch == Opened(ClassOf(m)).SetIngress(ClassOf(o), Made([o])) && !s.doneClosed
  {
    ls := FirstSender(q, [], m, map[]);
    ls := Parks(q, ls, m, map[]);
    ls := OtherSender(q, ls, m, o, Parked(true, ClassOf(m) == High, ClassOf(m) == Low), map[]);
  }

  /** A high sender started reorder, so the first low message is left behind, whatever the
      queue size. */
  lemma LowMessageLeftBehind(q: nat, h: Msg, low: Msg) returns (ls: seq<Label>)
    requires q >= 1 && ClassOf(h) == High && ClassOf(low) == Low
    ensures var s := Run(q, Init(), ls); Blind(s) && s.ch.low == Made([low]) && !s.doneClosed
  {
    ls := LeftBehind(q, h, low);
    assert Len(Run(q, Init(), ls).ch.Ingress(Low)) > 0;
  }

  /** And the other way round: a low sender started it, so the first high message is. */
  lemma HighMessageLeftBehind(q: nat, low: Msg, h: Msg) returns (ls: seq<Label>)
    requires q >= 1 && ClassOf(h) == High && ClassOf(low) == Low
    ensures var s := Run(q, Init(), ls); Blind(s) && s.ch.high == Made([h]) && !s.doneClosed
  {
    ls := LeftBehind(q, low, h);
    assert Len(Run(q, Init(), ls).ch.Ingress(High)) > 0;
  }

  // ----- A starved drain -----

  /** A worker parks on the normal queue before there is an egress queue. */
  lemma StaleWorker(q: nat) returns (ls: seq<Label>)
    ensures Looks(Run(q, Init(), ls), Chans(Nil, Made([]), Nil, Nil), None, map[], NotStarted, map[0 := OnNormal])
  {
    ls := Then(q, [], WStart(0));
    assert Looks(Run(q, Init(), ls), Chans(Nil, Made([]), Nil, Nil), None, map[], NotStarted, map[0 := Choosing]);
    ls := Then(q, ls, WChoose(0));
  }

  /** A normal and a high message are put. */
  lemma TwoPut(q: nat, ls: seq<Label>, h: Msg, n: Msg, ch: Chans, ws: map<nat, Worker>) returns (more: seq<Label>)
    requires q >= 1 && ClassOf(h) == High && ClassOf(n) == Normal && ch.high == Made([]) && ch.normal == Made([])
    requires Looks(Run(q, Init(), ls), ch, None, map[0 := Sending(h)], Parked(true, true, false), ws)
    ensures Looks(Run(q, Init(), more), ch.(high := Made([h]), normal := Made([n])), None, map[],
            Parked(true, true, false), ws)
  {
    var ps, r := map[0 := Sending(h)], Parked(true, true, false);
    more := Begins(q, ls, 1, n, ch, None, ps, r, ws);
    more := Puts(q, more, 1, n, ch, None, ps, r, ws);
    var none: map<nat, Producer> := map[];
    assert ps == none[0 := Sending(h)];
    more := Puts(q, more, 0, h, ch.(normal := Made([n])), None, none, r, ws);
  }

  lemma TakesHigh(q: nat, ls: seq<Label>, h: Msg, n: Msg, ch: Chans, ws: map<nat, Worker>) returns (more: seq<Label>)
    requires Looks(Run(q, Init(), ls), ch.(high := Made([h]), normal := Made([n])), None, map[],
             Parked(true, true, false), ws)
    ensures Looks(Run(q, Init(), more), ch.(high := Made([]), normal := Made([n])), None, map[],
            CountLow(Got(High, h)), ws)
  {
    more := Then(q, ls, RTake(High));
    assert [h][1..] == [];
  }

  /** The high one is taken and two of the lengths are read. */
  lemma Counted(q: nat, ls: seq<Label>, h: Msg, n: Msg, ch: Chans, ws: map<nat, Worker>) returns (more: seq<Label>)
    requires Looks(Run(q, Init(), ls), ch.(high := Made([h]), normal := Made([n])), None, map[],
             Parked(true, true, false), ws)
    ensures Looks(Run(q, Init(), more), ch.(high := Made([]), normal := Made([n])), None, map[],
            CountHigh(Got(High, h), Len(ch.low), 1), ws)
  {
    more := TakesHigh(q, ls, h, n, ch, ws);
    more := Then(q, more, RCountLow);
    assert Looks(Run(q, Init(), more), ch.(high := Made([]), normal := Made([n])), None, map[],
           CountNormal(Got(High, h), Len(ch.low)), ws);
    more := Then(q, more, RCountNormal);
  }

  /** The worker takes the normal message that the round was promised; a low message that
      waits behind it is stuck although its channel is known and nothing else is. */
  lemma LowMessageBehindStarvedDrain(q: nat, h: Msg, n: Msg, low: Msg) returns (ls: seq<Label>)
    requires q >= 1 && ClassOf(h) == High && ClassOf(n) == Normal && ClassOf(low) == Low
    ensures var s := Run(q, Init(), ls);
            && s.reorder == CountHigh(Got(High, h), 1, 1) && !s.doneClosed
            && s.ch == Chans(Made([]), Made([]), Made([low]), Made([]))
  {
    ls := StaleWorker(q);
    ls := FirstSender(q, ls, h, map[0 := OnNormal]);
    ls := Parks(q, ls, h, map[0 := OnNormal]);
    ls := OtherSender(q, ls, h, low, Parked(true, true, false), map[0 := OnNormal]);
    var ch := Opened(High).(low := Made([low]));
    ls := TwoPut(q, ls, h, n, ch, map[0 := OnNormal]);
    ls := Counted(q, ls, h, n, ch, map[0 := OnNormal]);
    ls := Then(q, ls, WTake(0));
    assert [n][1..] == [];
  }
}
