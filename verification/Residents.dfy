/** When the auto scaler keeps the resident workers: the exact condition, look by look,
  and a run in which it does not. */
module Residents {
  import opened Collections
  import opened WorkerPool
  import opened Scaler

  // ----- Who is idle, and who is unremoved -----

  function LiveIn(ws: seq<Worker>): nat {
    if ws == [] then 0 else LiveIn(ws[..|ws| - 1]) + One(ws[|ws| - 1].live)
  }

  /** Told to leave, and still counted idle. */
  function LeaversIn(ws: seq<Worker>): nat {
    if ws == [] then 0 else LeaversIn(ws[..|ws| - 1]) + One(!ws[|ws| - 1].live && InIdle(ws[|ws| - 1]))
  }

  /** Unremoved, and not counted idle. */
  function BusyIn(ws: seq<Worker>): nat {
    if ws == [] then 0 else BusyIn(ws[..|ws| - 1]) + One(ws[|ws| - 1].live && !InIdle(ws[|ws| - 1]))
  }

  lemma {:induction false} IdleOrBusy(ws: seq<Worker>)
    ensures IdleIn(ws) + BusyIn(ws) == LiveIn(ws) + LeaversIn(ws)
  {
    if ws != [] {
      IdleOrBusy(ws[..|ws| - 1]);
    }
  }

  function LiveIds(ws: seq<Worker>): set<nat> {
    set id | 0 <= id < |ws| && ws[id].live
  }

  lemma {:induction false} LiveIdsCount(ws: seq<Worker>)
    ensures |LiveIds(ws)| == LiveIn(ws)
  {
    if ws != [] {
      var n := |ws| - 1;
      LiveIdsCount(ws[..n]);
      assert n !in LiveIds(ws[..n]);
      assert LiveIds(ws) == LiveIds(ws[..n]) + if ws[n].live then {n} else {};
    }
  }

  lemma LiveIsLiveIn(s: State)
    requires Inv(s)
    ensures Live(s) == LiveIn(s.ws)
  {
    SlotIdsCount(s.slots, s.ws);
    LiveIdsCount(s.ws);
    forall id | id in LiveIds(s.ws)
      ensures id in SlotIds(s.slots, s.ws)
    {
      assert s.ws[id].live && id in s.slots;
      var i :| 0 <= i < |s.slots| && s.slots[i] == id;
      assert SlotLive(s.slots, s.ws, i);
    }
    assert SlotIds(s.slots, s.ws) == LiveIds(s.ws);
  }

  // ----- A look -----

  /** At this look the leavers that are still counted idle do not outnumber the working
      residents and what the queue asks for, or there are more workers than residents. */
  predicate SafeLook(qWeight: nat, resident: nat, s: Scaled, queueLen: nat)
    requires qWeight > 0
  {
    s.pc.Look? && Live(s.pool) == resident ==> LeaversIn(s.pool.ws) <= queueLen / qWeight + BusyIn(s.pool.ws)
  }

  /** The resident workers are there, also after the removal that has been decided. */
  predicate StaysAbove(qWeight: nat, resident: nat, s: Scaled)
    requires qWeight > 0
  {
    Live(s.pool) >= resident && Live(Tick(qWeight, resident, s, SPool(RmBegin)).pool) >= resident
  }

  ghost predicate Kept(resident: nat, s: Scaled) {
    && Inv(s.pool)
    && Live(s.pool) >= resident
    && (s.pc.WillRemove? ==> Live(s.pool) > resident)
    && (s.pc.Look? || s.pc.WillRemove? ==> s.pool.lock.Free?)
  }

  lemma KeptStaysAbove(qWeight: nat, resident: nat, s: Scaled)
    requires qWeight > 0 && Kept(resident, s)
    ensures StaysAbove(qWeight, resident, s)
  {
    if s.pc.WillRemove? {
      RemovingTakesOne(s.pool);
    }
  }

  /** A look decides to remove one of the last residents exactly when it is not safe. */
  lemma LookKeepsIff(qWeight: nat, resident: nat, s: Scaled, queueLen: nat)
    requires qWeight > 0 && Kept(resident, s)
    ensures Kept(resident, Tick(qWeight, resident, s, SLook(queueLen))) <==> SafeLook(qWeight, resident, s, queueLen)
  {
    LiveIsLiveIn(s.pool);
    IdleOrBusy(s.pool.ws);
  }

  lemma UnsafeLookCosts(qWeight: nat, resident: nat, s: Scaled, queueLen: nat)
    requires qWeight > 0 && resident > 0 && Kept(resident, s) && !SafeLook(qWeight, resident, s, queueLen)
    ensures !StaysAbove(qWeight, resident, Tick(qWeight, resident, s, SLook(queueLen)))
  {
    LiveIsLiveIn(s.pool);
    IdleOrBusy(s.pool.ws);
    RemovingTakesOne(s.pool);
  }

  // ----- Everything else keeps them -----

  lemma OutOfTurn(s: State, l: Label)
    requires Inv(s) && !s.lock.Adding? && (s.lock.Free? ==> !l.AddBegin?)
    requires l.AddBegin? || l.AddCount? || l.AddIdle? || l.AddSpawn?
    ensures Step(s, l) == s
  {
    Unchanged(s);
  }

  lemma AddingLosesNone(s: State, l: Label)
    requires Inv(s) && (l.AddBegin? || l.AddCount? || l.AddIdle? || l.AddSpawn?)
    ensures Live(Step(s, l)) >= Live(s)
  {
    if s.lock.Adding? {
      AddingKeepsLive(s, l);
    } else if s.lock.Free? && l.AddBegin? {
      PlacingAdds(s);
    } else {
      OutOfTurn(s, l);
    }
  }

  lemma AddKeeps(qWeight: nat, resident: nat, s: Scaled, l: Label)
    requires qWeight > 0 && Kept(resident, s) && s.pc.WillAdd?
    requires l.AddBegin? || l.AddCount? || l.AddIdle? || l.AddSpawn?
    ensures Kept(resident, Tick(qWeight, resident, s, SPool(l)))
  {
    LocksKeep(s.pool, l);
    AddingLosesNone(s.pool, l);
  }

  lemma CallsKeep(qWeight: nat, resident: nat, s: Scaled, l: Label)
    requires qWeight > 0 && Kept(resident, s)
    ensures Kept(resident, Tick(qWeight, resident, s, SPool(l)))
  {
    if s.pc.WillAdd? && (l.AddBegin? || l.AddCount? || l.AddIdle? || l.AddSpawn?) {
      AddKeeps(qWeight, resident, s, l);
    } else if s.pc.WillRemove? && l.RmBegin? {
      LocksKeep(s.pool, RmBegin);
      RemovingTakesOne(s.pool);
    } else if s.pc.Asleep? && l.RmClose? {
      LocksKeep(s.pool, RmClose);
      ClosingKeepsLive(s.pool);
    }
  }

  lemma TickKeeps(qWeight: nat, resident: nat, s: Scaled, a: Act)
    requires qWeight > 0 && Kept(resident, s) && (a.SLook? ==> SafeLook(qWeight, resident, s, a.queueLen))
    ensures Kept(resident, Tick(qWeight, resident, s, a))
  {
    match a
    case SLook(queueLen) => LookKeepsIff(qWeight, resident, s, queueLen);
    case SPool(l) => CallsKeep(qWeight, resident, s, l);
    case SWake =>
    case Others(l) =>
      if IsWorkerLabel(l) {
        WorkersKeepLive(s.pool, l);
        WorkersKeep(s.pool, l);
      }
  }

  // ----- The guarantee -----

  ghost predicate SafeAt(qWeight: nat, resident: nat, s: Scaled, acts: seq<Act>, k: nat)
    requires qWeight > 0 && k < |acts|
  {
    acts[k].SLook? ==> SafeLook(qWeight, resident, Ticks(qWeight, resident, s, acts[..k]), acts[k].queueLen)
  }

  ghost predicate AboveAt(qWeight: nat, resident: nat, s: Scaled, acts: seq<Act>, k: nat)
    requires qWeight > 0 && k <= |acts|
  {
    StaysAbove(qWeight, resident, Ticks(qWeight, resident, s, acts[..k]))
  }

  lemma TicksUpTo(qWeight: nat, resident: nat, s: Scaled, acts: seq<Act>, k: nat)
    requires qWeight > 0 && k < |acts|
    ensures Ticks(qWeight, resident, s, acts[..k + 1])
            == Tick(qWeight, resident, Ticks(qWeight, resident, s, acts[..k]), acts[k])
  {
    assert acts[..k + 1][..k] == acts[..k];
  }

  lemma {:induction false} KeptUpTo(qWeight: nat, resident: nat, s: Scaled, acts: seq<Act>, n: nat)
    requires qWeight > 0 && Kept(resident, s) && n <= |acts|
    requires forall k :: 0 <= k < n ==> SafeAt(qWeight, resident, s, acts, k)
    ensures Kept(resident, Ticks(qWeight, resident, s, acts[..n]))
  {
    if n > 0 {
      KeptUpTo(qWeight, resident, s, acts, n - 1);
      assert SafeAt(qWeight, resident, s, acts, n - 1);
      TicksUpTo(qWeight, resident, s, acts, n - 1);
      TickKeeps(qWeight, resident, Ticks(qWeight, resident, s, acts[..n - 1]), acts[n - 1]);
    }
  }

  lemma {:induction false} FirstUnsafe(qWeight: nat, resident: nat, s: Scaled, acts: seq<Act>, n: nat) returns (k: nat)
    requires qWeight > 0 && n < |acts| && !SafeAt(qWeight, resident, s, acts, n)
    ensures k < |acts| && !SafeAt(qWeight, resident, s, acts, k)
    ensures forall j :: 0 <= j < k ==> SafeAt(qWeight, resident, s, acts, j)
  {
    if j :| 0 <= j < n && !SafeAt(qWeight, resident, s, acts, j) {
      k := FirstUnsafe(qWeight, resident, s, acts, j);
    } else {
      k := n;
    }
  }

  /** In every run from a kept state, the resident workers stay, at every moment and also
      after the removals decided by then, exactly when every look is a safe one. */
  lemma ResidentsStayIff(qWeight: nat, resident: nat, s: Scaled, acts: seq<Act>)
    requires qWeight > 0 && resident > 0 && Kept(resident, s)
    ensures (forall k :: 0 <= k <= |acts| ==> AboveAt(qWeight, resident, s, acts, k))
       <==> (forall k :: 0 <= k < |acts| ==> SafeAt(qWeight, resident, s, acts, k))
  {
    if n :| 0 <= n < |acts| && !SafeAt(qWeight, resident, s, acts, n) {
      var k := FirstUnsafe(qWeight, resident, s, acts, n);
      KeptUpTo(qWeight, resident, s, acts, k);
      TicksUpTo(qWeight, resident, s, acts, k);
      UnsafeLookCosts(qWeight, resident, Ticks(qWeight, resident, s, acts[..k]), acts[k].queueLen);
      assert !AboveAt(qWeight, resident, s, acts, k + 1);
    } else {
      forall k | 0 <= k <= |acts| ensures AboveAt(qWeight, resident, s, acts, k) {
        KeptUpTo(qWeight, resident, s, acts, k);
        KeptStaysAbove(qWeight, resident, Ticks(qWeight, resident, s, acts[..k]));
      }
    }
  }

  // ----- Where the scaler starts -----

  function Ids(n: nat): (r: seq<nat>)
    ensures |r| == n && forall i :: 0 <= i < n ==> r[i] == i
  {
    seq(n, i requires 0 <= i < n => i)
  }

  function News(n: nat): (r: seq<Worker>)
    ensures |r| == n && forall i :: 0 <= i < n ==> r[i] == Worker(true, 0, false, New)
  {
    seq(n, i requires 0 <= i < n => Worker(true, 0, false, New))
  }

  /** The pool that newMsgQ makes. */
  function Created(resident: nat): State {
    State(Ids(resident), News(resident), Free, resident, resident, resident)
  }

  lemma {:induction false} NewsCount(n: nat)
    ensures CountIn(News(n)) == n && IdleIn(News(n)) == n
  {
    if n > 0 {
      NewsCount(n - 1);
      assert News(n)[..n - 1] == News(n - 1);
    }
  }

  lemma CreatedInv(n: nat)
    ensures Inv(Created(n))
  {
    NewsCount(n);
    forall id | 0 <= id < n ensures id in Ids(n) {
      assert Ids(n)[id] == id;
    }
  }

  lemma AllLive(n: nat)
    ensures forall i :: 0 <= i < n ==> SlotLive(Ids(n), News(n), i)
    ensures Live(Created(n)) == n && FirstFree(Ids(n), News(n)) == n
    ensures PlaceIn(Ids(n), News(n), n) == Ids(n + 1)
  {
    UnremovedAtMost(Ids(n), News(n));
  }

  lemma CreatedPlaced(ls: seq<Label>, n: nat) returns (more: seq<Label>)
    requires Run(Init(), ls) == Created(n)
    ensures more == ls + [AddBegin] && Run(Init(), more) == Mid(Ids(n + 1), News(n), Placed, n, n)
  {
    CreatedInv(n);
    AllLive(n);
    MidFirst(Created(n), Ids(n + 1));
    more := RunOn(Init(), ls, Created(n), AddBegin, Mid(Ids(n + 1), News(n), Placed, n, n));
  }

  lemma CreatedMore(n: nat)
    ensures Mid(Ids(n + 1), News(n), New, n + 1, n + 1) == Created(n + 1)
  {
    assert News(n) + [Worker(true, 0, false, New)] == News(n + 1);
  }

  lemma {:induction false} CreatedRun(n: nat) returns (ls: seq<Label>)
    ensures Run(Init(), ls) == Created(n)
  {
    if n == 0 {
      ls := [];
      assert Ids(0) == [] && News(0) == [];
    } else {
      var init := CreatedRun(n - 1);
      var placed := CreatedPlaced(init, n - 1);
      ls := MidIsAdded(Init(), placed, Ids(n), News(n - 1), n - 1, n - 1);
      CreatedMore(n - 1);
    }
  }

  /** What newMsgQ makes is a run of the pool, and the scaler starts in a kept state. */
  lemma CreatedIsKept(resident: nat)
    ensures Kept(resident, Scaled(Created(resident), Look)) && Live(Created(resident)) == resident
    ensures exists ls: seq<Label> :: Run(Init(), ls) == Created(resident)
  {
    var ls := CreatedRun(resident);
    CreatedInv(resident);
    AllLive(resident);
  }

  // ----- A run that costs the resident worker -----

  /** The queue is filled for one look, so a second worker comes; it is empty for the next
      two, and the first worker told to leave does not get to it between them. */
  function SlowLeaver(qWeight: nat): seq<Act> {
    [Others(Start(0)), SLook(qWeight)] + AddingRound(1)
    + [SLook(0), SPool(RmBegin), SPool(RmClose), SWake] + [SLook(0), SPool(RmBegin)]
  }

  function Resident(): State {
    State([0], [Worker(true, 0, true, Idle)], Free, 1, 1, 1)
  }

  function TwoIdle(): State {
    State([0, 1], [Worker(true, 0, true, Idle), Worker(true, 0, true, Idle)], Free, 2, 2, 2)
  }

  lemma FirstStarted()
    ensures Step(Created(1), Start(0)) == Resident() && Settled(Resident())
  {
    assert Created(1) == State([0], [Worker(true, 0, false, New)], Free, 1, 1, 1);
    FirstStarts(Created(1));
    ResidentSettled();
  }

  lemma FirstStarts(s: State)
    requires s == State([0], [Worker(true, 0, false, New)], Free, 1, 1, 1)
    ensures Step(s, Start(0)) == Resident()
  {
    assert WorkerStep(s, Start(0)).ws == [Worker(true, 0, true, Idle)];
    UnremovedAtMost(s.slots, Resident().ws);
  }

  lemma ResidentSettled()
    ensures Settled(Resident())
  {
    var ws := [Worker(true, 0, true, Idle)];
    assert CountIn(ws) == 1 && IdleIn(ws) == 1;
  }

  lemma SecondJoins()
    ensures Joined(Resident()) == TwoIdle()
  {
    var s := Resident();
    assert SlotLive(s.slots, s.ws, 0) && FirstFree(s.slots, s.ws) == 1;
    assert Joined(s).slots == [0] + [1] == [0, 1];
  }

  lemma QueueOfOne(qWeight: nat)
    requires qWeight > 0
    ensures Should(qWeight, qWeight, 1) == 2 && Should(0, qWeight, 1) == 1
  {
  }

  lemma TwoIdleReached(qWeight: nat, from: Scaled) returns (acts: seq<Act>)
    requires qWeight > 0 && from == Scaled(Created(1), Look)
    ensures acts == [Others(Start(0)), SLook(qWeight)] + AddingRound(1)
    ensures Ticks(qWeight, 1, from, acts) == Scaled(TwoIdle(), Look)
  {
    var s := Resident();
    FirstStarted();
    QueueOfOne(qWeight);
    var a1 := TickOn(qWeight, 1, from, [], from, Others(Start(0)), Scaled(s, Look));
    var a2 := TickOn(qWeight, 1, from, a1, Scaled(s, Look), SLook(qWeight), Scaled(s, WillAdd));
    acts := AddingRoundSettles(qWeight, 1, from, a2, s);
    SecondJoins();
  }

  lemma TwoSlots(ws: seq<Worker>)
    requires |ws| == 2
    ensures Unremoved([0, 1], ws) == One(ws[0].live) + One(ws[1].live)
  {
    var slots: seq<nat> := [0, 1];
    assert slots[..1] == [0] && slots[..1][..0] == [];
    assert SlotLive(slots, ws, 1) == ws[1].live && SlotLive([0], ws, 0) == ws[0].live;
    assert Unremoved([0], ws) == One(ws[0].live);
  }

  lemma FirstOfTwo(ws: seq<Worker>)
    requires |ws| == 2 && ws[1].live
    ensures FirstLive([0, 1], ws) == if ws[0].live then 0 else 1
  {
    assert SlotLive([0, 1], ws, 1) && SlotLive([0, 1], ws, 0) == ws[0].live;
  }

  /** Of two idle workers the first is removed but still counted, then the second. */
  function Slow(live0: bool, closed0: nat, live1: bool, lock: Lock): State {
    State([0, 1], [Worker(live0, closed0, true, Idle), Worker(live1, 0, true, Idle)], lock, 2, 2, 2)
  }

  lemma SlowSteps()
    ensures Step(TwoIdle(), RmBegin) == Slow(false, 0, true, Removing(0))
    ensures Step(Slow(false, 0, true, Removing(0)), RmClose) == Slow(false, 1, true, Free)
    ensures Step(Slow(false, 1, true, Free), RmBegin) == Slow(false, 1, false, Removing(1))
    ensures Live(Slow(false, 1, false, Removing(1))) == 0
  {
    var s0, s1, s2, s3 := TwoIdle(), Slow(false, 0, true, Removing(0)), Slow(false, 1, true, Free),
        Slow(false, 1, false, Removing(1));
    FirstOfTwo(s0.ws);
    FirstOfTwo(s2.ws);
    TwoSlots(s1.ws);
    TwoSlots(s2.ws);
    TwoSlots(s3.ws);
    assert SetNil(s0, 0).ws == s1.ws && CloseOf(s1, 0).ws == s2.ws && SetNil(s2, 1).ws == s3.ws;
  }

  lemma FirstRemoval(qWeight: nat, from: Scaled, acts: seq<Act>) returns (more: seq<Act>)
    requires qWeight > 0 && Ticks(qWeight, 1, from, acts) == Scaled(TwoIdle(), Look)
    ensures more == acts + [SLook(0), SPool(RmBegin), SPool(RmClose), SWake]
    ensures Ticks(qWeight, 1, from, more) == Scaled(Slow(false, 1, true, Free), Look)
  {
    SlowSteps();
    QueueOfOne(qWeight);
    var s0, s1, s2 := TwoIdle(), Slow(false, 0, true, Removing(0)), Slow(false, 1, true, Free);
    var a1 := TickOn(qWeight, 1, from, acts, Scaled(s0, Look), SLook(0), Scaled(s0, WillRemove));
    var a2 := TickOn(qWeight, 1, from, a1, Scaled(s0, WillRemove), SPool(RmBegin), Scaled(s1, Asleep));
    var a3 := TickOn(qWeight, 1, from, a2, Scaled(s1, Asleep), SPool(RmClose), Scaled(s2, Asleep));
    more := TickOn(qWeight, 1, from, a3, Scaled(s2, Asleep), SWake, Scaled(s2, Look));
  }

  lemma SecondRemoval(qWeight: nat, from: Scaled, acts: seq<Act>) returns (more: seq<Act>)
    requires qWeight > 0 && Ticks(qWeight, 1, from, acts) == Scaled(Slow(false, 1, true, Free), Look)
    ensures more == acts + [SLook(0), SPool(RmBegin)]
    ensures Ticks(qWeight, 1, from, more) == Scaled(Slow(false, 1, false, Removing(1)), Asleep)
  {
    SlowSteps();
    QueueOfOne(qWeight);
    var s2, s3 := Slow(false, 1, true, Free), Slow(false, 1, false, Removing(1));
    var a1 := TickOn(qWeight, 1, from, acts, Scaled(s2, Look), SLook(0), Scaled(s2, WillRemove));
    more := TickOn(qWeight, 1, from, a1, Scaled(s2, WillRemove), SPool(RmBegin), Scaled(s3, Asleep));
  }

  lemma SlowLeaverRun(qWeight: nat, from: Scaled) returns (acts: seq<Act>)
    requires qWeight > 0 && from == Scaled(Created(1), Look)
    ensures acts == SlowLeaver(qWeight)
    ensures Ticks(qWeight, 1, from, acts) == Scaled(Slow(false, 1, false, Removing(1)), Asleep)
  {
    var a1 := TwoIdleReached(qWeight, from);
    var a2 := FirstRemoval(qWeight, from, a1);
    acts := SecondRemoval(qWeight, from, a2);
  }

  /** From the pool as it is made with one resident worker: a worker slow to leave makes
      the scaler remove the last one as well. */
  lemma SlowLeaverCostsResident(qWeight: nat)
    requires qWeight > 0
    ensures Live(Created(1)) == 1
    ensures Live(Ticks(qWeight, 1, Scaled(Created(1), Look), SlowLeaver(qWeight)).pool) == 0
  {
    CreatedIsKept(1);
    SlowSteps();
    var acts := SlowLeaverRun(qWeight, Scaled(Created(1), Look));
  }
}
