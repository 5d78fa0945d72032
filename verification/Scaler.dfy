/** The auto scaler of scalamsgq.go, driving the worker pool: how fast it closes a
  gap, and when it keeps the resident workers. */
module Scaler {
  import opened Collections
  import opened WorkerPool

  const SECOND := 1_000_000_000

  /** The number of idle workers the scaler aims for. */
  function Should(queueLen: nat, qWeight: nat, resident: nat): nat
    requires qWeight > 0
  {
    queueLen / qWeight + resident
  }

  function Gap(should: nat, now: nat): nat {
    if should > now then should - now else now - should
  }

  /** time.Second / time.Duration(k), in nanoseconds; k is 1 when nothing is to do. */
  function Sleep(gap: nat): nat {
    SECOND / if gap == 0 then 1 else gap
  }

  // ----- Closing a gap -----

  /** What is slept while a gap of n closes one worker at a time. */
  function Slept(n: nat): nat {
    if n == 0 then 0 else Sleep(n) + Slept(n - 1)
  }

  /** floor(log2(n)). */
  function Log2(n: nat): nat
    requires n > 0
  {
    if n == 1 then 0 else 1 + Log2(n / 2)
  }

  lemma {:induction false} Log2Bounds(n: nat)
    requires n > 0
    ensures Pow2(Log2(n)) <= n < Pow2(Log2(n) + 1)
  {
    if n > 1 {
      Log2Bounds(n / 2);
    }
  }

  lemma SleepShrinks(a: nat, b: nat)
    requires 0 < a <= b
    ensures Sleep(b) <= Sleep(a) && a * Sleep(a) <= SECOND
  {
    var n: nat, x := SECOND, SECOND / b;
    assert b * x <= n;
    MulGrows(a, b, x);
    QuotientAtLeast(n, a, x);
  }

  /** The sleeps for gaps a+1, ..., a+m are none longer than the one for a. */
  lemma {:induction false} SleptStretch(a: nat, m: nat)
    requires a > 0
    ensures Slept(a + m) <= Slept(a) + m * Sleep(a)
  {
    if m > 0 {
      SleptStretch(a, m - 1);
      SleepShrinks(a, a + m);
      assert m * Sleep(a) == (m - 1) * Sleep(a) + Sleep(a);
      assert a + m - 1 == a + (m - 1);
    }
  }

  lemma Distribute(p: nat, x: nat)
    requires p > 0
    ensures (p - 1) * x + x == p * x
  {
  }

  /** The sleeps for gaps p, ..., 2p - 1 take a second at most. */
  lemma SleptOctave(p: nat)
    requires p > 0
    ensures Slept(2 * p - 1) <= Slept(p - 1) + SECOND
  {
    var x := Sleep(p);
    SleptStretch(p, p - 1);
    SleepShrinks(p, p);
    Distribute(p, x);
    assert p + (p - 1) == 2 * p - 1;
  }

  /** Each doubling of the gap costs at most one more second. */
  lemma {:induction false} SleptDoubling(k: nat)
    ensures Pow2(k) > 0 && Slept(2 * Pow2(k) - 1) <= SECOND * (k + 1)
  {
    if k > 0 {
      SleptDoubling(k - 1);
      SleptOctave(Pow2(k));
    }
  }

  lemma {:induction false} SleptMonotone(a: nat, b: nat)
    requires a <= b
    ensures Slept(a) <= Slept(b)
  {
    if a < b {
      SleptMonotone(a, b - 1);
    }
  }

  lemma SleptBound(n: nat)
    requires n > 0
    ensures Slept(n) <= SECOND * (Log2(n) + 1)
  {
    var k := Log2(n);
    Log2Bounds(n);
    SleptMonotone(n, 2 * Pow2(k) - 1);
    SleptDoubling(k);
  }

  // ----- The scaler and the pool -----

  /** Where the scaler is: about to look, about to call the pool, or asleep. */
  datatype Pc = Look | WillAdd | WillRemove | Asleep

  datatype Scaled = Scaled(pool: State, pc: Pc)

  datatype Act = SLook(queueLen: nat) | SPool(l: Label) | SWake | Others(l: Label)

  function Decide(should: nat, now: int): Pc {
    if should > now then WillAdd else if should < now then WillRemove else Asleep
  }

  /** Only the scaler calls the pool; the workers go on by themselves. */
  function Tick(qWeight: nat, resident: nat, s: Scaled, a: Act): Scaled
    requires qWeight > 0
  {
    match a
    case SLook(queueLen) =>
      if s.pc.Look? then s.(pc := Decide(Should(queueLen, qWeight, resident), s.pool.idle)) else s
    case SPool(l) =>
      if s.pc.WillAdd? && (l.AddBegin? || l.AddCount? || l.AddIdle?) then s.(pool := Step(s.pool, l))
      else if s.pc.WillAdd? && l.AddSpawn? && s.pool.lock.Adding? then
        var pool := Step(s.pool, l);
        Scaled(pool, if pool.lock.Free? then Asleep else WillAdd)
      else if s.pc.WillRemove? && l.RmBegin? && s.pool.lock.Free? then Scaled(Step(s.pool, l), Asleep)
      else if s.pc.Asleep? && l.RmClose? then s.(pool := Step(s.pool, l))
      else s
    case SWake => if s.pc.Asleep? && s.pool.lock.Free? then s.(pc := Look) else s
    case Others(l) => if IsWorkerLabel(l) then s.(pool := Step(s.pool, l)) else s
  }

  function Ticks(qWeight: nat, resident: nat, s: Scaled, acts: seq<Act>): Scaled
    requires qWeight > 0
    decreases |acts|
  {
    if acts == [] then s
    else Tick(qWeight, resident, Ticks(qWeight, resident, s, acts[..|acts| - 1]), acts[|acts| - 1])
  }

  // ----- Idle workers and unremoved workers -----

  function SlotIds(slots: seq<nat>, ws: seq<Worker>): set<nat> {
    set i | 0 <= i < |slots| && SlotLive(slots, ws, i) :: slots[i]
  }

  lemma SlotIdsSplit(slots: seq<nat>, ws: seq<Worker>)
    requires slots != [] && NoneTwice(slots)
    ensures var n := |slots| - 1;
            && slots[n] !in SlotIds(slots[..n], ws)
            && SlotIds(slots, ws) == SlotIds(slots[..n], ws) + if SlotLive(slots, ws, n) then {slots[n]} else {}
  {
    var n := |slots| - 1;
    var init := slots[..n];
    assert forall i :: 0 <= i < n ==> init[i] == slots[i] && SlotLive(init, ws, i) == SlotLive(slots, ws, i);
    forall id | id in SlotIds(init, ws)
      ensures id in SlotIds(slots, ws)
    {
      var i :| 0 <= i < n && SlotLive(init, ws, i) && init[i] == id;
      assert SlotLive(slots, ws, i);
    }
  }

  lemma {:induction false} SlotIdsCount(slots: seq<nat>, ws: seq<Worker>)
    requires NoneTwice(slots)
    ensures |SlotIds(slots, ws)| == Unremoved(slots, ws)
  {
    if slots != [] {
      SlotIdsCount(slots[..|slots| - 1], ws);
      SlotIdsSplit(slots, ws);
    }
  }

  function IdleIds(ws: seq<Worker>): set<nat> {
    set id | 0 <= id < |ws| && InIdle(ws[id])
  }

  lemma {:induction false} IdleIdsCount(ws: seq<Worker>)
    ensures |IdleIds(ws)| == IdleIn(ws)
  {
    if ws != [] {
      var n := |ws| - 1;
      IdleIdsCount(ws[..n]);
      assert n !in IdleIds(ws[..n]);
      assert IdleIds(ws) == IdleIds(ws[..n]) + if InIdle(ws[n]) then {n} else {};
    }
  }

  // ----- What each call does to the unremoved workers -----

  lemma {:induction false} ClearingOne(slots: seq<nat>, ws: seq<Worker>, i: nat)
    requires NoneTwice(slots) && i < |slots| && SlotLive(slots, ws, i)
    ensures Unremoved(slots, ws[slots[i] := ws[slots[i]].(live := false)]) == Unremoved(slots, ws) - 1
  {
    var n, id := |slots| - 1, slots[i];
    var init, ws' := slots[..n], ws[id := ws[id].(live := false)];
    if i == n {
      assert forall j :: 0 <= j < n ==> SlotLive(init, ws, j) == SlotLive(init, ws', j);
      UnremovedDepends(init, ws, ws');
    } else {
      assert SlotLive(init, ws, i);
      ClearingOne(init, ws, i);
    }
  }

  lemma SameLive(s: State, ws: seq<Worker>)
    requires |ws| == |s.ws| && forall id :: 0 <= id < |ws| ==> ws[id].live == s.ws[id].live
    ensures Unremoved(s.slots, ws) == Live(s)
  {
    UnremovedDepends(s.slots, s.ws, ws);
  }

  lemma WorkersKeepLive(s: State, l: Label)
    requires Inv(s) && IsWorkerLabel(l)
    ensures Live(Step(s, l)) == Live(s)
  {
    var t := WorkerStep(s, l);
    if l.id < |s.ws| {
      assert WorkerOk(s.lock, l.id, s.ws[l.id]);
    }
    SameLive(s, t.ws);
  }

  lemma PlacingAdds(s: State)
    requires Inv(s) && s.lock.Free?
    ensures Live(Step(s, AddBegin)) == Live(s) + 1
  {
    var id, i, t := |s.ws|, FirstFree(s.slots, s.ws), Place(s);
    assert t.ws[..id] == s.ws;
    UnremovedDepends(s.slots, s.ws, t.ws);
    if i < |s.slots| {
      assert !SlotLive(s.slots, t.ws, i);
      UnremovedUpdate(s.slots, t.ws, i, id);
    } else {
      assert t.slots[..i] == s.slots;
    }
  }

  lemma AddingKeepsLive(s: State, l: Label)
    requires Inv(s) && s.lock.Adding? && (l.AddBegin? || l.AddCount? || l.AddIdle? || l.AddSpawn?)
    ensures Live(Step(s, l)) == Live(s)
  {
    SameLive(s, LockStep(s, l).ws);
  }

  lemma ClosingKeepsLive(s: State)
    requires Inv(s)
    ensures Live(Step(s, RmClose)) == Live(s)
  {
    SameLive(s, LockStep(s, RmClose).ws);
  }

  lemma {:induction false} NoneLive(slots: seq<nat>, ws: seq<Worker>)
    requires FirstLive(slots, ws) == |slots|
    ensures Unremoved(slots, ws) == 0
  {
    NoneLiveIn(slots, ws, |slots|);
    assert slots[..|slots|] == slots;
  }

  lemma {:induction false} NoneLiveIn(slots: seq<nat>, ws: seq<Worker>, n: nat)
    requires n <= |slots| && forall j :: 0 <= j < |slots| ==> !SlotLive(slots, ws, j)
    ensures Unremoved(slots[..n], ws) == 0
  {
    if n > 0 {
      NoneLiveIn(slots, ws, n - 1);
      assert slots[..n][..n - 1] == slots[..n - 1];
      assert SlotLive(slots[..n], ws, n - 1) == SlotLive(slots, ws, n - 1);
    }
  }

  lemma RemovingTakesOne(s: State)
    requires Inv(s) && s.lock.Free?
    ensures Live(Step(s, RmBegin)) == if Live(s) > 0 then Live(s) - 1 else 0
    ensures Live(s) > 0 ==> Step(s, RmBegin).lock.Removing?
  {
    var i := FirstLive(s.slots, s.ws);
    if i < |s.slots| {
      ClearingOne(s.slots, s.ws, i);
    } else {
      NoneLive(s.slots, s.ws);
    }
  }

  // ----- Closing a gap, on every schedule -----

  /** Every worker that did not leave is started, idle, and will hear of its removal. */
  ghost predicate Settled(s: State) {
    && Inv(s) && s.lock.Free?
    && forall id :: 0 <= id < |s.ws| ==> Resting(s.ws[id])
  }

  predicate Resting(w: Worker) {
    if w.live then w.pc.Idle? && w.sees else w.pc.Gone?
  }

  /** The idle workers are then the unremoved ones. */
  lemma SettledIdle(s: State)
    requires Settled(s)
    ensures s.idle == Live(s)
  {
    SlotIdsCount(s.slots, s.ws);
    IdleIdsCount(s.ws);
    forall id | id in IdleIds(s.ws)
      ensures id in SlotIds(s.slots, s.ws)
    {
      assert Resting(s.ws[id]) && s.ws[id].live && id in s.slots;
      var i :| 0 <= i < |s.slots| && s.slots[i] == id;
      assert SlotLive(s.slots, s.ws, i);
    }
    forall id | id in SlotIds(s.slots, s.ws)
      ensures id in IdleIds(s.ws)
    {
      assert Resting(s.ws[id]);
    }
    assert SlotIds(s.slots, s.ws) == IdleIds(s.ws);
  }

  /** One worker nearer to what should be. */
  function Toward(should: nat, now: nat): nat {
    if should > now then now + 1 else if should < now then now - 1 else now
  }

  /** Since the scaler looked and saw n idle among n unremoved workers. */
  ghost predicate SinceLook(should: nat, n: nat, s: Scaled) {
    && Inv(s.pool)
    && match s.pc
       case WillAdd =>
         should > n && ((s.pool.lock.Free? && Live(s.pool) == n) || (s.pool.lock.Adding? && Live(s.pool) == n + 1))
       case WillRemove => should < n && s.pool.lock.Free? && Live(s.pool) == n
       case Asleep => (s.pool.lock.Free? || s.pool.lock.Removing?) && Live(s.pool) == Toward(should, n)
       case Look => Live(s.pool) == Toward(should, n)
  }

  lemma AddsSinceLook(qWeight: nat, resident: nat, should: nat, n: nat, s: Scaled, l: Label)
    requires qWeight > 0 && SinceLook(should, n, s) && s.pc.WillAdd?
    requires l.AddBegin? || l.AddCount? || l.AddIdle? || l.AddSpawn?
    ensures SinceLook(should, n, Tick(qWeight, resident, s, SPool(l)))
  {
    LocksKeep(s.pool, l);
    if s.pool.lock.Adding? {
      AddingKeepsLive(s.pool, l);
    } else if l.AddBegin? {
      PlacingAdds(s.pool);
    } else {
      Unchanged(s.pool);
    }
  }

  lemma CallsSinceLook(qWeight: nat, resident: nat, should: nat, n: nat, s: Scaled, l: Label)
    requires qWeight > 0 && SinceLook(should, n, s)
    ensures SinceLook(should, n, Tick(qWeight, resident, s, SPool(l)))
  {
    if s.pc.WillAdd? && (l.AddBegin? || l.AddCount? || l.AddIdle? || l.AddSpawn?) {
      AddsSinceLook(qWeight, resident, should, n, s, l);
    } else if s.pc.WillRemove? && l.RmBegin? {
      LocksKeep(s.pool, l);
      RemovingTakesOne(s.pool);
    } else if s.pc.Asleep? && l.RmClose? {
      LocksKeep(s.pool, l);
      ClosingKeepsLive(s.pool);
    }
  }

  lemma TicksSinceLook(qWeight: nat, resident: nat, should: nat, n: nat, s: Scaled, a: Act)
    requires qWeight > 0 && !a.SLook? && SinceLook(should, n, s)
    ensures SinceLook(should, n, Tick(qWeight, resident, s, a))
  {
    match a
    case SPool(l) => CallsSinceLook(qWeight, resident, should, n, s, l);
    case SWake =>
    case Others(l) =>
      if IsWorkerLabel(l) {
        WorkersKeep(s.pool, l);
        WorkersKeepLive(s.pool, l);
      }
  }

  predicate NoLooks(acts: seq<Act>) {
    forall a :: a in acts ==> !a.SLook?
  }

  lemma {:induction false} RunSinceLook(qWeight: nat, resident: nat, should: nat, n: nat, s: Scaled, acts: seq<Act>)
    requires qWeight > 0 && NoLooks(acts) && SinceLook(should, n, s)
    ensures SinceLook(should, n, Ticks(qWeight, resident, s, acts))
    decreases |acts|
  {
    if acts != [] {
      RunSinceLook(qWeight, resident, should, n, s, acts[..|acts| - 1]);
      TicksSinceLook(qWeight, resident, should, n, Ticks(qWeight, resident, s, acts[..|acts| - 1]), acts[|acts| - 1]);
    }
  }

  lemma {:induction false} TicksJoin(qWeight: nat, resident: nat, s: Scaled, xs: seq<Act>, ys: seq<Act>)
    requires qWeight > 0
    ensures Ticks(qWeight, resident, s, xs + ys) == Ticks(qWeight, resident, Ticks(qWeight, resident, s, xs), ys)
    decreases |ys|
  {
    if ys == [] {
      assert xs + ys == xs;
    } else {
      TicksJoin(qWeight, resident, s, xs, ys[..|ys| - 1]);
      assert (xs + ys)[..|xs + ys| - 1] == xs + ys[..|ys| - 1];
    }
  }

  lemma TicksOne(qWeight: nat, resident: nat, s: Scaled, a: Act)
    requires qWeight > 0
    ensures Ticks(qWeight, resident, s, [a]) == Tick(qWeight, resident, s, a)
  {
    assert [a][..0] == [];
  }

  /** From one settled look to the next, whatever happens in between and in whatever
      order, the idle count moves by exactly one, and toward what it should be. */
  lemma LookMovesByOne(qWeight: nat, resident: nat, s: Scaled, queueLen: nat, acts: seq<Act>)
    requires qWeight > 0 && s.pc.Look? && Settled(s.pool) && NoLooks(acts)
    requires var t := Ticks(qWeight, resident, s, [SLook(queueLen)] + acts); t.pc.Look? && Settled(t.pool)
    ensures Ticks(qWeight, resident, s, [SLook(queueLen)] + acts).pool.idle
         == Toward(Should(queueLen, qWeight, resident), s.pool.idle)
  {
    var should, u := Should(queueLen, qWeight, resident), Tick(qWeight, resident, s, SLook(queueLen));
    SettledIdle(s.pool);
    assert SinceLook(should, s.pool.idle, u);
    TicksOne(qWeight, resident, s, SLook(queueLen));
    TicksJoin(qWeight, resident, s, [SLook(queueLen)], acts);
    RunSinceLook(qWeight, resident, should, s.pool.idle, u, acts);
    SettledIdle(Ticks(qWeight, resident, u, acts).pool);
  }

  /** Rounds: a look at a queue of this length, then anything but a look. */
  function Rounds(queueLen: nat, rounds: seq<seq<Act>>): seq<Act> {
    if rounds == [] then [] else Rounds(queueLen, rounds[..|rounds| - 1]) + ([SLook(queueLen)] + rounds[|rounds| - 1])
  }

  /** Each round ends with the pool settled and the scaler about to look. */
  ghost predicate SettledRounds(qWeight: nat, resident: nat, s: Scaled, queueLen: nat, rounds: seq<seq<Act>>)
    requires qWeight > 0
    decreases |rounds|
  {
    var t := Ticks(qWeight, resident, s, Rounds(queueLen, rounds));
    && t.pc.Look? && Settled(t.pool)
    && (rounds != [] ==> NoLooks(rounds[|rounds| - 1])
                         && SettledRounds(qWeight, resident, s, queueLen, rounds[..|rounds| - 1]))
  }

  /** What is slept in these rounds. */
  ghost function SleptIn(qWeight: nat, resident: nat, s: Scaled, queueLen: nat, rounds: seq<seq<Act>>): nat
    requires qWeight > 0 && SettledRounds(qWeight, resident, s, queueLen, rounds)
    decreases |rounds|
  {
    if rounds == [] then 0
    else
      var init := rounds[..|rounds| - 1];
      var t := Ticks(qWeight, resident, s, Rounds(queueLen, init));
      assert SettledRounds(qWeight, resident, s, queueLen, init);
      SettledIdle(t.pool);
      SleptIn(qWeight, resident, s, queueLen, init) + Sleep(Gap(Should(queueLen, qWeight, resident), t.pool.idle))
  }

  /** With a constant queue and looks at settled moments, each round closes the gap by
      one: a gap of n is closed after n rounds, not sooner, and what is slept until then
      is the harmonic sum, floor(log2(n)) + 1 seconds at most. */
  lemma {:induction false} GapCloses(qWeight: nat, resident: nat, s: Scaled, queueLen: nat, rounds: seq<seq<Act>>)
    requires qWeight > 0 && SettledRounds(qWeight, resident, s, queueLen, rounds)
    requires s.pool.idle >= 0 && |rounds| <= Gap(Should(queueLen, qWeight, resident), s.pool.idle)
    ensures var should, t := Should(queueLen, qWeight, resident), Ticks(qWeight, resident, s, Rounds(queueLen, rounds));
            && t.pool.idle >= 0 && Gap(should, t.pool.idle) == Gap(should, s.pool.idle) - |rounds|
            && SleptIn(qWeight, resident, s, queueLen, rounds) + Slept(Gap(should, t.pool.idle))
            == Slept(Gap(should, s.pool.idle))
    decreases |rounds|
  {
    if rounds != [] {
      var n := |rounds| - 1;
      var init := rounds[..n];
      var t := Ticks(qWeight, resident, s, Rounds(queueLen, init));
      GapCloses(qWeight, resident, s, queueLen, init);
      TicksJoin(qWeight, resident, s, Rounds(queueLen, init), [SLook(queueLen)] + rounds[n]);
      LookMovesByOne(qWeight, resident, t, queueLen, rounds[n]);
    }
  }

  // ----- A settled round there always is -----

  lemma TickOn(qWeight: nat, resident: nat, from: Scaled, acts: seq<Act>, s: Scaled, a: Act, t: Scaled)
    returns (more: seq<Act>)
    requires qWeight > 0 && Ticks(qWeight, resident, from, acts) == s && Tick(qWeight, resident, s, a) == t
    ensures more == acts + [a] && Ticks(qWeight, resident, from, more) == t
  {
    more := acts + [a];
    assert more[..|acts|] == acts;
  }

  /** One more settled worker. */
  function Joined(s: State): State {
    Added(s).(ws := s.ws + [Worker(true, 0, true, Idle)])
  }

  lemma JoinedSteps(s: State)
    requires Settled(s)
    ensures Step(Added(s), Start(|s.ws|)) == Joined(s) && Settled(Joined(s))
  {
    AddedKeeps(s);
    WorkersKeep(Added(s), Start(|s.ws|));
    assert Joined(s).ws == Added(s).ws[|s.ws| := Worker(true, 0, true, Idle)];
    SamePeak(Added(s), Joined(s));
  }

  function AddingRound(id: nat): (r: seq<Act>)
    ensures NoLooks(r)
  {
    [SPool(AddBegin), SPool(AddCount), SPool(AddIdle), SPool(AddSpawn), Others(Start(id)), SWake]
  }

  lemma MidTick(qWeight: nat, resident: nat, from: Scaled, acts: seq<Act>, slots: seq<nat>, ws: seq<Worker>,
                pc: WorkerPool.Pc, c: int, i: int) returns (more: seq<Act>)
    requires qWeight > 0 && InMid(pc)
    requires Ticks(qWeight, resident, from, acts) == Scaled(Mid(slots, ws, pc, c, i), WillAdd)
    ensures more == acts + [SPool(MidLabel(pc))]
    ensures Ticks(qWeight, resident, from, more)
            == Scaled(MidNext(slots, ws, pc, c, i), if pc.Ready? then Asleep else WillAdd)
  {
    MidStep(slots, ws, pc, c, i);
    more := TickOn(qWeight, resident, from, acts, Scaled(Mid(slots, ws, pc, c, i), WillAdd), SPool(MidLabel(pc)),
                   Scaled(MidNext(slots, ws, pc, c, i), if pc.Ready? then Asleep else WillAdd));
  }

  lemma PlacedTick(qWeight: nat, resident: nat, from: Scaled, acts: seq<Act>, s: State, slots: seq<nat>)
    returns (more: seq<Act>)
    requires qWeight > 0 && Inv(s) && s.lock.Free? && slots == PlaceIn(s.slots, s.ws, |s.ws|)
    requires Ticks(qWeight, resident, from, acts) == Scaled(s, WillAdd)
    ensures more == acts + [SPool(AddBegin)]
    ensures Ticks(qWeight, resident, from, more) == Scaled(Mid(slots, s.ws, Placed, s.count, s.idle), WillAdd)
  {
    MidFirst(s, slots);
    more := TickOn(qWeight, resident, from, acts, Scaled(s, WillAdd), SPool(AddBegin),
                   Scaled(Mid(slots, s.ws, Placed, s.count, s.idle), WillAdd));
  }

  lemma MidCalled(qWeight: nat, resident: nat, from: Scaled, acts: seq<Act>, slots: seq<nat>, ws: seq<Worker>, c: int,
                  i: int)
    returns (more: seq<Act>)
    requires qWeight > 0 && Ticks(qWeight, resident, from, acts) == Scaled(Mid(slots, ws, Placed, c, i), WillAdd)
    ensures more == acts + [SPool(AddCount), SPool(AddIdle), SPool(AddSpawn)]
    ensures Ticks(qWeight, resident, from, more) == Scaled(Mid(slots, ws, New, c + 1, i + 1), Asleep)
  {
    var a2 := MidTick(qWeight, resident, from, acts, slots, ws, Placed, c, i);
    var a3 := MidTick(qWeight, resident, from, a2, slots, ws, Counted, c + 1, i);
    more := MidTick(qWeight, resident, from, a3, slots, ws, Ready, c + 1, i + 1);
  }

  lemma AddedStarts(qWeight: nat, resident: nat, from: Scaled, acts: seq<Act>, s: State) returns (more: seq<Act>)
    requires qWeight > 0 && Settled(s) && Ticks(qWeight, resident, from, acts) == Scaled(Added(s), Asleep)
    ensures more == acts + [Others(Start(|s.ws|)), SWake]
    ensures Ticks(qWeight, resident, from, more) == Scaled(Joined(s), Look)
  {
    JoinedSteps(s);
    var a1 := TickOn(qWeight, resident, from, acts, Scaled(Added(s), Asleep), Others(Start(|s.ws|)),
        Scaled(Joined(s), Asleep));
    more := TickOn(qWeight, resident, from, a1, Scaled(Joined(s), Asleep), SWake, Scaled(Joined(s), Look));
  }

  lemma AddingRoundSettles(qWeight: nat, resident: nat, from: Scaled, acts: seq<Act>, s: State) returns (more: seq<Act>)
    requires qWeight > 0 && Settled(s) && Ticks(qWeight, resident, from, acts) == Scaled(s, WillAdd)
    ensures more == acts + AddingRound(|s.ws|) && Ticks(qWeight, resident, from, more) == Scaled(Joined(s), Look)
  {
    var slots := PlaceIn(s.slots, s.ws, |s.ws|);
    var a1 := PlacedTick(qWeight, resident, from, acts, s, slots);
    var a4 := MidCalled(qWeight, resident, from, a1, slots, s.ws, s.count, s.idle);
    more := AddedStarts(qWeight, resident, from, a4, s);
  }

  /** A worker on its way out: removed, its channel closed or about to be, at pc. */
  function Out(s: State, id: nat, closed: nat, pc: WorkerPool.Pc, lock: Lock, count: int, idle: int): State
    requires id < |s.ws|
  {
    s.(ws := s.ws[id := Worker(false, closed, true, pc)], lock := lock, count := count, idle := idle)
  }

  /** One settled worker fewer. */
  function Left(s: State, id: nat): State
    requires id < |s.ws|
  {
    Out(s, id, 1, WorkerPool.Gone, Free, s.count - 1, s.idle - 1)
  }

  /** The worker that rmWorker picks. */
  ghost predicate Picked(s: State, id: nat) {
    var i := FirstLive(s.slots, s.ws);
    Settled(s) && i < |s.slots| && s.slots[i] == id
  }

  lemma OutCalled(s: State, id: nat)
    requires Picked(s, id)
    ensures Step(s, RmBegin) == Out(s, id, 0, Idle, Removing(id), s.count, s.idle)
    ensures Step(Out(s, id, 0, Idle, Removing(id), s.count, s.idle), RmClose)
            == Out(s, id, 1, Idle, Free, s.count, s.idle)
  {
    assert Resting(s.ws[id]) && s.ws[id].live && WorkerOk(s.lock, id, s.ws[id]);
    var t, u := Out(s, id, 0, Idle, Removing(id), s.count, s.idle), Out(s, id, 1, Idle, Free, s.count, s.idle);
    UnremovedAtMost(t.slots, t.ws);
    UnremovedAtMost(u.slots, u.ws);
    assert u.ws == t.ws[id := t.ws[id].(closed := 1)];
  }

  predicate OnWayOut(pc: WorkerPool.Pc) { pc.Idle? || pc.Returned? || pc.NotIdle? || pc.Leaving? }

  /** Its own actions, and what each does to the counters. */
  function OutLabel(id: nat, pc: WorkerPool.Pc): Label
    requires OnWayOut(pc)
  {
    match pc
    case Idle => SeeDone(id)
    case Returned => Deferred(id)
    case NotIdle => DropIdle(id)
    case _ => DropCount(id)
  }

  function OutNext(s: State, id: nat, pc: WorkerPool.Pc, c: int, i: int): State
    requires id < |s.ws| && OnWayOut(pc)
  {
    match pc
    case Idle => Out(s, id, 1, Returned, Free, c, i)
    case Returned => Out(s, id, 1, NotIdle, Free, c, i)
    case NotIdle => Out(s, id, 1, Leaving, Free, c, i - 1)
    case _ => Out(s, id, 1, WorkerPool.Gone, Free, c - 1, i)
  }

  lemma OutStep(s: State, id: nat, pc: WorkerPool.Pc, c: int, i: int)
    requires id < |s.ws| && s.peak == |s.slots| && OnWayOut(pc)
    ensures Step(Out(s, id, 1, pc, Free, c, i), OutLabel(id, pc)) == OutNext(s, id, pc, c, i)
  {
    var t, u := Out(s, id, 1, pc, Free, c, i), OutNext(s, id, pc, c, i);
    assert u.ws == t.ws[id := t.ws[id].(pc := u.ws[id].pc)];
    UnremovedAtMost(u.slots, u.ws);
  }

  lemma LeftSteps(s: State, id: nat)
    requires id < |s.ws| && s.peak == |s.slots|
    ensures var t := Out(s, id, 1, Idle, Free, s.count, s.idle);
            Step(Step(Step(Step(t, SeeDone(id)), Deferred(id)), DropIdle(id)), DropCount(id)) == Left(s, id)
  {
    OutStep(s, id, Idle, s.count, s.idle);
    OutStep(s, id, Returned, s.count, s.idle);
    OutStep(s, id, NotIdle, s.count, s.idle);
    OutStep(s, id, Leaving, s.count, s.idle - 1);
  }

  lemma LeftSettled(s: State, id: nat)
    requires Picked(s, id)
    ensures Settled(Left(s, id))
  {
    assert Resting(s.ws[id]) && s.ws[id].live && WorkerOk(s.lock, id, s.ws[id]);
    var w, u := Worker(false, 1, true, WorkerPool.Gone), Left(s, id);
    SetWorker(s, id, w, Free, s.count - 1, s.idle - 1);
    UnremovedAtMost(u.slots, u.ws);
  }

  function RemovingRound(id: nat): (r: seq<Act>)
    ensures NoLooks(r)
  {
    [SPool(RmBegin), SPool(RmClose), Others(SeeDone(id)), Others(Deferred(id)), Others(DropIdle(id)),
        Others(DropCount(id)), SWake]
  }

  lemma OutTick(qWeight: nat, resident: nat, from: Scaled, acts: seq<Act>, s: State, id: nat, pc: WorkerPool.Pc,
                c: int, i: int) returns (more: seq<Act>)
    requires qWeight > 0 && id < |s.ws| && s.peak == |s.slots| && OnWayOut(pc)
    requires Ticks(qWeight, resident, from, acts) == Scaled(Out(s, id, 1, pc, Free, c, i), Asleep)
    ensures more == acts + [Others(OutLabel(id, pc))]
    ensures Ticks(qWeight, resident, from, more) == Scaled(OutNext(s, id, pc, c, i), Asleep)
  {
    OutStep(s, id, pc, c, i);
    more := TickOn(qWeight, resident, from, acts, Scaled(Out(s, id, 1, pc, Free, c, i), Asleep),
                   Others(OutLabel(id, pc)), Scaled(OutNext(s, id, pc, c, i), Asleep));
  }

  lemma RemoveCalled(qWeight: nat, resident: nat, from: Scaled, acts: seq<Act>, s: State, id: nat)
    returns (more: seq<Act>)
    requires qWeight > 0 && Picked(s, id) && Ticks(qWeight, resident, from, acts) == Scaled(s, WillRemove)
    ensures more == acts + [SPool(RmBegin), SPool(RmClose)]
    ensures Ticks(qWeight, resident, from, more) == Scaled(Out(s, id, 1, Idle, Free, s.count, s.idle), Asleep)
  {
    OutCalled(s, id);
    var begun := Scaled(Out(s, id, 0, Idle, Removing(id), s.count, s.idle), Asleep);
    var a1 := TickOn(qWeight, resident, from, acts, Scaled(s, WillRemove), SPool(RmBegin), begun);
    more := TickOn(qWeight, resident, from, a1, begun, SPool(RmClose),
        Scaled(Out(s, id, 1, Idle, Free, s.count, s.idle), Asleep));
  }

  lemma TwoOut(qWeight: nat, resident: nat, from: Scaled, acts: seq<Act>, s: State, id: nat) returns (more: seq<Act>)
    requires qWeight > 0 && id < |s.ws| && s.peak == |s.slots|
    requires Ticks(qWeight, resident, from, acts) == Scaled(Out(s, id, 1, Idle, Free, s.count, s.idle), Asleep)
    ensures more == acts + [Others(SeeDone(id)), Others(Deferred(id))]
    ensures Ticks(qWeight, resident, from, more) == Scaled(Out(s, id, 1, NotIdle, Free, s.count, s.idle), Asleep)
  {
    var a1 := OutTick(qWeight, resident, from, acts, s, id, Idle, s.count, s.idle);
    more := OutTick(qWeight, resident, from, a1, s, id, Returned, s.count, s.idle);
  }

  lemma RemovedLeaves(qWeight: nat, resident: nat, from: Scaled, acts: seq<Act>, s: State, id: nat)
    returns (more: seq<Act>)
    requires qWeight > 0 && id < |s.ws| && s.peak == |s.slots|
    requires Ticks(qWeight, resident, from, acts) == Scaled(Out(s, id, 1, NotIdle, Free, s.count, s.idle), Asleep)
    ensures more == acts + [Others(DropIdle(id)), Others(DropCount(id)), SWake]
    ensures Ticks(qWeight, resident, from, more) == Scaled(Left(s, id), Look)
  {
    var a3 := OutTick(qWeight, resident, from, acts, s, id, NotIdle, s.count, s.idle);
    var a4 := OutTick(qWeight, resident, from, a3, s, id, Leaving, s.count, s.idle - 1);
    more := TickOn(qWeight, resident, from, a4, Scaled(Left(s, id), Asleep), SWake, Scaled(Left(s, id), Look));
  }

  lemma RemovingRoundSettles(qWeight: nat, resident: nat, from: Scaled, acts: seq<Act>, s: State, id: nat)
    returns (more: seq<Act>)
    requires qWeight > 0 && Picked(s, id) && Ticks(qWeight, resident, from, acts) == Scaled(s, WillRemove)
    ensures more == acts + RemovingRound(id) && Ticks(qWeight, resident, from, more) == Scaled(Left(s, id), Look)
  {
    var a2 := RemoveCalled(qWeight, resident, from, acts, s, id);
    var a4 := TwoOut(qWeight, resident, from, a2, s, id);
    more := RemovedLeaves(qWeight, resident, from, a4, s, id);
  }

  // ----- The loop -----

  /** addWorker, and its goroutine starts. */
  method AddOne(pool: Pool)
    requires Settled(pool.Value())
    modifies pool
    ensures pool.Value() == Joined(old(pool.Value())) && Settled(pool.Value())
  {
    JoinedSteps(pool.Value());
    var id := |pool.made|;
    pool.AddWorker();
    pool.Act(Start(id));
  }

  lemma SomeoneToPick(s: State)
    requires Settled(s) && s.idle > 0
    ensures FirstLive(s.slots, s.ws) < |s.slots| && Picked(s, s.slots[FirstLive(s.slots, s.ws)])
  {
    SettledIdle(s);
    if FirstLive(s.slots, s.ws) == |s.slots| {
      NoneLive(s.slots, s.ws);
    }
  }

  /** rmWorker, and the worker that it picks leaves. */
  method RemoveOne(pool: Pool) returns (id: nat)
    requires Settled(pool.Value()) && pool.idleCount > 0
    modifies pool
    ensures Picked(old(pool.Value()), id) && pool.Value() == Left(old(pool.Value()), id) && Settled(pool.Value())
  {
    ghost var s := pool.Value();
    SomeoneToPick(s);
    var i := pool.FirstUnremoved();
    id := pool.workers[i];
    LeftSettled(s, id);
    OutCalled(s, id);
    pool.RmWorker();
    LeftSteps(s, id);
    pool.Act(SeeDone(id));
    pool.Act(Deferred(id));
    pool.Act(DropIdle(id));
    pool.Act(DropCount(id));
  }

  lemma RoundsNext(queueLen: nat, rounds: seq<seq<Act>>, round: seq<Act>)
    ensures Rounds(queueLen, rounds + [round]) == Rounds(queueLen, rounds) + [SLook(queueLen)] + round
  {
    var all := rounds + [round];
    assert all[..|all| - 1] == rounds && all[|all| - 1] == round;
    Assoc(Rounds(queueLen, rounds), [SLook(queueLen)], round);
  }

  lemma NextRound(qWeight: nat, resident: nat, s0: Scaled, queueLen: nat, rounds: seq<seq<Act>>, round: seq<Act>,
                  acts: seq<Act>, t: State)
    requires qWeight > 0 && SettledRounds(qWeight, resident, s0, queueLen, rounds) && NoLooks(round) && Settled(t)
    requires Ticks(qWeight, resident, s0, acts) == Scaled(t, Look)
    requires acts == Rounds(queueLen, rounds) + [SLook(queueLen)] + round
    ensures SettledRounds(qWeight, resident, s0, queueLen, rounds + [round])
    ensures Ticks(qWeight, resident, s0, Rounds(queueLen, rounds + [round])) == Scaled(t, Look)
  {
    RoundsNext(queueLen, rounds, round);
    var all := rounds + [round];
    assert all[..|all| - 1] == rounds && all[|all| - 1] == round;
  }

  lemma RoundUp(qWeight: nat, resident: nat, s0: Scaled, queueLen: nat, rounds: seq<seq<Act>>, s: State)
    requires qWeight > 0 && SettledRounds(qWeight, resident, s0, queueLen, rounds) && Settled(s)
    requires Ticks(qWeight, resident, s0, Rounds(queueLen, rounds)) == Scaled(s, Look)
    requires Should(queueLen, qWeight, resident) > s.idle
    ensures var all := rounds + [AddingRound(|s.ws|)];
            && SettledRounds(qWeight, resident, s0, queueLen, all)
            && Ticks(qWeight, resident, s0, Rounds(queueLen, all)) == Scaled(Joined(s), Look)
  {
    var looked := TickOn(qWeight, resident, s0, Rounds(queueLen, rounds), Scaled(s, Look), SLook(queueLen),
        Scaled(s, WillAdd));
    var acts := AddingRoundSettles(qWeight, resident, s0, looked, s);
    JoinedSteps(s);
    NextRound(qWeight, resident, s0, queueLen, rounds, AddingRound(|s.ws|), acts, Joined(s));
  }

  lemma RoundDown(qWeight: nat, resident: nat, s0: Scaled, queueLen: nat, rounds: seq<seq<Act>>, s: State, id: nat)
    requires qWeight > 0 && SettledRounds(qWeight, resident, s0, queueLen, rounds) && Picked(s, id)
    requires Ticks(qWeight, resident, s0, Rounds(queueLen, rounds)) == Scaled(s, Look)
    requires Should(queueLen, qWeight, resident) < s.idle
    ensures var all := rounds + [RemovingRound(id)];
            && SettledRounds(qWeight, resident, s0, queueLen, all)
            && Ticks(qWeight, resident, s0, Rounds(queueLen, all)) == Scaled(Left(s, id), Look)
  {
    var looked := TickOn(qWeight, resident, s0, Rounds(queueLen, rounds), Scaled(s, Look), SLook(queueLen),
        Scaled(s, WillRemove));
    var acts := RemovingRoundSettles(qWeight, resident, s0, looked, s, id);
    LeftSettled(s, id);
    NextRound(qWeight, resident, s0, queueLen, rounds, RemovingRound(id), acts, Left(s, id));
  }

  method SettleUp(pool: Pool, ghost queueLen: nat, ghost qWeight: nat, ghost resident: nat, ghost s0: Scaled,
                  ghost rounds: seq<seq<Act>>)
    returns (ghost all: seq<seq<Act>>)
    requires qWeight > 0 && SettledRounds(qWeight, resident, s0, queueLen, rounds) && Settled(pool.Value())
    requires Ticks(qWeight, resident, s0, Rounds(queueLen, rounds)) == Scaled(pool.Value(), Look)
    requires Should(queueLen, qWeight, resident) > pool.idleCount
    modifies pool
    ensures Settled(pool.Value()) && pool.idleCount == old(pool.idleCount) + 1
    ensures |all| == |rounds| + 1 && SettledRounds(qWeight, resident, s0, queueLen, all)
    ensures Ticks(qWeight, resident, s0, Rounds(queueLen, all)) == Scaled(pool.Value(), Look)
  {
    RoundUp(qWeight, resident, s0, queueLen, rounds, pool.Value());
    all := rounds + [AddingRound(|pool.made|)];
    AddOne(pool);
  }

  method SettleDown(pool: Pool, ghost queueLen: nat, ghost qWeight: nat, ghost resident: nat, ghost s0: Scaled,
                    ghost rounds: seq<seq<Act>>)
    returns (ghost all: seq<seq<Act>>)
    requires qWeight > 0 && SettledRounds(qWeight, resident, s0, queueLen, rounds) && Settled(pool.Value())
    requires Ticks(qWeight, resident, s0, Rounds(queueLen, rounds)) == Scaled(pool.Value(), Look)
    requires Should(queueLen, qWeight, resident) < pool.idleCount
    modifies pool
    ensures Settled(pool.Value()) && pool.idleCount == old(pool.idleCount) - 1
    ensures |all| == |rounds| + 1 && SettledRounds(qWeight, resident, s0, queueLen, all)
    ensures Ticks(qWeight, resident, s0, Rounds(queueLen, all)) == Scaled(pool.Value(), Look)
  {
    ghost var s := pool.Value();
    var id := RemoveOne(pool);
    RoundDown(qWeight, resident, s0, queueLen, rounds, s, id);
    all := rounds + [RemovingRound(id)];
  }

  /** The rounds so far led from s0 to this pool, settled, with the scaler about to look. */
  ghost predicate Reached(qWeight: nat, resident: nat, s0: Scaled, queueLen: nat, rounds: seq<seq<Act>>, s: State)
    requires qWeight > 0
  {
    && SettledRounds(qWeight, resident, s0, queueLen, rounds) && Settled(s)
    && Ticks(qWeight, resident, s0, Rounds(queueLen, rounds)) == Scaled(s, Look)
  }

  /** One turn of the loop of autoScaler: k divides the second that is slept. */
  method Turn(pool: Pool, should: nat, now: nat, ghost queueLen: nat, ghost qWeight: nat, ghost resident: nat,
              ghost s0: Scaled, ghost rounds: seq<seq<Act>>)
    returns (k: nat, ghost all: seq<seq<Act>>)
    requires qWeight > 0 && Reached(qWeight, resident, s0, queueLen, rounds, pool.Value())
    requires should == Should(queueLen, qWeight, resident) != now == pool.idleCount
    modifies pool
    ensures Reached(qWeight, resident, s0, queueLen, all, pool.Value()) && |all| == |rounds| + 1
    ensures pool.idleCount == Toward(should, now) && k == Gap(should, now)
  {
    if should > now {
      k := should - now;
      all := SettleUp(pool, queueLen, qWeight, resident, s0, rounds);
    } else {
      k := now - should;
      all := SettleDown(pool, queueLen, qWeight, resident, s0, rounds);
    }
  }

  /** The loop of autoScaler with a constant queue, each call of the pool settling before
      the next look: it reaches what should be in exactly as many looks as the gap. */
  method Settle(pool: Pool, queueLen: nat, qWeight: nat, resident: nat)
    returns (ticks: nat, slept: nat, ghost rounds: seq<seq<Act>>)
    requires qWeight > 0 && Settled(pool.Value()) && pool.idleCount >= 0
    modifies pool
    ensures pool.idleCount == Should(queueLen, qWeight, resident)
    ensures |rounds| == ticks && Reached(qWeight, resident, Scaled(old(pool.Value()), Look), queueLen, rounds,
            pool.Value())
    ensures var n := Gap(Should(queueLen, qWeight, resident), old(pool.idleCount));
            ticks == n && slept == Slept(n) && (n > 0 ==> slept <= SECOND * (Log2(n) + 1))
  {
    var should, now := queueLen / qWeight + resident, pool.idleCount;
    ticks, slept, rounds := 0, 0, [];
    ghost var n, s0 := Gap(should, now), Scaled(pool.Value(), Look);
    while should != now
      invariant now == pool.idleCount >= 0
      invariant |rounds| == ticks && Reached(qWeight, resident, s0, queueLen, rounds, pool.Value())
      invariant ticks + Gap(should, now) == n && slept + Slept(Gap(should, now)) == Slept(n)
      decreases Gap(should, now)
    {
      var k;
      k, rounds := Turn(pool, should, now, queueLen, qWeight, resident, s0, rounds);
      slept := slept + SECOND / k;
      ticks := ticks + 1;
      now := pool.idleCount;
    }
    if n > 0 {
      SleptBound(n);
    }
  }
}
