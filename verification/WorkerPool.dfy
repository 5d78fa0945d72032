/** The worker pool of workerpool.go as an interleaved step system.

  `addWorker`, `rmWorker` and `close` run under the pool's lock but are watched by
  lock-free readers of the two counters and raced by the workers themselves, so each
  of their atomic actions is a step of its own, and so is each action of a worker
  running `msgQ.worker`. */
module WorkerPool {

  /** The life of a worker: three counter actions of addWorker, then the goroutine. */
  datatype Pc =
    | Placed       // has its slot
    | Counted      // count incremented
    | Ready        // idleCount incremented
    | New          // goroutine started, `done` not read yet
    | Idle
    | Working
    | Returned     // out of the worker function, in the deferred function
    | NotIdle      // idleCount about to be decremented
    | Leaving      // count about to be decremented
    | Gone

  /** `live`: the done variable is not nil.  `closed`: how often its channel was
      closed.  `sees`: the goroutine read a non-nil channel when it started. */
  datatype Worker = Worker(live: bool, closed: nat, sees: bool, pc: Pc)

  datatype Lock =
    | Free
    | Adding(id: nat)
    | Removing(id: nat)
    | Closing(i: nat)                  // the close loop stands before slot i
    | ClosingSlot(i: nat, id: nat)     // the done variable of slot i is nil, its channel still open

  /** `slots[i]` is the worker whose done variable slot i points to. */
  datatype State = State(slots: seq<nat>, ws: seq<Worker>, lock: Lock, count: int, idle: int, peak: nat)

  datatype Label =
    | AddBegin | AddCount | AddIdle | AddSpawn
    | RmBegin | RmClose
    | CloseBegin | CloseNil | CloseChan | CloseEnd
    | Start(id: nat) | Work(id: nat) | Rest(id: nat) | SeeDone(id: nat) | Deferred(id: nat) | DropIdle(id: nat)
    | DropCount(id: nat)

  function Init(): State {
    State([], [], Free, 0, 0, 0)
  }

  predicate SlotLive(slots: seq<nat>, ws: seq<Worker>, i: nat)
    requires i < |slots|
  {
    slots[i] < |ws| && ws[slots[i]].live
  }

  /** The first slot whose done variable is nil, or |slots|. */
  function FirstFree(slots: seq<nat>, ws: seq<Worker>, i: nat := 0): (r: nat)
    requires i <= |slots|
    ensures i <= r <= |slots| && (r < |slots| ==> !SlotLive(slots, ws, r))
    ensures forall j :: i <= j < r ==> SlotLive(slots, ws, j)
    decreases |slots| - i
  {
    if i == |slots| || !SlotLive(slots, ws, i) then i else FirstFree(slots, ws, i + 1)
  }

  /** The first slot whose done variable is not nil, or |slots|. */
  function FirstLive(slots: seq<nat>, ws: seq<Worker>, i: nat := 0): (r: nat)
    requires i <= |slots|
    ensures i <= r <= |slots| && (r < |slots| ==> SlotLive(slots, ws, r))
    ensures forall j :: i <= j < r ==> !SlotLive(slots, ws, j)
    decreases |slots| - i
  {
    if i == |slots| || SlotLive(slots, ws, i) then i else FirstLive(slots, ws, i + 1)
  }

  /** How many slots hold a worker that was not removed. */
  function Unremoved(slots: seq<nat>, ws: seq<Worker>): nat {
    if slots == [] then 0
    else Unremoved(slots[..|slots| - 1], ws) + if SlotLive(slots, ws, |slots| - 1) then 1 else 0
  }

  function Max(a: nat, b: nat): nat {
    if a < b then b else a
  }

  function PlaceIn(slots: seq<nat>, ws: seq<Worker>, id: nat): seq<nat> {
    var i := FirstFree(slots, ws);
    if i < |slots| then slots[i := id] else slots + [id]
  }

  function Place(s: State): State {
    var id := |s.ws|;
    var slots := PlaceIn(s.slots, s.ws, id);
    var ws := s.ws + [Worker(true, 0, false, Placed)];
    s.(slots := slots, ws := ws, lock := Adding(id))
  }

  function To(s: State, id: nat, pc: Pc): State
    requires id < |s.ws|
  {
    s.(ws := s.ws[id := s.ws[id].(pc := pc)])
  }

  function SetNil(s: State, id: nat): State
    requires id < |s.ws|
  {
    s.(ws := s.ws[id := s.ws[id].(live := false)])
  }

  function CloseOf(s: State, id: nat): State
    requires id < |s.ws|
  {
    s.(ws := s.ws[id := s.ws[id].(closed := s.ws[id].closed + 1)])
  }

  function LockStep(s: State, l: Label): State {
    match s.lock
    case Free =>
      if l.AddBegin? then Place(s)
      else if l.RmBegin? && FirstLive(s.slots, s.ws) < |s.slots| then
        var id := s.slots[FirstLive(s.slots, s.ws)];
        SetNil(s, id).(lock := Removing(id))
      else if l.CloseBegin? then s.(lock := Closing(0))
      else s
    case Adding(id) =>
      if id >= |s.ws| then s
      else if l.AddCount? && s.ws[id].pc.Placed? then To(s, id, Counted).(count := s.count + 1)
      else if l.AddIdle? && s.ws[id].pc.Counted? then To(s, id, Ready).(idle := s.idle + 1)
      else if l.AddSpawn? && s.ws[id].pc.Ready? then To(s, id, New).(lock := Free)
      else s
    case Removing(id) =>
      if l.RmClose? && id < |s.ws| then CloseOf(s, id).(lock := Free) else s
    case Closing(i) =>
      if i >= |s.slots| then if l.CloseEnd? then s.(lock := Free) else s
      else if !l.CloseNil? then s
      else if SlotLive(s.slots, s.ws, i) then SetNil(s, s.slots[i]).(lock := ClosingSlot(i, s.slots[i]))
      else s.(lock := Closing(i + 1))
    case ClosingSlot(i, id) =>
      if l.CloseChan? && id < |s.ws| then CloseOf(s, id).(lock := Closing(i + 1)) else s
  }

  predicate IsWorkerLabel(l: Label) {
    l.Start? || l.Work? || l.Rest? || l.SeeDone? || l.Deferred? || l.DropIdle? || l.DropCount?
  }

  /** A goroutine running msgQ.worker: it returns only when the channel it read at
      its start is closed; its deferred function closes the channel if the variable
      still holds one. */
  function WorkerStep(s: State, l: Label): State
    requires IsWorkerLabel(l)
  {
    if l.id >= |s.ws| then s
    else
      var id, w := l.id, s.ws[l.id];
      match l
      case Start(_) => if w.pc.New? then s.(ws := s.ws[id := w.(sees := w.live, pc := Idle)]) else s
      case Work(_) => if w.pc.Idle? then To(s, id, Working).(idle := s.idle - 1) else s
      case Rest(_) => if w.pc.Working? then To(s, id, Idle).(idle := s.idle + 1) else s
      case SeeDone(_) => if w.pc.Idle? && w.sees && w.closed > 0 then To(s, id, Returned) else s
      case Deferred(_) =>
        if !w.pc.Returned? then s
        else if w.live then s.(ws := s.ws[id := w.(live := false, closed := w.closed + 1, pc := NotIdle)])
        else To(s, id, NotIdle)
      case DropIdle(_) => if w.pc.NotIdle? then To(s, id, Leaving).(idle := s.idle - 1) else s
      case DropCount(_) => if w.pc.Leaving? then To(s, id, Gone).(count := s.count - 1) else s
  }

  /** The history variable: the most unremoved workers there have been. */
  function Observe(s: State): State {
    s.(peak := Max(s.peak, Unremoved(s.slots, s.ws)))
  }

  function Step(s: State, l: Label): State {
    Observe(if IsWorkerLabel(l) then WorkerStep(s, l) else LockStep(s, l))
  }

  function Run(s: State, ls: seq<Label>): State
    decreases |ls|
  {
    if ls == [] then s else Step(Run(s, ls[..|ls| - 1]), ls[|ls| - 1])
  }

  // ----- What the counters mean -----

  predicate InCount(w: Worker) {
    !w.pc.Placed? && !w.pc.Gone?
  }

  predicate InIdle(w: Worker) {
    w.pc.Ready? || w.pc.New? || w.pc.Idle? || w.pc.Returned? || w.pc.NotIdle?
  }

  function CountIn(ws: seq<Worker>): nat {
    if ws == [] then 0 else CountIn(ws[..|ws| - 1]) + if InCount(ws[|ws| - 1]) then 1 else 0
  }

  function IdleIn(ws: seq<Worker>): nat {
    if ws == [] then 0 else IdleIn(ws[..|ws| - 1]) + if InIdle(ws[|ws| - 1]) then 1 else 0
  }

  function One(b: bool): nat {
    if b then 1 else 0
  }

  lemma {:induction false} CountUpdate(ws: seq<Worker>, i: nat, w: Worker)
    requires i < |ws|
    ensures CountIn(ws[i := w]) == CountIn(ws) - One(InCount(ws[i])) + One(InCount(w))
    ensures IdleIn(ws[i := w]) == IdleIn(ws) - One(InIdle(ws[i])) + One(InIdle(w))
  {
    var n := |ws| - 1;
    if i == n {
      assert ws[i := w][..n] == ws[..n];
    } else {
      assert ws[i := w][..n] == ws[..n][i := w];
      CountUpdate(ws[..n], i, w);
    }
  }

  lemma {:induction false} IdleAtMostCount(ws: seq<Worker>)
    ensures IdleIn(ws) <= CountIn(ws)
  {
    if ws != [] {
      IdleAtMostCount(ws[..|ws| - 1]);
    }
  }

  lemma {:induction false} UnremovedDepends(slots: seq<nat>, ws: seq<Worker>, ws': seq<Worker>)
    requires forall i :: 0 <= i < |slots| ==> SlotLive(slots, ws, i) == SlotLive(slots, ws', i)
    ensures Unremoved(slots, ws) == Unremoved(slots, ws')
  {
    if slots != [] {
      var init := slots[..|slots| - 1];
      assert forall i :: 0 <= i < |init| ==>
             SlotLive(init, ws, i) == SlotLive(slots, ws, i)
             && SlotLive(init, ws', i) == SlotLive(slots, ws', i);
      UnremovedDepends(init, ws, ws');
    }
  }

  lemma {:induction false} UnremovedAtMost(slots: seq<nat>, ws: seq<Worker>)
    ensures Unremoved(slots, ws) <= |slots|
    ensures (forall i :: 0 <= i < |slots| ==> SlotLive(slots, ws, i)) ==> Unremoved(slots, ws) == |slots|
  {
    if slots != [] {
      var init := slots[..|slots| - 1];
      assert forall i :: 0 <= i < |init| ==> SlotLive(init, ws, i) == SlotLive(slots, ws, i);
      UnremovedAtMost(init, ws);
    }
  }

  lemma {:induction false} UnremovedUpdate(slots: seq<nat>, ws: seq<Worker>, i: nat, id: nat)
    requires i < |slots| && !SlotLive(slots, ws, i) && id < |ws| && ws[id].live
    ensures Unremoved(slots[i := id], ws) == Unremoved(slots, ws) + 1
  {
    var n := |slots| - 1;
    if i == n {
      assert slots[i := id][..n] == slots[..n];
    } else {
      assert slots[i := id][..n] == slots[..n][i := id];
      UnremovedUpdate(slots[..n], ws, i, id);
    }
  }

  // ----- The invariant of every interleaving -----

  predicate BeingAdded(w: Worker) {
    w.pc.Placed? || w.pc.Counted? || w.pc.Ready?
  }

  predicate HasReturned(w: Worker) {
    w.pc.Returned? || w.pc.NotIdle? || w.pc.Leaving? || w.pc.Gone?
  }

  /** The operation holding the lock has cleared this done variable and is about to
      close its channel. */
  predicate AboutToClose(lock: Lock, id: nat) {
    lock == Removing(id) || (lock.ClosingSlot? && lock.id == id)
  }

  predicate WorkerOk(lock: Lock, id: nat, w: Worker) {
    && w.closed <= 1
    && (w.live ==> w.closed == 0)
    && (!w.live && w.closed == 0 ==> AboutToClose(lock, id))
    && (HasReturned(w) ==> w.closed == 1)
    && (BeingAdded(w) ==> lock == Adding(id) && w.live)
  }

  ghost predicate NoneLiveBelow(slots: seq<nat>, ws: seq<Worker>, n: nat) {
    n <= |slots| && forall j :: 0 <= j < n ==> !SlotLive(slots, ws, j)
  }

  ghost predicate LockOk(slots: seq<nat>, ws: seq<Worker>, lock: Lock) {
    match lock
    case Free => true
    case Adding(id) => id < |ws| && BeingAdded(ws[id])
    case Removing(id) => id < |ws| && !ws[id].live && ws[id].closed == 0
    case Closing(i) => NoneLiveBelow(slots, ws, i)
    case ClosingSlot(i, id) =>
      && i < |slots| && slots[i] == id < |ws| && !ws[id].live && ws[id].closed == 0
      && NoneLiveBelow(slots, ws, i)
  }

  ghost predicate Workers(s: State) {
    && (forall id :: 0 <= id < |s.ws| ==> WorkerOk(s.lock, id, s.ws[id]))
    && LockOk(s.slots, s.ws, s.lock)
  }

  /** Each slot points to a worker of its own, and every unremoved worker has one. */
  ghost predicate Slots(s: State) {
    && (forall i :: 0 <= i < |s.slots| ==> s.slots[i] < |s.ws|)
    && (forall i, j :: 0 <= i < j < |s.slots| ==> s.slots[i] != s.slots[j])
    && (forall id :: 0 <= id < |s.ws| && s.ws[id].live ==> id in s.slots)
  }

  predicate Accounts(s: State) {
    s.count == CountIn(s.ws) && s.idle == IdleIn(s.ws)
  }

  ghost predicate Inv(s: State) {
    Workers(s) && Slots(s) && Accounts(s) && s.peak == |s.slots|
  }

  lemma PlaceKeepsSlots(s: State)
    requires Slots(s)
    ensures Slots(Place(s))
  {
    var id, i, t := |s.ws|, FirstFree(s.slots, s.ws), Place(s);
    assert t.slots[i] == id && t.ws[..id] == s.ws;
    forall k | 0 <= k < |t.ws| && t.ws[k].live
      ensures k in t.slots
    {
      if k < id {
        assert s.ws[k].live && k in s.slots;
        var j :| 0 <= j < |s.slots| && s.slots[j] == k;
        assert t.slots[j] == k;
      }
    }
  }

  lemma AppendUnremoved(slots: seq<nat>, ws: seq<Worker>, w: Worker)
    requires forall j :: 0 <= j < |slots| ==> SlotLive(slots, ws, j)
    requires w.live
    ensures Unremoved(slots + [|ws|], ws + [w]) == |slots| + 1
  {
    var all, ws' := slots + [|ws|], ws + [w];
    forall j | 0 <= j < |all| ensures SlotLive(all, ws', j) {
      assert j < |slots| ==> all[j] == slots[j] && SlotLive(slots, ws, j);
    }
    UnremovedAtMost(all, ws');
  }

  /** A new slot is appended only when every slot holds an unremoved worker. */
  lemma PlaceKeepsPeak(s: State)
    requires Slots(s) && s.peak == |s.slots|
    ensures Observe(Place(s)).peak == |Place(s).slots|
  {
    var t := Place(s);
    if FirstFree(s.slots, s.ws) == |s.slots| {
      AppendUnremoved(s.slots, s.ws, Worker(true, 0, false, Placed));
    } else {
      UnremovedAtMost(t.slots, t.ws);
    }
  }

  lemma PlaceKeepsWorkers(s: State)
    requires Workers(s) && s.lock.Free?
    ensures Workers(Place(s))
  {
    var id, t := |s.ws|, Place(s);
    forall k | 0 <= k < |t.ws|
      ensures WorkerOk(t.lock, k, t.ws[k])
    {
      assert k < id ==> t.ws[k] == s.ws[k] && WorkerOk(s.lock, k, s.ws[k]);
    }
  }

  lemma PlaceKeeps(s: State)
    requires Inv(s) && s.lock.Free?
    ensures Inv(Observe(Place(s)))
  {
    PlaceKeepsWorkers(s);
    PlaceKeepsSlots(s);
    PlaceKeepsPeak(s);
    assert Place(s).ws[..|s.ws|] == s.ws;
  }

  /** How many slots the close loop has been through. */
  function Through(lock: Lock): nat {
    match lock case Closing(i) => i case ClosingSlot(i, _) => i case _ => 0
  }

  lemma NoneRevived(slots: seq<nat>, ws: seq<Worker>, id: nat, w: Worker, n: nat)
    requires id < |ws| && (w.live ==> ws[id].live) && NoneLiveBelow(slots, ws, n)
    ensures NoneLiveBelow(slots, ws[id := w], n)
  {
    var ws' := ws[id := w];
    assert forall j :: 0 <= j < n ==> SlotLive(slots, ws', j) ==> SlotLive(slots, ws, j);
  }

  lemma SetWorker(s: State, id: nat, w: Worker, lock: Lock, count: int, idle: int)
    requires Inv(s) && id < |s.ws| && (w.live ==> s.ws[id].live)
    requires WorkerOk(lock, id, w)
    requires forall k :: 0 <= k < |s.ws| && k != id ==> WorkerOk(lock, k, s.ws[k])
    requires LockOk(s.slots, s.ws[id := w], lock)
    requires count == s.count - One(InCount(s.ws[id])) + One(InCount(w))
    requires idle == s.idle - One(InIdle(s.ws[id])) + One(InIdle(w))
    ensures Inv(Observe(s.(ws := s.ws[id := w], lock := lock, count := count, idle := idle)))
  {
    CountUpdate(s.ws, id, w);
    UnremovedAtMost(s.slots, s.ws[id := w]);
  }

  lemma Unchanged(s: State)
    requires Inv(s)
    ensures Observe(s) == s
  {
    UnremovedAtMost(s.slots, s.ws);
  }

  lemma WorkersKeep(s: State, l: Label)
    requires Inv(s) && IsWorkerLabel(l)
    ensures Inv(Observe(WorkerStep(s, l)))
  {
    var t := WorkerStep(s, l);
    Unchanged(s);
    if t != s {
      assert WorkerOk(s.lock, l.id, s.ws[l.id]);
      NoneRevived(s.slots, s.ws, l.id, t.ws[l.id], Through(s.lock));
      SetWorker(s, l.id, t.ws[l.id], s.lock, t.count, t.idle);
    }
  }

  lemma AddingKeeps(s: State, l: Label)
    requires Inv(s) && s.lock.Adding?
    ensures Inv(Observe(LockStep(s, l)))
  {
    var t, id := LockStep(s, l), s.lock.id;
    Unchanged(s);
    if t != s {
      assert WorkerOk(s.lock, id, s.ws[id]);
      SetWorker(s, id, t.ws[id], t.lock, t.count, t.idle);
    }
  }

  lemma ClearKeeps(s: State, id: nat, lock: Lock)
    requires Inv(s) && id < |s.ws| && s.ws[id].live
    requires (s.lock.Free? && lock == Removing(id))
             || (s.lock.Closing? && lock == ClosingSlot(s.lock.i, id) && s.lock.i < |s.slots|
                 && s.slots[s.lock.i] == id)
    ensures Inv(Observe(SetNil(s, id).(lock := lock)))
  {
    var w := s.ws[id].(live := false);
    assert WorkerOk(s.lock, id, s.ws[id]);
    NoneRevived(s.slots, s.ws, id, w, Through(s.lock));
    SetWorker(s, id, w, lock, s.count, s.idle);
  }

  lemma ToClose(s: State, id: nat)
    requires Inv(s) && AboutToClose(s.lock, id)
    ensures id < |s.ws| && !s.ws[id].live && s.ws[id].closed == 0 && WorkerOk(s.lock, id, s.ws[id])
    ensures NoneLiveBelow(s.slots, s.ws, Through(s.lock))
    ensures s.lock.ClosingSlot? ==> s.lock.i < |s.slots| && s.slots[s.lock.i] == id
  {
  }

  lemma OthersNotClosing(s: State, id: nat, lock: Lock)
    requires Inv(s) && AboutToClose(s.lock, id) && (lock.Free? || lock.Closing?)
    ensures forall k :: 0 <= k < |s.ws| && k != id ==> WorkerOk(lock, k, s.ws[k])
  {
    forall k | 0 <= k < |s.ws| && k != id ensures WorkerOk(lock, k, s.ws[k]) {
      assert WorkerOk(s.lock, k, s.ws[k]);
    }
  }

  lemma ClosedLockOk(s: State, id: nat, w: Worker, lock: Lock)
    requires Inv(s) && AboutToClose(s.lock, id) && id < |s.ws| && !w.live
    requires lock == if s.lock.Removing? then Free else Closing(s.lock.i + 1)
    ensures LockOk(s.slots, s.ws[id := w], lock)
  {
    ToClose(s, id);
    NoneRevived(s.slots, s.ws, id, w, Through(s.lock));
  }

  lemma ClosedWorkerOk(s: State, id: nat, lock: Lock)
    requires Inv(s) && AboutToClose(s.lock, id) && (lock.Free? || lock.Closing?)
    ensures id < |s.ws| && !s.ws[id].live && s.ws[id].closed == 0 && WorkerOk(lock, id, s.ws[id].(closed := 1))
  {
    ToClose(s, id);
  }

  /** Closing a channel changes no counter. */
  lemma SetClosed(s: State, id: nat, w: Worker, lock: Lock)
    requires Inv(s) && id < |s.ws| && w == s.ws[id].(closed := 1) && !w.live
    requires WorkerOk(lock, id, w) && LockOk(s.slots, s.ws[id := w], lock)
    requires forall k :: 0 <= k < |s.ws| && k != id ==> WorkerOk(lock, k, s.ws[k])
    ensures Inv(Observe(s.(ws := s.ws[id := w], lock := lock)))
  {
    SetWorker(s, id, w, lock, s.count, s.idle);
  }

  lemma CloseKeeps(s: State, id: nat, lock: Lock)
    requires Inv(s) && AboutToClose(s.lock, id)
    requires lock == if s.lock.Removing? then Free else Closing(s.lock.i + 1)
    ensures Inv(Observe(CloseOf(s, id).(lock := lock)))
  {
    ClosedWorkerOk(s, id, lock);
    var w := s.ws[id].(closed := 1);
    ClosedLockOk(s, id, w, lock);
    OthersNotClosing(s, id, lock);
    SetClosed(s, id, w, lock);
    assert CloseOf(s, id).(lock := lock) == s.(ws := s.ws[id := w], lock := lock);
  }

  /** No slot more, no new peak. */
  lemma SamePeak(s: State, t: State)
    requires Inv(s) && t.slots == s.slots && t.peak == s.peak
    ensures Observe(t) == t
  {
    UnremovedAtMost(t.slots, t.ws);
  }

  lemma LocksKeep(s: State, l: Label)
    requires Inv(s)
    ensures Inv(Observe(LockStep(s, l)))
  {
    Unchanged(s);
    match s.lock
    case Free => FreeKeeps(s, l);
    case Adding(_) => AddingKeeps(s, l);
    case Removing(id) => if l.RmClose? { CloseKeeps(s, id, Free); }
    case Closing(i) => ClosingKeeps(s, l);
    case ClosingSlot(i, id) => if l.CloseChan? { CloseKeeps(s, id, Closing(i + 1)); }
  }

  lemma FreeKeeps(s: State, l: Label)
    requires Inv(s) && s.lock.Free?
    ensures Inv(Observe(LockStep(s, l)))
  {
    Unchanged(s);
    if l.AddBegin? {
      PlaceKeeps(s);
    } else if l.RmBegin? && FirstLive(s.slots, s.ws) < |s.slots| {
      var id := s.slots[FirstLive(s.slots, s.ws)];
      ClearKeeps(s, id, Removing(id));
    }
  }

  lemma ClosingKeeps(s: State, l: Label)
    requires Inv(s) && s.lock.Closing?
    ensures Inv(Observe(LockStep(s, l)))
  {
    Unchanged(s);
    var i := s.lock.i;
    if i < |s.slots| && l.CloseNil? && SlotLive(s.slots, s.ws, i) {
      ClearKeeps(s, s.slots[i], ClosingSlot(i, s.slots[i]));
    }
  }

  lemma {:induction false} Always(ls: seq<Label>)
    ensures Inv(Run(Init(), ls))
    decreases |ls|
  {
    if ls != [] {
      var s, l := Run(Init(), ls[..|ls| - 1]), ls[|ls| - 1];
      Always(ls[..|ls| - 1]);
      if IsWorkerLabel(l) { WorkersKeep(s, l); } else { LocksKeep(s, l); }
    }
  }

  // ----- The theorems -----

  /** In every interleaving: both counters equal what the workers' program counters
      say and 0 <= idleCount <= count; every done channel is closed at most once; and
      the slot slice is as long as the most unremoved workers there ever were. */
  lemma PoolAccounting(ls: seq<Label>)
    ensures var s := Run(Init(), ls);
            && 0 <= s.idle <= s.count
            && s.count == CountIn(s.ws) && s.idle == IdleIn(s.ws)
            && (forall id :: 0 <= id < |s.ws| ==> s.ws[id].closed <= 1)
            && |s.slots| == s.peak
  {
    Always(ls);
    var s := Run(Init(), ls);
    IdleAtMostCount(s.ws);
    assert forall id :: 0 <= id < |s.ws| ==> WorkerOk(s.lock, id, s.ws[id]);
  }

  function Live(s: State): nat {
    Unremoved(s.slots, s.ws)
  }

  lemma PeakGrows(s: State, l: Label)
    ensures Step(s, l).peak == Max(s.peak, Live(Step(s, l)))
  {
    assert (if IsWorkerLabel(l) then WorkerStep(s, l) else LockStep(s, l)).peak == s.peak;
  }

  /** The history variable is what its name says. */
  lemma {:induction false} PeakIsMax(ls: seq<Label>, n: nat)
    requires n <= |ls|
    ensures Live(Run(Init(), ls[..n])) <= Run(Init(), ls).peak
    decreases |ls|
  {
    if n == |ls| {
      assert ls[..n] == ls;
      if ls != [] { PeakGrows(Run(Init(), ls[..|ls| - 1]), ls[|ls| - 1]); }
    } else {
      assert ls[..|ls| - 1][..n] == ls[..n];
      PeakIsMax(ls[..|ls| - 1], n);
      PeakGrows(Run(Init(), ls[..|ls| - 1]), ls[|ls| - 1]);
    }
  }

  lemma {:induction false} PeakIsReached(ls: seq<Label>) returns (n: nat)
    ensures n <= |ls| && Live(Run(Init(), ls[..n])) == Run(Init(), ls).peak
    decreases |ls|
  {
    if ls == [] || Live(Run(Init(), ls)) == Run(Init(), ls).peak {
      n := |ls|;
      assert ls[..n] == ls;
    } else {
      n := PeakIsReached(ls[..|ls| - 1]);
      PeakGrows(Run(Init(), ls[..|ls| - 1]), ls[|ls| - 1]);
      assert ls[..|ls| - 1][..n] == ls[..n];
    }
  }

  lemma SlotOf(s: State, id: nat)
    requires Slots(s) && id < |s.ws| && s.ws[id].live
    ensures exists j :: 0 <= j < |s.slots| && SlotLive(s.slots, s.ws, j)
  {
    var j :| 0 <= j < |s.slots| && s.slots[j] == id;
    assert SlotLive(s.slots, s.ws, j);
  }

  lemma AllClosed(s: State)
    requires Inv(s) && s.lock == Closing(|s.slots|)
    ensures forall id :: 0 <= id < |s.ws| ==> !s.ws[id].live && s.ws[id].closed == 1
  {
    forall id | 0 <= id < |s.ws|
      ensures !s.ws[id].live && s.ws[id].closed == 1
    {
      assert WorkerOk(s.lock, id, s.ws[id]);
      if s.ws[id].live {
        SlotOf(s, id);
      }
    }
  }

  /** When the close loop is through, and still holds the lock, no worker is left
      unremoved, and each one's channel has been closed exactly once. */
  lemma CloseRemovesAll(ls: seq<Label>)
    requires var s := Run(Init(), ls); s.lock == Closing(|s.slots|)
    ensures var s := Run(Init(), ls); forall id :: 0 <= id < |s.ws| ==> !s.ws[id].live && s.ws[id].closed == 1
  {
    Always(ls);
    AllClosed(Run(Init(), ls));
  }

  // ----- Which removed workers leave -----

  /** A worker that read a nil channel at its start. */
  predicate Deaf(w: Worker) {
    !w.sees && (w.pc.Idle? || w.pc.Working?)
  }

  /** Deaf, or about to be: not started yet, and its done variable is nil. */
  predicate Stuck(w: Worker) {
    Deaf(w) || (w.pc.New? && !w.live)
  }

  lemma StuckWorkerStays(s: State, l: Label, id: nat)
    requires id < |s.ws| && Stuck(s.ws[id])
    ensures var t := Step(s, l); id < |t.ws| && Stuck(t.ws[id])
  {
    if IsWorkerLabel(l) {
      assert l.id != id ==> WorkerStep(s, l).ws == s.ws || WorkerStep(s, l).ws[id] == s.ws[id];
    } else {
      var w, t := s.ws[id], LockStep(s, l);
      assert t.ws[id].pc == w.pc || (BeingAdded(w) && !Stuck(w));
      assert t.ws[id].sees == w.sees && (t.ws[id].live ==> w.live);
    }
  }

  lemma {:induction false} StuckWorkersStay(s: State, ls: seq<Label>, id: nat)
    requires id < |s.ws| && Stuck(s.ws[id])
    ensures var t := Run(s, ls); id < |t.ws| && Stuck(t.ws[id])
    decreases |ls|
  {
    if ls != [] {
      StuckWorkersStay(s, ls[..|ls| - 1], id);
      StuckWorkerStays(Run(s, ls[..|ls| - 1]), ls[|ls| - 1], id);
    }
  }

  lemma {:induction false} RunFirst(s: State, l: Label, ls: seq<Label>)
    ensures Run(s, [l] + ls) == Run(Step(s, l), ls)
    decreases |ls|
  {
    var all := [l] + ls;
    if ls == [] {
      assert all == [l] && all[..0] == [];
    } else {
      assert all[..|all| - 1] == [l] + ls[..|ls| - 1];
      RunFirst(s, l, ls[..|ls| - 1]);
    }
  }

  predicate WorkersOnly(ls: seq<Label>) {
    forall l :: l in ls ==> IsWorkerLabel(l)
  }

  /** How far a started worker is from gone. */
  function ToGo(w: Worker): nat {
    match w.pc
    case Working => 5
    case Idle => 4
    case Returned => 3
    case NotIdle => 2
    case Leaving => 1
    case _ => 0
  }

  /** The worker's own next action on its way out. */
  function WayOut(w: Worker, id: nat): Label {
    match w.pc
    case Working => Rest(id)
    case Idle => SeeDone(id)
    case Returned => Deferred(id)
    case NotIdle => DropIdle(id)
    case _ => DropCount(id)
  }

  /** A started worker that heard of its removal walks out by itself. */
  lemma {:induction false} WalksOut(s: State, id: nat) returns (ls: seq<Label>)
    requires id < |s.ws| && !s.ws[id].live && s.ws[id].closed == 1
    requires !BeingAdded(s.ws[id]) && !Stuck(s.ws[id])
    ensures WorkersOnly(ls)
    ensures var t := Run(s, ls); id < |t.ws| && t.ws[id].pc.Gone?
    decreases ToGo(s.ws[id])
  {
    if s.ws[id].pc.Gone? {
      ls := [];
    } else {
      var l := WayOut(s.ws[id], id);
      var rest := WalksOut(Step(s, l), id);
      RunFirst(s, l, rest);
      ls := [l] + rest;
    }
  }

  /** The workers alone can bring this one to its end. */
  ghost predicate CanLeave(s: State, id: nat) {
    exists ls: seq<Label> :: WorkersOnly(ls) && IsGone(Run(s, ls), id)
  }

  predicate IsGone(s: State, id: nat) {
    id < |s.ws| && s.ws[id].pc.Gone?
  }

  /** In every run, a worker whose channel was closed can leave exactly when it neither
      read nil at its start nor is still to do so; the others never leave, whatever is
      scheduled, and stay in both counters. */
  lemma RemovedWorkerLeavesIff(ls: seq<Label>, id: nat)
    requires var s := Run(Init(), ls); id < |s.ws| && s.ws[id].closed == 1
    ensures var s := Run(Init(), ls);
            && (CanLeave(s, id) <==> !Stuck(s.ws[id]))
            && (Stuck(s.ws[id]) ==> forall more: seq<Label> :: NotGoneAfter(s, more, id))
  {
    Always(ls);
    var s := Run(Init(), ls);
    assert WorkerOk(s.lock, id, s.ws[id]);
    if Stuck(s.ws[id]) {
      forall more: seq<Label> ensures NotGoneAfter(s, more, id) {
        StuckWorkersStay(s, more, id);
      }
      forall more: seq<Label> ensures !IsGone(Run(s, more), id) {
        assert NotGoneAfter(s, more, id);
      }
    } else {
      var more := WalksOut(s, id);
      assert IsGone(Run(s, more), id);
    }
  }

  ghost predicate NotGoneAfter(s: State, more: seq<Label>, id: nat) {
    var t := Run(s, more);
    id < |t.ws| && !t.ws[id].pc.Gone? && InCount(t.ws[id])
  }

  /** One worker is added, and removed before its goroutine has started. */
  const EARLY_REMOVAL: seq<Label> := [AddBegin, AddCount, AddIdle, AddSpawn, RmBegin, RmClose, Start(0)]

  /** addWorker under way: the new worker, in its slot, is at pc. */
  function Mid(slots: seq<nat>, ws: seq<Worker>, pc: Pc, count: int, idle: int): State {
    State(slots, ws + [Worker(true, 0, false, pc)], if pc.New? then Free else Adding(|ws|), count, idle, |slots|)
  }

  /** What the four actions of addWorker come to. */
  function Added(s: State): State {
    Mid(PlaceIn(s.slots, s.ws, |s.ws|), s.ws, New, s.count + 1, s.idle + 1)
  }

  predicate InMid(pc: Pc) { pc.Placed? || pc.Counted? || pc.Ready? }

  /** The actions of addWorker after the first, and what each does to the counters. */
  function MidLabel(pc: Pc): Label
    requires InMid(pc)
  {
    match pc
    case Placed => AddCount
    case Counted => AddIdle
    case _ => AddSpawn
  }

  function MidNext(slots: seq<nat>, ws: seq<Worker>, pc: Pc, c: int, i: int): State
    requires InMid(pc)
  {
    match pc
    case Placed => Mid(slots, ws, Counted, c + 1, i)
    case Counted => Mid(slots, ws, Ready, c, i + 1)
    case _ => Mid(slots, ws, New, c, i)
  }

  lemma MidStep(slots: seq<nat>, ws: seq<Worker>, pc: Pc, c: int, i: int)
    requires InMid(pc)
    ensures Step(Mid(slots, ws, pc, c, i), MidLabel(pc)) == MidNext(slots, ws, pc, c, i)
  {
    var m, t := Mid(slots, ws, pc, c, i), MidNext(slots, ws, pc, c, i);
    assert t.ws == m.ws[|ws| := m.ws[|ws|].(pc := t.ws[|ws|].pc)];
    assert LockStep(m, MidLabel(pc)) == t;
    UnremovedAtMost(t.slots, t.ws);
  }

  lemma MidKeeps(slots: seq<nat>, ws: seq<Worker>, pc: Pc, c: int, i: int)
    requires InMid(pc) && Inv(Mid(slots, ws, pc, c, i))
    ensures Inv(MidNext(slots, ws, pc, c, i))
  {
    MidStep(slots, ws, pc, c, i);
    LocksKeep(Mid(slots, ws, pc, c, i), MidLabel(pc));
  }

  lemma MidFirst(s: State, slots: seq<nat>)
    requires Inv(s) && s.lock.Free? && slots == PlaceIn(s.slots, s.ws, |s.ws|)
    ensures Step(s, AddBegin) == Mid(slots, s.ws, Placed, s.count, s.idle)
            && Inv(Mid(slots, s.ws, Placed, s.count, s.idle))
  {
    LocksKeep(s, AddBegin);
  }

  lemma RunLast(s: State, ls: seq<Label>, l: Label)
    ensures Run(s, ls + [l]) == Step(Run(s, ls), l)
  {
    assert (ls + [l])[..|ls|] == ls;
  }

  lemma RunOn(from: State, ls: seq<Label>, s: State, l: Label, t: State) returns (more: seq<Label>)
    requires Run(from, ls) == s && Step(s, l) == t
    ensures more == ls + [l] && Run(from, more) == t
  {
    more := ls + [l];
    RunLast(from, ls, l);
  }

  lemma MidRun(from: State, ls: seq<Label>, slots: seq<nat>, ws: seq<Worker>, pc: Pc, c: int, i: int)
    returns (more: seq<Label>)
    requires InMid(pc) && Run(from, ls) == Mid(slots, ws, pc, c, i)
    ensures more == ls + [MidLabel(pc)] && Run(from, more) == MidNext(slots, ws, pc, c, i)
  {
    MidStep(slots, ws, pc, c, i);
    more := RunOn(from, ls, Mid(slots, ws, pc, c, i), MidLabel(pc), MidNext(slots, ws, pc, c, i));
  }

  lemma MidIsReady(from: State, ls: seq<Label>, slots: seq<nat>, ws: seq<Worker>, c: int, i: int)
    returns (more: seq<Label>)
    requires Run(from, ls) == Mid(slots, ws, Placed, c, i)
    ensures more == ls + [AddCount, AddIdle] && Run(from, more) == Mid(slots, ws, Ready, c + 1, i + 1)
  {
    var l2 := MidRun(from, ls, slots, ws, Placed, c, i);
    more := MidRun(from, l2, slots, ws, Counted, c + 1, i);
  }

  lemma MidIsAdded(from: State, ls: seq<Label>, slots: seq<nat>, ws: seq<Worker>, c: int, i: int)
    returns (more: seq<Label>)
    requires Run(from, ls) == Mid(slots, ws, Placed, c, i)
    ensures more == ls + [AddCount, AddIdle, AddSpawn] && Run(from, more) == Mid(slots, ws, New, c + 1, i + 1)
  {
    var l3 := MidIsReady(from, ls, slots, ws, c, i);
    more := MidRun(from, l3, slots, ws, Ready, c + 1, i + 1);
  }

  lemma AddIsAdded(from: State, ls: seq<Label>, s: State, slots: seq<nat>) returns (more: seq<Label>)
    requires Run(from, ls) == s && Step(s, AddBegin) == Mid(slots, s.ws, Placed, s.count, s.idle)
    ensures more == ls + [AddBegin, AddCount, AddIdle, AddSpawn]
    ensures Run(from, more) == Mid(slots, s.ws, New, s.count + 1, s.idle + 1)
  {
    var first := RunOn(from, ls, s, AddBegin, Mid(slots, s.ws, Placed, s.count, s.idle));
    more := MidIsAdded(from, first, slots, s.ws, s.count, s.idle);
  }

  lemma ReadyInSteps(slots: seq<nat>, ws: seq<Worker>, c: int, i: int)
    ensures Step(Step(Mid(slots, ws, Placed, c, i), AddCount), AddIdle) == Mid(slots, ws, Ready, c + 1, i + 1)
  {
    MidStep(slots, ws, Placed, c, i);
    MidStep(slots, ws, Counted, c + 1, i);
  }

  lemma SpawnedStep(slots: seq<nat>, ws: seq<Worker>, c: int, i: int)
    ensures Step(Mid(slots, ws, Ready, c + 1, i + 1), AddSpawn) == Mid(slots, ws, New, c + 1, i + 1)
  {
    MidStep(slots, ws, Ready, c + 1, i + 1);
  }

  lemma InSteps(s: State, placed: State, ready: State, t: State)
    requires Step(s, AddBegin) == placed && Step(Step(placed, AddCount), AddIdle) == ready && Step(ready, AddSpawn) == t
    ensures Step(Step(Step(Step(s, AddBegin), AddCount), AddIdle), AddSpawn) == t
  {
  }

  lemma AddedInSteps(s: State)
    requires Inv(s) && s.lock.Free?
    ensures Step(Step(Step(Step(s, AddBegin), AddCount), AddIdle), AddSpawn) == Added(s)
  {
    var slots, c, i := PlaceIn(s.slots, s.ws, |s.ws|), s.count, s.idle;
    MidFirst(s, slots);
    ReadyInSteps(slots, s.ws, c, i);
    SpawnedStep(slots, s.ws, c, i);
    InSteps(s, Mid(slots, s.ws, Placed, c, i), Mid(slots, s.ws, Ready, c + 1, i + 1), Added(s));
  }

  lemma MidAllKeep(slots: seq<nat>, ws: seq<Worker>, c: int, i: int)
    requires Inv(Mid(slots, ws, Placed, c, i))
    ensures Inv(Mid(slots, ws, New, c + 1, i + 1))
  {
    MidKeeps(slots, ws, Placed, c, i);
    MidKeeps(slots, ws, Counted, c + 1, i);
    MidKeeps(slots, ws, Ready, c + 1, i + 1);
  }

  lemma AddedKeeps(s: State)
    requires Inv(s) && s.lock.Free?
    ensures Inv(Added(s))
  {
    var slots := PlaceIn(s.slots, s.ws, |s.ws|);
    MidFirst(s, slots);
    MidAllKeep(slots, s.ws, s.count, s.idle);
  }

  lemma OneRemoved(s: State, t: State)
    requires s == State([0], [Worker(true, 0, false, New)], Free, 1, 1, 1)
    requires t == State([0], [Worker(false, 0, false, New)], Removing(0), 1, 1, 1)
    ensures Step(s, RmBegin) == t && Step(t, RmClose) == State([0], [Worker(false, 1, false, New)], Free, 1, 1, 1)
  {
    assert SlotLive(s.slots, s.ws, 0) && FirstLive(s.slots, s.ws) == 0;
    assert LockStep(s, RmBegin) == t;
    UnremovedAtMost(t.slots, t.ws);
    var u := LockStep(t, RmClose);
    assert u == State([0], [Worker(false, 1, false, New)], Free, 1, 1, 1);
    UnremovedAtMost(u.slots, u.ws);
  }

  lemma FirstAdded()
    ensures Inv(Init()) && Added(Init()) == State([0], [Worker(true, 0, false, New)], Free, 1, 1, 1)
  {
  }

  lemma RemovedRun(ls: seq<Label>) returns (more: seq<Label>)
    requires Run(Init(), ls) == State([0], [Worker(true, 0, false, New)], Free, 1, 1, 1)
    ensures more == ls + [RmBegin, RmClose]
            && Run(Init(), more) == State([0], [Worker(false, 1, false, New)], Free, 1, 1, 1)
  {
    var s, t := State([0], [Worker(true, 0, false, New)], Free, 1, 1, 1),
        State([0], [Worker(false, 0, false, New)], Removing(0), 1, 1, 1);
    OneRemoved(s, t);
    var begun := RunOn(Init(), ls, s, RmBegin, t);
    more := RunOn(Init(), begun, t, RmClose, State([0], [Worker(false, 1, false, New)], Free, 1, 1, 1));
  }

  lemma StartedRun(ls: seq<Label>) returns (more: seq<Label>)
    requires Run(Init(), ls) == State([0], [Worker(false, 1, false, New)], Free, 1, 1, 1)
    ensures more == ls + [Start(0)] && Run(Init(), more) == State([0], [Worker(false, 1, false, Idle)], Free, 1, 1, 1)
  {
    var s := State([0], [Worker(false, 1, false, New)], Free, 1, 1, 1);
    OneStarted(s);
    more := RunOn(Init(), ls, s, Start(0), State([0], [Worker(false, 1, false, Idle)], Free, 1, 1, 1));
  }

  lemma EarlyRemoval() returns (ls: seq<Label>)
    ensures ls == EARLY_REMOVAL && Run(Init(), ls) == State([0], [Worker(false, 1, false, Idle)], Free, 1, 1, 1)
  {
    FirstAdded();
    MidFirst(Init(), [0]);
    var added := AddIsAdded(Init(), [], Init(), [0]);
    var removed := RemovedRun(added);
    ls := StartedRun(removed);
  }

  lemma OneStarted(s: State)
    requires s == State([0], [Worker(false, 1, false, New)], Free, 1, 1, 1)
    ensures Step(s, Start(0)) == State([0], [Worker(false, 1, false, Idle)], Free, 1, 1, 1)
  {
    var t := WorkerStep(s, Start(0));
    assert t == State([0], [Worker(false, 1, false, Idle)], Free, 1, 1, 1);
    UnremovedAtMost(t.slots, t.ws);
  }

  /** "A removed worker exits" is false: this run removes a worker before it has read its
      done variable, and no continuation brings it to its end. */
  lemma RemovedWorkerStays() returns (ls: seq<Label>)
    ensures var s := Run(Init(), ls);
            |s.ws| == 1 && s.ws[0].closed == 1 && !CanLeave(s, 0) && forall more: seq<Label> :: NotGoneAfter(s, more, 0)
  {
    ls := EarlyRemoval();
    RemovedWorkerLeavesIff(ls, 0);
  }

  /** The same workers, each where it was. */
  ghost predicate SamePlace(ws: seq<Worker>, ws': seq<Worker>) {
    |ws| == |ws'| && forall id :: 0 <= id < |ws| ==> ws[id].pc == ws'[id].pc && ws[id].sees == ws'[id].sees
  }

  // ----- The code -----

  /** workerPool, with its operations as they run while no one else holds the lock. */
  class Pool {
    var workers: seq<nat>
    var made: seq<Worker>
    var lock: Lock
    var count: int
    var idleCount: int
    ghost var peak: nat

    ghost function Value(): State
      reads this
    {
      State(workers, made, lock, count, idleCount, peak)
    }

    constructor ()
      ensures Value() == Init()
    {
      workers, made, lock, count, idleCount, peak := [], [], Free, 0, 0, 0;
    }

    /** The loop over the slots, and the append when all are taken. */
    method TakeSlot(id: nat)
      requires forall k :: 0 <= k < |workers| ==> workers[k] < |made|
      modifies this`workers
      ensures workers == PlaceIn(old(workers), made, id)
    {
      ghost var slots := workers;
      var added := false;
      var i := 0;
      while i < |workers| && !added
        invariant i <= |workers|
        invariant !added ==> workers == slots && FirstFree(slots, made) == FirstFree(slots, made, i)
        invariant added ==> FirstFree(slots, made) < |slots| && workers == PlaceIn(slots, made, id)
        decreases |workers| - i, !added
      {
        if !made[workers[i]].live {
          workers := workers[i := id];
          added := true;
        } else {
          i := i + 1;
        }
      }
      if !added {
        workers := workers + [id];
      }
    }

    /** A new worker in the first free slot. */
    method Place() returns (id: nat)
      requires Inv(Value()) && lock.Free?
      modifies this
      ensures Inv(Value()) && Value() == Step(old(Value()), AddBegin)
      ensures id == |old(made)| && lock == Adding(id) && made[id].pc.Placed?
    {
      MidFirst(Value(), PlaceIn(workers, made, |made|));
      id := |made|;
      TakeSlot(id);
      made := made + [Worker(true, 0, false, Placed)];
      lock, peak := Adding(id), Max(peak, Unremoved(workers, made));
    }

    method IncCount(id: nat)
      requires Inv(Value()) && lock == Adding(id) && made[id].pc.Placed?
      modifies this
      ensures Inv(Value()) && Value() == Step(old(Value()), AddCount)
      ensures lock == Adding(id) && made[id].pc.Counted?
    {
      LocksKeep(Value(), AddCount);
      count, made := count + 1, made[id := made[id].(pc := Counted)];
      Unchanged(Value());
    }

    method IncIdle(id: nat)
      requires Inv(Value()) && lock == Adding(id) && made[id].pc.Counted?
      modifies this
      ensures Inv(Value()) && Value() == Step(old(Value()), AddIdle)
      ensures lock == Adding(id) && made[id].pc.Ready?
    {
      LocksKeep(Value(), AddIdle);
      idleCount, made := idleCount + 1, made[id := made[id].(pc := Ready)];
      Unchanged(Value());
    }

    method Spawn(id: nat)
      requires Inv(Value()) && lock == Adding(id) && made[id].pc.Ready?
      modifies this
      ensures Inv(Value()) && Value() == Step(old(Value()), AddSpawn) && lock.Free?
    {
      LocksKeep(Value(), AddSpawn);
      lock, made := Free, made[id := made[id].(pc := New)];
      Unchanged(Value());
    }

    method AddWorker()
      requires Inv(Value()) && lock.Free?
      modifies this
      ensures Inv(Value()) && lock.Free?
      ensures Value() == Step(Step(Step(Step(old(Value()), AddBegin), AddCount), AddIdle), AddSpawn)
      ensures Value() == Added(old(Value()))
    {
      AddedInSteps(Value());
      var id := Place();
      IncCount(id);
      IncIdle(id);
      Spawn(id);
    }

    /** Clears the done variable of slot `i`. */
    method ClearSlot(i: nat, next: Lock) returns (id: nat)
      requires Inv(Value()) && i < |workers| && SlotLive(workers, made, i)
      requires (lock.Free? && next == Removing(workers[i]))
               || (lock == Closing(i) && next == ClosingSlot(i, workers[i]))
      modifies this
      ensures Inv(Value()) && workers == old(workers) && id == workers[i] < |old(made)| && lock == next
      ensures Value() == Observe(SetNil(old(Value()), id).(lock := next))
    {
      id := workers[i];
      ClearKeeps(Value(), id, next);
      made := made[id := made[id].(live := false)];
      lock := next;
      UnremovedAtMost(workers, made);
    }

    /** close(done), after the variable was cleared. */
    method CloseChannel(id: nat, next: Lock)
      requires Inv(Value()) && AboutToClose(lock, id)
      requires next == if lock.Removing? then Free else Closing(lock.i + 1)
      modifies this
      ensures Inv(Value()) && lock == next && workers == old(workers) && id < |old(made)|
      ensures Value() == Observe(CloseOf(old(Value()), id).(lock := next))
    {
      ghost var s := Value();
      ToClose(s, id);
      CloseKeeps(s, id, next);
      SamePeak(s, CloseOf(s, id).(lock := next));
      made := made[id := made[id].(closed := made[id].closed + 1)];
      lock := next;
      assert Value() == CloseOf(s, id).(lock := next);
    }

    /** The loop of rmWorker over the slots. */
    method FirstUnremoved() returns (i: nat)
      requires forall k :: 0 <= k < |workers| ==> workers[k] < |made|
      ensures i <= |workers| && i == FirstLive(workers, made)
    {
      i := 0;
      while i < |workers| && !made[workers[i]].live
        invariant i <= |workers|
        invariant FirstLive(workers, made) == FirstLive(workers, made, i)
      {
        i := i + 1;
      }
    }

    /** rmWorker: the first slot with a worker, or nothing when all were removed. */
    method RmWorker()
      requires Inv(Value()) && lock.Free?
      modifies this
      ensures Inv(Value()) && lock.Free?
      ensures Value() == Step(Step(old(Value()), RmBegin), RmClose)
    {
      Unchanged(Value());
      var i := FirstUnremoved();
      if i == |workers| {
        return;
      }
      var id := ClearSlot(i, Removing(workers[i]));
      CloseChannel(id, Free);
    }

    /** A worker's goroutine takes its next action. */
    method Act(l: Label)
      requires Inv(Value()) && IsWorkerLabel(l)
      modifies this
      ensures Inv(Value()) && Value() == Step(old(Value()), l)
    {
      WorkersKeep(Value(), l);
      if l.id < |made| {
        Move(l, made[l.id]);
      }
      peak := Max(peak, Unremoved(workers, made));
    }

    method Move(l: Label, w: Worker)
      requires IsWorkerLabel(l) && l.id < |made| && w == made[l.id]
      modifies this
      ensures Value() == WorkerStep(old(Value()), l)
    {
      var id := l.id;
      match l
      case Start(_) =>
        if w.pc.New? { made := made[id := w.(sees := w.live, pc := Idle)]; }
      case Work(_) =>
        if w.pc.Idle? { made, idleCount := made[id := w.(pc := Working)], idleCount - 1; }
      case Rest(_) =>
        if w.pc.Working? { made, idleCount := made[id := w.(pc := Idle)], idleCount + 1; }
      case SeeDone(_) =>
        if w.pc.Idle? && w.sees && w.closed > 0 { made := made[id := w.(pc := Returned)]; }
      case Deferred(_) =>
        if w.pc.Returned? {
          made := made[id := w.(pc := NotIdle)];
          if w.live { made := made[id := w.(live := false, closed := w.closed + 1, pc := NotIdle)]; }
        }
      case DropIdle(_) =>
        if w.pc.NotIdle? { made, idleCount := made[id := w.(pc := Leaving)], idleCount - 1; }
      case DropCount(_) =>
        if w.pc.Leaving? { made, count := made[id := w.(pc := Gone)], count - 1; }
    }

    /** One turn of the loop of close. */
    method CloseSlot(i: nat)
      requires Inv(Value()) && lock == Closing(i) && i < |workers|
      modifies this
      ensures Inv(Value()) && lock == Closing(i + 1) && workers == old(workers)
      ensures count == old(count) && idleCount == old(idleCount) && SamePlace(old(made), made)
    {
      if made[workers[i]].live {
        var id := ClearSlot(i, ClosingSlot(i, workers[i]));
        CloseChannel(id, Closing(i + 1));
      } else {
        lock := Closing(i + 1);
      }
    }

    /** The loop of close: afterwards no worker is left unremoved. */
    method CloseAll()
      requires Inv(Value()) && lock.Free?
      modifies this
      ensures Inv(Value()) && lock.Free? && workers == old(workers)
      ensures count == old(count) && idleCount == old(idleCount) && SamePlace(old(made), made)
      ensures forall id :: 0 <= id < |made| ==> !made[id].live && made[id].closed == 1
    {
      lock := Closing(0);
      var i := 0;
      while i < |workers|
        invariant i <= |workers| && workers == old(workers)
        invariant count == old(count) && idleCount == old(idleCount) && SamePlace(old(made), made)
        invariant Inv(Value()) && lock == Closing(i)
      {
        CloseSlot(i);
        i := i + 1;
      }
      AllClosed(Value());
      lock := Free;
    }
  }
}
