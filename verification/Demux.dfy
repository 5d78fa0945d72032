/** Streams multiplexed on one connection: the dispatch loop of the stream transport
  (streamtransportserver.go) and that of the channel transport (chantransportserver.go).

  `Demux` is the reference: what one message causes depends only on the earlier
  messages with the same stream id.  Both loops keep a map of open streams instead and
  are proved to produce the same events. */
module Demux {
  import opened Collections
  import Framing

  /** A message as it reaches the loop; only the stream transport decodes, so only it
      sees `Undecodable`. */
  datatype Body = CloseMsg | Known(msg: int) | Other(msg: int) | Undecodable

  datatype Item = Item(id: nat, body: Body)

  /** A server-side stream: its id and how many streams of that id came before. */
  datatype Stream = Stream(id: nat, gen: nat)

  datatype Event =
    | OnNew(st: Stream)                     // fnOnNewStream
    | OnClose(st: Stream)                   // fnOnStreamClose
    | Enqueue(st: Stream, msg: int)         // mq.putMetaMsg; the handler answers on st
    | Private(st: Stream, msg: int)         // st.privateChan
    | Refuse(st: Stream)                    // the decode error, sent on st

  // ----- The reference -----

  predicate IsOpen(items: seq<Item>, id: nat) {
    items != [] &&
    var last := items[|items| - 1];
    if last.id == id then !last.body.CloseMsg? else IsOpen(items[..|items| - 1], id)
  }

  function Closes(items: seq<Item>, id: nat): nat {
    if items == [] then 0
    else
      var last := items[|items| - 1];
      Closes(items[..|items| - 1], id) + if last == Item(id, CloseMsg) then 1 else 0
  }

  function React(st: Stream, body: Body): Event {
    match body
    case CloseMsg => OnClose(st)
    case Known(m) => Enqueue(st, m)
    case Other(m) => Private(st, m)
    case Undecodable => Refuse(st)
  }

  function Outputs(before: seq<Item>, item: Item): seq<Event> {
    var st := Stream(item.id, Closes(before, item.id));
    (if IsOpen(before, item.id) then [] else [OnNew(st)]) + [React(st, item.body)]
  }

  function Demux(items: seq<Item>): seq<Event> {
    if items == [] then []
    else Demux(items[..|items| - 1]) + Outputs(items[..|items| - 1], items[|items| - 1])
  }

  // ----- Parts of a sequence -----

  function Filter<T>(s: seq<T>, p: T -> bool): seq<T> {
    if s == [] then []
    else
      var init, last := Filter(s[..|s| - 1], p), s[|s| - 1];
      if p(last) then init + [last] else init
  }

  lemma FilterAppend<T>(s: seq<T>, x: T, p: T -> bool)
    ensures Filter(s + [x], p) == if p(x) then Filter(s, p) + [x] else Filter(s, p)
  {
    assert (s + [x])[..|s|] == s;
  }

  function Chosen<T>(x: T, p: T -> bool): seq<T> {
    if p(x) then [x] else []
  }

  lemma FilterOutputs(es: seq<Event>, before: seq<Item>, item: Item, p: Event -> bool)
    ensures var st := Stream(item.id, Closes(before, item.id));
            Filter(es + Outputs(before, item), p)
            == Filter(es, p) + (if IsOpen(before, item.id) then [] else Chosen(OnNew(st), p))
               + Chosen(React(st, item.body), p)
  {
    var st := Stream(item.id, Closes(before, item.id));
    var first, react := OnNew(st), React(st, item.body);
    if IsOpen(before, item.id) {
      FilterAppend(es, react, p);
      assert Outputs(before, item) == [react];
    } else {
      FilterAppend(es, first, p);
      FilterAppend(es + [first], react, p);
      assert es + Outputs(before, item) == (es + [first]) + [react];
    }
  }

  // ----- Streams never mix -----

  function ItemOf(id: nat): Item -> bool { (i: Item) => i.id == id }

  function EventOf(id: nat): Event -> bool { (e: Event) => e.st.id == id }

  lemma Appended(items: seq<Item>, tm: Item, id: nat)
    ensures IsOpen(items + [tm], id) == if tm.id == id then !tm.body.CloseMsg? else IsOpen(items, id)
    ensures Closes(items + [tm], id) == Closes(items, id) + if tm == Item(id, CloseMsg) then 1 else 0
    ensures Demux(items + [tm]) == Demux(items) + Outputs(items, tm)
  {
    assert (items + [tm])[..|items|] == items;
  }

  lemma {:induction false} OwnHistory(items: seq<Item>, id: nat)
    ensures IsOpen(Filter(items, ItemOf(id)), id) == IsOpen(items, id)
    ensures Closes(Filter(items, ItemOf(id)), id) == Closes(items, id)
  {
    if items != [] {
      var init, last := items[..|items| - 1], items[|items| - 1];
      OwnHistory(init, id);
      Appended(Filter(init, ItemOf(id)), last, id);
    }
  }

  lemma NextOfStream(es: seq<Event>, init: seq<Item>, last: Item, id: nat)
    requires Filter(es, EventOf(id)) == Demux(Filter(init, ItemOf(id)))
    ensures Filter(es + Outputs(init, last), EventOf(id)) == Demux(Filter(init + [last], ItemOf(id)))
  {
    FilterOutputs(es, init, last, EventOf(id));
    FilterAppend(init, last, ItemOf(id));
    if last.id == id {
      Appended(Filter(init, ItemOf(id)), last, id);
      OwnHistory(init, id);
    }
  }

  /** What a stream id sees and causes is what it would on a connection of its own. */
  lemma {:induction false} StreamsNeverMix(items: seq<Item>, id: nat)
    ensures Filter(Demux(items), EventOf(id)) == Demux(Filter(items, ItemOf(id)))
  {
    if items != [] {
      var init, last := items[..|items| - 1], items[|items| - 1];
      StreamsNeverMix(init, id);
      NextOfStream(Demux(init), init, last, id);
      assert items == init + [last];
    }
  }

  // ----- Callbacks alternate -----

  function CallbackOf(id: nat): Event -> bool { (e: Event) => e.st.id == id && (e.OnNew? || e.OnClose?) }

  /** New 0, close 0, new 1, close 1, and so on through close n - 1. */
  function Pairs(id: nat, n: nat): seq<Event> {
    if n == 0 then [] else Pairs(id, n - 1) + [OnNew(Stream(id, n - 1))] + [OnClose(Stream(id, n - 1))]
  }

  /** n pairs, and one more new for a stream that is open. */
  function Calls(id: nat, n: nat, isOpen: bool): seq<Event> {
    if isOpen then Pairs(id, n) + [OnNew(Stream(id, n))] else Pairs(id, n)
  }

  lemma NextCalls(es: seq<Event>, init: seq<Item>, last: Item, id: nat)
    requires Filter(es, CallbackOf(id)) == Calls(id, Closes(init, id), IsOpen(init, id))
    ensures Filter(es + Outputs(init, last), CallbackOf(id))
         == Calls(id, Closes(init + [last], id), IsOpen(init + [last], id))
  {
    Appended(init, last, id);
    FilterOutputs(es, init, last, CallbackOf(id));
  }

  /** Per stream id the callbacks are new, close, new, close, ..., with a last new
      exactly while the stream is open. */
  lemma {:induction false} CallbacksAlternate(items: seq<Item>, id: nat)
    ensures Filter(Demux(items), CallbackOf(id)) == Calls(id, Closes(items, id), IsOpen(items, id))
  {
    if items != [] {
      var init, last := items[..|items| - 1], items[|items| - 1];
      CallbacksAlternate(init, id);
      NextCalls(Demux(init), init, last, id);
      assert items == init + [last];
    }
  }

  // ----- Private queues -----

  function QueuedOn(st: Stream): Event -> bool { (e: Event) => e.Private? && e.st == st }

  /** The messages no handler takes, sent under st's id after st.gen closes of it, as
      what they should cause. */
  function Unhandled(items: seq<Item>, st: Stream): seq<Event> {
    if items == [] then []
    else
      var before, last := items[..|items| - 1], items[|items| - 1];
      var init := Unhandled(before, st);
      if last.body.Other? && last.id == st.id
          && Closes(before, st.id) == st.gen then init + [Private(st, last.body.msg)] else init
  }

  /** Unhandled messages reach their own stream's queue, in the order sent. */
  lemma {:induction false} QueueInSendOrder(items: seq<Item>, st: Stream)
    ensures Filter(Demux(items), QueuedOn(st)) == Unhandled(items, st)
  {
    if items != [] {
      var init, last := items[..|items| - 1], items[|items| - 1];
      QueueInSendOrder(init, st);
      FilterOutputs(Demux(init), init, last, QueuedOn(st));
    }
  }

  // ----- The loops -----

  /** The map of open streams that the loops keep. */
  ghost predicate Tracks(ssMap: map<nat, Stream>, items: seq<Item>) {
    forall id :: (id in ssMap <==> IsOpen(items, id)) && (id in ssMap ==> ssMap[id] == Stream(id, Closes(items, id)))
  }

  ghost predicate Counts(count: map<nat, nat>, items: seq<Item>) {
    forall id :: Closes(items, id) == if id in count then count[id] else 0
  }

  lemma MapsKept(ssMap: map<nat, Stream>, count: map<nat, nat>, items: seq<Item>, tm: Item)
    requires Tracks(ssMap, items) && Counts(count, items)
    ensures var st := Stream(tm.id, Closes(items, tm.id));
            if tm.body.CloseMsg?
            then Tracks(ssMap - {tm.id}, items + [tm]) && Counts(count[tm.id := st.gen + 1], items + [tm])
            else Tracks(ssMap[tm.id := st], items + [tm]) && Counts(count, items + [tm])
  {
    forall id: nat {
      Appended(items, tm, id);
    }
  }

  /** What the world does while the loop is at its select: messages arrive, the client
      may close, and when both cases are ready one of them is picked. */
  datatype Turn = Turn(arriving: seq<Item>, closing: bool, pickClose: bool)

  // ----- The channel transport's loop, a turn at a time -----

  /** `closing`: the client has closed the connection.  `closed`: the loop has seen it
      and closed the receive channel.  `done`: the loop has ended. */
  datatype Serving = Serving(accepted: seq<Item>, buffered: seq<Item>, closing: bool, closed: bool, done: bool)

  /** How many of the arriving messages the channel takes. */
  function Room(qsize: nat, buffered: seq<Item>, arriving: seq<Item>): (n: nat)
    ensures n <= |arriving|
  {
    var free := if |buffered| < qsize then qsize - |buffered| else 0;
    if |arriving| < free then |arriving| else free
  }

  function Arrived(qsize: nat, s: Serving, arriving: seq<Item>): Serving {
    if s.closed then s
    else
      var taken := arriving[..Room(qsize, s.buffered, arriving)];
      s.(accepted := s.accepted + taken, buffered := s.buffered + taken)
  }

  /** One turn at the select: it closes the channel, or dispatches the oldest message, or
      ends when the closed channel is empty. */
  function SelectTurn(s: Serving, pickClose: bool): Serving {
    if !s.closed && s.closing && (pickClose || s.buffered == []) then s.(closed := true)
    else if s.buffered != [] then s.(buffered := s.buffered[1..])
    else s.(done := s.closed)
  }

  function ServeTurn(qsize: nat, s: Serving, turn: Turn): Serving {
    if s.done then s
    else
      var u := Arrived(qsize, s, turn.arriving);
      SelectTurn(u.(closing := s.closing || turn.closing), turn.pickClose)
  }

  function Serve(qsize: nat, turns: seq<Turn>): Serving {
    if turns == [] then Serving([], [], false, false, false)
    else ServeTurn(qsize, Serve(qsize, turns[..|turns| - 1]), turns[|turns| - 1])
  }

  function Dispatched(s: Serving): seq<Item> {
    if |s.buffered| <= |s.accepted| then s.accepted[..|s.accepted| - |s.buffered|] else []
  }

  lemma {:induction false} StaysDone(qsize: nat, turns: seq<Turn>, t: nat)
    requires t <= |turns| && Serve(qsize, turns[..t]).done
    ensures Serve(qsize, turns) == Serve(qsize, turns[..t])
  {
    if t == |turns| {
      assert turns[..t] == turns;
    } else {
      assert turns[..|turns| - 1][..t] == turns[..t];
      StaysDone(qsize, turns[..|turns| - 1], t);
    }
  }

  lemma HeadOver<T>(a: seq<T>, b: seq<T>)
    requires b != []
    ensures a + b == (a + [b[0]]) + b[1..]
  {
  }

  ghost predicate Split(s: Serving, sent: seq<Item>) {
    s.accepted == sent + s.buffered
  }

  lemma SplitIsDispatched(s: Serving, sent: seq<Item>)
    requires Split(s, sent)
    ensures Dispatched(s) == sent
  {
  }

  lemma ArrivedKeeps(qsize: nat, s: Serving, arriving: seq<Item>, sent: seq<Item>)
    requires Split(s, sent)
    ensures Split(Arrived(qsize, s, arriving), sent)
    ensures |s.buffered| <= qsize ==> |Arrived(qsize, s, arriving).buffered| <= qsize
  {
    Assoc(sent, s.buffered, arriving[..Room(qsize, s.buffered, arriving)]);
  }

  /** At every moment what was accepted is what was dispatched and then what is buffered,
      within the channel's capacity; when the loop has ended, which it does only after
      the connection was closed, all of it has been dispatched. */
  lemma {:induction false} NothingIsDropped(qsize: nat, turns: seq<Turn>)
    ensures var s := Serve(qsize, turns);
            && s.accepted == Dispatched(s) + s.buffered && |s.buffered| <= qsize
            && (s.closed ==> s.closing) && (s.done ==> s.closed && Dispatched(s) == s.accepted)
  {
    if turns != [] {
      var init, turn := turns[..|turns| - 1], turns[|turns| - 1];
      NothingIsDropped(qsize, init);
      var s, t := Serve(qsize, init), Serve(qsize, turns);
      var sent := Dispatched(s);
      if !s.done {
        ArrivedKeeps(qsize, s, turn.arriving, sent);
        var u := Arrived(qsize, s, turn.arriving);
        if |t.buffered| < |u.buffered| {
          HeadOver(sent, u.buffered);
          SplitIsDispatched(t, sent + [u.buffered[0]]);
        } else {
          SplitIsDispatched(t, sent);
        }
        if t.done {
          assert t.buffered == [] && sent + [] == sent;
        }
      }
    }
  }

  /** Once the receive channel is closed nothing more is accepted, and the loop ends
      after one turn for each message still buffered and one more. */
  lemma {:induction false} DrainsAndEnds(qsize: nat, turns: seq<Turn>, t: nat)
    requires t <= |turns|
    requires var s := Serve(qsize, turns[..t]); s.closed && !s.done
    ensures var s, u := Serve(qsize, turns[..t]), Serve(qsize, turns);
            && u.closed && u.accepted == s.accepted
            && (u.done <==> |turns| - t > |s.buffered|)
            && (!u.done ==> |u.buffered| == |s.buffered| - (|turns| - t))
  {
    if t == |turns| {
      assert turns[..t] == turns;
    } else {
      assert turns[..|turns| - 1][..t] == turns[..t];
      DrainsAndEnds(qsize, turns[..|turns| - 1], t);
    }
  }

  // ----- From bytes to messages -----

  function Decoded(ps: seq<Framing.Payload>, decode: Framing.Payload -> Item): (items: seq<Item>)
    ensures |items| == |ps| && forall i :: 0 <= i < |ps| ==> items[i] == decode(ps[i])
  {
    seq(|ps|, i requires 0 <= i < |ps| => decode(ps[i]))
  }

  lemma DecodedMore(ps: seq<Framing.Payload>, p: Framing.Payload, decode: Framing.Payload -> Item)
    ensures Decoded(ps + [p], decode) == Decoded(ps, decode) + [decode(p)]
  {
  }

  /** The messages before the turn at which the transport is found closed. */
  function Until(items: seq<Item>, closedAt: nat): seq<Item> {
    if closedAt < |items| then items[..closedAt] else items
  }

  lemma DecodedUntil(ps: seq<Framing.Payload>, all: seq<Framing.Payload>, decode: Framing.Payload -> Item,
                     closedAt: nat)
    requires ps <= all && |ps| <= closedAt && (ps == all || |ps| == closedAt)
    ensures Decoded(ps, decode) == Until(Decoded(all, decode), closedAt)
  {
  }

  class Dispatcher {
    var ssMap: map<nat, Stream>
    var count: map<nat, nat>      // numbers the streams of an id; the source tells them apart by address
    var events: seq<Event>
    var disconnects: nat          // calls of fnOnDisconnect
    ghost var seen: seq<Item>

    ghost predicate Valid()
      reads this
    {
      && Tracks(ssMap, seen)
      && Counts(count, seen)
      && events == Demux(seen)
    }

    constructor ()
      ensures Valid() && seen == [] && disconnects == 0
    {
      ssMap, count, events, disconnects, seen := map[], map[], [], 0, [];
    }

    /** What both loops do with a message. */
    method Dispatch(tm: Item)
      requires Valid()
      modifies this
      ensures Valid() && seen == old(seen) + [tm] && disconnects == old(disconnects)
    {
      ghost var before := seen;
      MapsKept(ssMap, count, before, tm);
      Appended(before, tm, tm.id);
      seen := before + [tm];
      var ss;
      if tm.id in ssMap {
        ss := ssMap[tm.id];
      } else {
        ss := Stream(tm.id, if tm.id in count then count[tm.id] else 0);
        ssMap := ssMap[tm.id := ss];
        events := events + [OnNew(ss)];
      }
      assert events + [React(ss, tm.body)] == Demux(before) + Outputs(before, tm);
      if tm.body.CloseMsg? {
        events := events + [OnClose(ss)];
        ssMap := ssMap - {tm.id};
        count := count[tm.id := ss.gen + 1];
      } else if tm.body.Undecodable? {
        events := events + [Refuse(ss)];
      } else if tm.body.Known? {
        events := events + [Enqueue(ss, tm.body.msg)];
      } else {
        events := events + [Private(ss, tm.body.msg)];
      }
    }

    /** What has been dispatched are the frames parsed off the connection's bytes: the
        first ones while there is more to read, and then all. */
    ghost predicate Reading(all: seq<Framing.byte>, got: seq<Framing.Payload>, left: seq<Framing.byte>, more: bool,
                            decode: Framing.Payload -> Item)
      reads this
    {
      && Valid() && disconnects == 0 && seen == Decoded(got, decode)
      && if more then Framing.Received(all, got, left) else got == Framing.Parse(all).frames
    }

    /** One turn of the loop: reads a frame, decodes and dispatches it. */
    method HandleFrame(conn: Framing.Conn, bufSize: array<Framing.byte>, bufMsg: array<Framing.byte>,
                       decode: Framing.Payload -> Item, ghost all: seq<Framing.byte>, ghost got: seq<Framing.Payload>)
      returns (more: bool, buf: array<Framing.byte>, ghost got': seq<Framing.Payload>)
      requires bufSize.Length == 4 && bufSize != bufMsg && Reading(all, got, conn.Bytes(), true, decode)
      modifies this, conn, bufSize, bufMsg
      ensures buf == bufMsg || fresh(buf)
      ensures Reading(all, got', conn.Bytes(), more, decode)
      ensures |got'| == |got| + (if more then 1 else 0)
      ensures more ==> |conn.Bytes()| < |old(conn.Bytes())|
    {
      ghost var left := conn.Bytes();
      var turn;
      turn, buf := Framing.ReadFrame(conn, bufSize, bufMsg);
      got' := got;
      more := turn.Whole?;
      if more {
        Framing.Split(left, turn.payload, conn.Bytes());
        Framing.ReceivedOne(all, got, left, |turn.payload|);
        DecodedMore(got, turn.payload, decode);
        Dispatch(decode(turn.payload));
        got' := got + [turn.payload];
      } else {
        Framing.ReceivedAll(all, got, left);
      }
    }

    /** The loop, with its buffers. */
    method ReadLoop(conn: Framing.Conn, bufSize: array<Framing.byte>, bufMsg: array<Framing.byte>,
                    decode: Framing.Payload -> Item, closedAt: nat)
      returns (ghost got: seq<Framing.Payload>, ghost more: bool)
      requires Valid() && seen == [] && disconnects == 0 && bufSize.Length == 4 && bufSize != bufMsg
      modifies this, conn, bufSize, bufMsg
      ensures Reading(old(conn.Bytes()), got, conn.Bytes(), more, decode)
      ensures |got| <= closedAt && (more ==> |got| == closedAt)
    {
      var k, reading, buf := 0, true, bufMsg;
      ghost var all := conn.Bytes();
      got := [];
      while reading && k != closedAt
        invariant (buf == bufMsg || fresh(buf)) && bufSize != buf
        invariant Reading(all, got, conn.Bytes(), reading, decode) && |got| == k <= closedAt
        decreases reading, |conn.Bytes()|
      {
        reading, buf, got := HandleFrame(conn, bufSize, buf, decode, all, got);
        k := if reading then k + 1 else k;
      }
      more := reading;
    }

    /** handleConn of the stream transport: `decode` is what the decoder makes of a
        payload, `closedAt` the turn at whose start the transport is found closed.
        However the bytes are chopped, the events are those of the frames in them. */
    method HandleConn(conn: Framing.Conn, decode: Framing.Payload -> Item, closedAt: nat)
      requires Valid() && seen == [] && disconnects == 0
      modifies this, conn
      ensures events == Demux(Until(Decoded(Framing.Parse(old(conn.Bytes())).frames, decode), closedAt))
      ensures disconnects == 1
    {
      var bufSize := new Framing.byte[4];
      var bufMsg := new Framing.byte[Framing.BUF_SIZE];
      ghost var all := conn.Bytes();
      ghost var got, more := ReadLoop(conn, bufSize, bufMsg, decode, closedAt);
      DecodedUntil(got, Framing.Parse(all).frames, decode, closedAt);
      disconnects := disconnects + 1;
    }

    /** One turn at the loop's select, over its locals: the buffered channel, and which
        of connClose and recvChan have been closed. */
    method SelectOnce(s: Serving, pickClose: bool) returns (t: Serving)
      requires Valid() && !s.done && disconnects == 0 && Split(s, seen)
      modifies this
      ensures t == SelectTurn(s, pickClose)
      ensures Valid() && Split(t, seen) && disconnects == if t.done then 1 else 0
    {
      t := s;
      if !s.closed && s.closing && (pickClose || s.buffered == []) {
        t := t.(closed := true);
      } else if s.buffered != [] {
        var tm := s.buffered[0];
        HeadOver(seen, s.buffered);
        t := t.(buffered := s.buffered[1..]);
        Dispatch(tm);
      } else if s.closed {
        t := t.(done := true);
        disconnects := disconnects + 1;
      }
    }

    /** The per-connection loop of the channel transport: what comes of the turns is what
        `Serve` says, and what has been dispatched is what was accepted and is no longer
        buffered. */
    method ServeChan(qsize: nat, turns: seq<Turn>) returns (s: Serving)
      requires Valid() && seen == [] && disconnects == 0
      modifies this
      ensures s == Serve(qsize, turns) && disconnects == if s.done then 1 else 0
      ensures events == Demux(Dispatched(s))
    {
      s := Serving([], [], false, false, false);
      var k := 0;
      while k < |turns| && !s.done
        invariant k <= |turns| && s == Serve(qsize, turns[..k])
        invariant Valid() && Split(s, seen) && disconnects == if s.done then 1 else 0
      {
        assert turns[..k + 1][..k] == turns[..k];
        ArrivedKeeps(qsize, s, turns[k].arriving, seen);
        var u := Arrive(s, turns[k].arriving, qsize);
        s := SelectOnce(u.(closing := s.closing || turns[k].closing), turns[k].pickClose);
        k := k + 1;
      }
      if s.done {
        StaysDone(qsize, turns, k);
      }
      assert turns[..|turns|] == turns;
      SplitIsDispatched(s, seen);
    }
  }

  /** Sends that find room; the others wait for a later turn. */
  method Arrive(s: Serving, arriving: seq<Item>, qsize: nat) returns (u: Serving)
    ensures u == Arrived(qsize, s, arriving)
  {
    if s.closed {
      return s;
    }
    var a, r := s.accepted, s.buffered;
    var n := 0;
    while n < |arriving| && |r| < qsize
      invariant n <= |arriving| && (n > 0 ==> |r| <= qsize)
      invariant a == s.accepted + arriving[..n] && r == s.buffered + arriving[..n]
    {
      a, r := a + [arriving[n]], r + [arriving[n]];
      n := n + 1;
    }
    return s.(accepted := a, buffered := r);
  }
}
