/** One direction of a stream connection as a whole: senders that interleave, any part of
  the bytes they write, and what the dispatch loop at the other end makes of it. */
module EndToEnd {
  import opened Multiplexing = Demux
  import Framing
  import FrameSenders

  /** The decoder finds in each message the id of the stream that its sender wrote to. */
  ghost predicate NamesStream(senders: map<nat, FrameSenders.Sender>, decode: Framing.Payload -> Item) {
    forall a :: a in senders && |senders[a].payload| <= Framing.MAX_INT32
      ==> decode(senders[a].payload).id == senders[a].stream
  }

  predicate WroteTo(s: FrameSenders.State, i: nat, id: nat)
    requires i < |s.order|
  {
    s.order[i] in s.senders && s.senders[s.order[i]].stream == id
  }

  /** Of the first n payloads written, in the order of the mutex, those whose senders
      wrote to this stream. */
  function OwnPayloads(s: FrameSenders.State, n: nat, id: nat): seq<Framing.Payload>
    requires n <= |s.order| == |s.payloads|
  {
    if n == 0 then []
    else
      var own := OwnPayloads(s, n - 1, id);
      if WroteTo(s, n - 1, id) then own + [s.payloads[n - 1]] else own
  }

  /** What is written to a stream are payloads of senders of that stream. */
  ghost predicate Written(s: FrameSenders.State, decode: Framing.Payload -> Item) {
    && |s.order| == |s.payloads|
    && forall i :: 0 <= i < |s.order| ==> WroteTo(s, i, decode(s.payloads[i]).id)
  }

  lemma {:induction false} OwnItems(s: FrameSenders.State, decode: Framing.Payload -> Item, n: nat, id: nat)
    requires Written(s, decode) && n <= |s.order|
    ensures Filter(Decoded(s.payloads[..n], decode), ItemOf(id)) == Decoded(OwnPayloads(s, n, id), decode)
  {
    if n > 0 {
      var p := s.payloads[n - 1];
      OwnItems(s, decode, n - 1, id);
      assert s.payloads[..n] == s.payloads[..n - 1] + [p];
      DecodedMore(s.payloads[..n - 1], p, decode);
      FilterAppend(Decoded(s.payloads[..n - 1], decode), decode(p), ItemOf(id));
      DecodedMore(OwnPayloads(s, n - 1, id), p, decode);
      assert WroteTo(s, n - 1, decode(p).id);
    }
  }

  lemma StepFits(s: FrameSenders.State, l: FrameSenders.Label)
    ensures var ps := FrameSenders.Step(s, l).payloads;
            ps == s.payloads || exists p: Framing.Payload :: |p| <= Framing.MAX_INT32 && ps == s.payloads + [p]
  {
  }

  /** Nothing too large is ever written. */
  lemma {:induction false} AllFit(ls: seq<FrameSenders.Label>)
    ensures forall p :: p in FrameSenders.Run(ls).payloads ==> |p| <= Framing.MAX_INT32
  {
    if ls != [] {
      AllFit(ls[..|ls| - 1]);
      StepFits(FrameSenders.Run(ls[..|ls| - 1]), ls[|ls| - 1]);
    }
  }

  lemma OrderWritten(s: FrameSenders.State, decode: Framing.Payload -> Item)
    requires FrameSenders.OrderOk(s.senders, s.order, s.payloads) && NamesStream(s.senders, decode)
    requires forall p :: p in s.payloads ==> |p| <= Framing.MAX_INT32
    ensures Written(s, decode)
  {
    forall i | 0 <= i < |s.order| ensures WroteTo(s, i, decode(s.payloads[i]).id) {
      assert s.payloads[i] in s.payloads;
    }
  }

  /** However senders of all streams interleave and whatever part of the bytes arrives,
      what happens under a stream id at the other end is what the messages of that
      stream's own senders, in the order in which they took the mutex, would cause on a
      connection of its own; and when the connection is at rest and all bytes have
      arrived, all their messages. */
  lemma StreamAcrossConnection(ls: seq<FrameSenders.Label>, arrived: seq<Framing.byte>,
                               decode: Framing.Payload -> Item, id: nat)
    returns (n: nat)
    requires arrived <= FrameSenders.Run(ls).wire && NamesStream(FrameSenders.Run(ls).senders, decode)
    ensures var s := FrameSenders.Run(ls);
            && n <= |s.order| == |s.payloads| && Framing.Parse(arrived).frames == s.payloads[..n]
            && Filter(Multiplexing.Demux(Decoded(Framing.Parse(arrived).frames, decode)), EventOf(id))
               == Multiplexing.Demux(Decoded(OwnPayloads(s, n, id), decode))
            && (arrived == s.wire && !s.broken && s.lock.None? ==> n == |s.payloads|)
  {
    var s := FrameSenders.Run(ls);
    FrameSenders.ReceivedInWriteOrder(ls, arrived);
    FrameSenders.RunKeeps(ls);
    AllFit(ls);
    OrderWritten(s, decode);
    n := |Framing.Parse(arrived).frames|;
    if arrived == s.wire && !s.broken && s.lock.None? {
      FrameSenders.AllReceived(ls);
    }
    StreamsNeverMix(Decoded(s.payloads[..n], decode), id);
    OwnItems(s, decode, n, id);
  }
}
