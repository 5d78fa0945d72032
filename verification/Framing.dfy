/** Length-prefixed frames over a byte stream, as both stream transports read and write
  them, and the byte stream view of a message stream on top (adaptiveservice.go). */
module Framing {
  import opened Collections

  newtype byte = x: int | 0 <= x < 256

  const MAX_INT32 := 0x7fff_ffff
  const MAX_UINT32 := 0xffff_ffff

  // ----- Frames -----

  /** binary.BigEndian.PutUint32. */
  function Put32(n: nat): (r: seq<byte>)
    requires n <= MAX_UINT32
    ensures |r| == 4
  {
    [(n / 0x100_0000) as byte, (n / 0x1_0000 % 0x100) as byte, (n / 0x100 % 0x100) as byte, (n % 0x100) as byte]
  }

  /** binary.BigEndian.Uint32. */
  function Get32(b: seq<byte>): (n: nat)
    requires |b| == 4
    ensures n <= MAX_UINT32
  {
    b[0] as nat * 0x100_0000 + b[1] as nat * 0x1_0000 + b[2] as nat * 0x100 + b[3] as nat
  }

  lemma SizeBack(n: nat)
    requires n <= MAX_UINT32
    ensures Get32(Put32(n)) == n
  {
    var hi, lo := n / 0x1_0000, n % 0x1_0000;
    assert n / 0x100_0000 == hi / 0x100;
    assert n / 0x100 % 0x100 == lo / 0x100;
    assert n % 0x100 == lo % 0x100;
  }

  type Payload = p: seq<byte> | |p| <= MAX_UINT32 witness []

  function Frame(p: Payload): seq<byte> {
    Put32(|p|) + p
  }

  function Wire(ps: seq<Payload>): seq<byte> {
    if ps == [] then [] else Wire(ps[..|ps| - 1]) + Frame(ps[|ps| - 1])
  }

  datatype Parsed = Parsed(frames: seq<Payload>, rest: seq<byte>)

  /** The complete frames at the front of the bytes, and what is left. */
  function Parse(w: seq<byte>): (r: Parsed)
    ensures |r.rest| <= |w|
    decreases |w|
  {
    if |w| < 4 || |w| - 4 < Get32(w[..4]) then Parsed([], w)
    else
      var n := Get32(w[..4]);
      var more := Parse(w[4 + n..]);
      Parsed([w[4..4 + n]] + more.frames, more.rest)
  }

  lemma FrameFirst(p: Payload, w: seq<byte>)
    ensures Parse(Frame(p) + w) == Parsed([p] + Parse(w).frames, Parse(w).rest)
  {
    var all := Frame(p) + w;
    SizeBack(|p|);
    assert all[..4] == Put32(|p|);
    assert all[4..4 + |p|] == p;
    assert all[4 + |p|..] == w;
  }

  /** Framing then parsing gives back the payloads, whatever follows them. */
  lemma {:induction false} ParseWire(ps: seq<Payload>, w: seq<byte>)
    ensures Parse(Wire(ps) + w) == Parsed(ps + Parse(w).frames, Parse(w).rest)
  {
    if ps == [] {
      assert Wire(ps) + w == w;
    } else {
      var init, last := ps[..|ps| - 1], ps[|ps| - 1];
      ParseWire(init, Frame(last) + w);
      FrameFirst(last, w);
      Assoc(Wire(init), Frame(last), w);
      Assoc(init, [last], Parse(w).frames);
      assert init + [last] == ps;
    }
  }

  /** A receiver that has seen less has received a prefix. */
  lemma {:induction false} ParseMonotone(v: seq<byte>, w: seq<byte>)
    requires v <= w
    ensures Parse(v).frames <= Parse(w).frames
    decreases |v|
  {
    if |v| >= 4 && |v| - 4 >= Get32(v[..4]) {
      var n := Get32(v[..4]);
      assert w[..4] == v[..4];
      assert v[4..4 + n] == w[4..4 + n];
      ParseMonotone(v[4 + n..], w[4 + n..]);
    }
  }

  // ----- The receive loop -----

  function Flatten(chunks: seq<seq<byte>>): seq<byte> {
    if chunks == [] then [] else chunks[0] + Flatten(chunks[1..])
  }

  /** A connection of which every read finds one more chunk, and then the end. */
  class Conn {
    var incoming: seq<seq<byte>>

    ghost function Bytes(): seq<byte>
      reads this
    {
      Flatten(incoming)
    }

    constructor (incoming: seq<seq<byte>>)
      ensures this.incoming == incoming
    {
      this.incoming := incoming;
    }

    /** One read into p[lo..hi]; a chunk that does not fit stays for the next. */
    method Read(p: array<byte>, lo: nat, hi: nat) returns (n: nat)
      requires lo < hi <= p.Length && incoming != []
      modifies this, p
      ensures n <= hi - lo && p[..lo] == old(p[..lo])
      ensures p[lo..lo + n] + Bytes() == old(Bytes())
      ensures n > 0 || |incoming| < |old(incoming)|
    {
      var chunk, rest := incoming[0], incoming[1..];
      n := if |chunk| < hi - lo then |chunk| else hi - lo;
      forall i | 0 <= i < n {
        p[lo + i] := chunk[i];
      }
      incoming := if n == |chunk| then rest else [chunk[n..]] + rest;
      assert p[lo..lo + n] == chunk[..n];
      assert chunk == chunk[..n] + chunk[n..];
      assert n < |chunk| ==> incoming[1..] == rest;
    }

    /** io.ReadFull into p[..size]. */
    method ReadFull(p: array<byte>, size: nat) returns (n: nat)
      requires size <= p.Length
      modifies this, p
      ensures n <= size && p[..n] + Bytes() == old(Bytes())
      ensures n < size ==> Bytes() == []
    {
      n := 0;
      while n < size && incoming != []
        invariant n <= size && p[..n] + Bytes() == old(Bytes())
        decreases size - n, |incoming|
      {
        var before := p[..n];
        var k := Read(p, n, size);
        assert p[..n + k] == before + p[n..n + k];
        n := n + k;
      }
    }
  }

  const BUF_SIZE := 512

  /** `got` has been parsed off `all`, and `left` remains. */
  ghost predicate Received(all: seq<byte>, got: seq<Payload>, left: seq<byte>) {
    Parse(all) == Parsed(got + Parse(left).frames, Parse(left).rest)
  }

  lemma ReceivedOne(all: seq<byte>, got: seq<Payload>, left: seq<byte>, size: nat)
    requires Received(all, got, left)
    requires |left| >= 4 && size == Get32(left[..4]) && |left| - 4 >= size
    ensures Received(all, got + [left[4..4 + size]], left[4 + size..])
  {
    Assoc(got, [left[4..4 + size]], Parse(left[4 + size..]).frames);
  }

  lemma ReceivedAll(all: seq<byte>, got: seq<Payload>, left: seq<byte>)
    requires Received(all, got, left)
    requires |left| < 4 || |left| - 4 < Get32(left[..4])
    ensures got == Parse(all).frames && left == Parse(all).rest
  {
  }

  /** One turn of the loop: a payload, the end between frames, or the end inside one. */
  datatype Turn = Whole(payload: Payload) | End | Cut

  ghost predicate TurnOk(turn: Turn, before: seq<byte>, after: seq<byte>) {
    match turn
    case Whole(p) => |before| >= 4 && |p| == Get32(before[..4]) && before[4..] == p + after
    case End => before == []
    case Cut => before != [] && (|before| < 4 || |before| - 4 < Get32(before[..4]))
  }

  /** Reads the size, then the payload into the buffer, which is replaced if too small. */
  method ReadFrame(conn: Conn, bufSize: array<byte>, bufMsg: array<byte>) returns (turn: Turn, buf: array<byte>)
    requires bufSize.Length == 4 && bufSize != bufMsg
    modifies conn, bufSize, bufMsg
    ensures buf == bufMsg || fresh(buf)
    ensures TurnOk(turn, old(conn.Bytes()), conn.Bytes())
  {
    buf := bufMsg;
    ghost var left := conn.Bytes();
    var n := conn.ReadFull(bufSize, 4);
    if n < 4 {
      assert left == bufSize[..n];
      return if n == 0 then End else Cut, buf;
    }
    ghost var body := conn.Bytes();
    assert left[..4] == bufSize[..];
    assert left[4..] == body;
    var size := Get32(bufSize[..]);
    if size > buf.Length {
      buf := new byte[size];
    }
    n := conn.ReadFull(buf, size);
    if n < size {
      assert body == buf[..n];
      return Cut, buf;
    }
    return Whole(buf[..size]), buf;
  }

  lemma Split(left: seq<byte>, payload: seq<byte>, end: seq<byte>)
    requires |left| >= 4 && left[4..] == payload + end
    ensures |left| - 4 >= |payload| && left[4..4 + |payload|] == payload && left[4 + |payload|..] == end
  {
    var body := left[4..];
    assert body[..|payload|] == payload && body[|payload|..] == end;
    assert left[4..4 + |payload|] == body[..|payload|];
    assert left[4 + |payload|..] == body[|payload|..];
  }

  /** The receiver of a connection: `got` holds the payloads handed to the decoder.
      However the bytes are chopped, they are the frames in the bytes; the end is
      clean when no part of a frame is left over. */
  method Receiver(conn: Conn) returns (got: seq<Payload>, clean: bool)
    modifies conn
    ensures got == Parse(old(conn.Bytes())).frames
    ensures clean <==> Parse(old(conn.Bytes())).rest == []
  {
    var bufSize := new byte[4];
    var bufMsg := new byte[BUF_SIZE];
    got := [];
    ghost var all := conn.Bytes();
    while true
      invariant fresh(bufSize) && fresh(bufMsg) && bufSize != bufMsg
      invariant bufSize.Length == 4
      invariant Received(all, got, conn.Bytes())
      decreases |conn.Bytes()|
    {
      ghost var left := conn.Bytes();
      var turn;
      turn, bufMsg := ReadFrame(conn, bufSize, bufMsg);
      if !turn.Whole? {
        ReceivedAll(all, got, left);
        return got, turn.End?;
      }
      Split(left, turn.payload, conn.Bytes());
      ReceivedOne(all, got, left, |turn.payload|);
      got := got + [turn.payload];
    }
  }

  // ----- Streams of bytes over streams of messages -----

  /** What Recv yields: the bytes of one Write, or an error such as the peer's EOF. */
  datatype Item = Data(bytes: seq<byte>) | Fault

  /** All bytes before the first error. */
  function Stream(items: seq<Item>): seq<byte> {
    if items == [] || items[0].Fault? then [] else items[0].bytes + Stream(items[1..])
  }

  datatype Got = Bytes(bytes: seq<byte>) | Error

  /** streamIO.Read with a buffer of some size: what is read and what stays. */
  function ReadOne(rbuff: seq<byte>, inbox: seq<Item>, size: nat): (Got, seq<byte>, seq<Item>)
    requires rbuff != [] || inbox != []
  {
    if rbuff == [] && inbox[0].Fault? then (Error, [], inbox[1..])
    else
      var b := if rbuff == [] then inbox[0].bytes else rbuff;
      var rest := if rbuff == [] then inbox[1..] else inbox;
      var n := if size < |b| then size else |b|;
      (Bytes(b[..n]), b[n..], rest)
  }

  class StreamIO {
    var inbox: seq<Item>   // what the stream's Recv will deliver
    var rbuff: seq<byte>

    /** Recv blocks while there is neither a message nor an error to deliver. */
    method Read(p: array<byte>) returns (n: nat, err: bool)
      requires rbuff != [] || inbox != []
      modifies this, p
      ensures n <= p.Length && p[n..] == old(p[n..])
      ensures var (got, rest, items) := ReadOne(old(rbuff), old(inbox), p.Length);
              rbuff == rest && inbox == items && got == if err then Error else Bytes(p[..n])
    {
      if |rbuff| == 0 {
        var item := inbox[0];
        inbox := inbox[1..];
        if item.Fault? {
          return 0, true;
        }
        rbuff := item.bytes;
      }
      n := if p.Length < |rbuff| then p.Length else |rbuff|;
      forall i | 0 <= i < n {
        p[i] := rbuff[i];
      }
      assert p[..n] == rbuff[..n];
      rbuff := rbuff[n..];
      return n, false;
    }
  }

  /** Reads until an error, or until one would block. */
  function Reads(rbuff: seq<byte>, inbox: seq<Item>, sizes: seq<nat>): seq<byte>
    decreases |sizes|
  {
    if sizes == [] || (rbuff == [] && inbox == []) then []
    else
      var (got, rest, items) := ReadOne(rbuff, inbox, sizes[0]);
      if got.Error? then [] else got.bytes + Reads(rest, items, sizes[1..])
  }

  lemma ReadOneKeeps(rbuff: seq<byte>, inbox: seq<Item>, size: nat)
    requires rbuff != [] || inbox != []
    ensures var (got, rest, items) := ReadOne(rbuff, inbox, size);
            got.Bytes? ==> rbuff + Stream(inbox) == (got.bytes + rest) + Stream(items)
  {
    var b := if rbuff == [] && inbox[0].Data? then inbox[0].bytes else rbuff;
    var n := if size < |b| then size else |b|;
    assert b == b[..n] + b[n..];
    assert rbuff == [] ==> rbuff + Stream(inbox) == Stream(inbox);
  }

  lemma {:induction false} ReadsArePrefix(rbuff: seq<byte>, inbox: seq<Item>, sizes: seq<nat>)
    ensures Reads(rbuff, inbox, sizes) <= rbuff + Stream(inbox)
    decreases |sizes|
  {
    if sizes != [] && (rbuff != [] || inbox != []) {
      var (got, rest, items) := ReadOne(rbuff, inbox, sizes[0]);
      if got.Bytes? {
        ReadsArePrefix(rest, items, sizes[1..]);
        ReadOneKeeps(rbuff, inbox, sizes[0]);
        Assoc(got.bytes, rest, Stream(items));
      }
    }
  }

  /** Write sends each slice as one message; Close sends the error io.EOF. */
  function Written(writes: seq<seq<byte>>): seq<Item> {
    if writes == [] then [Fault] else [Data(writes[0])] + Written(writes[1..])
  }

  lemma {:induction false} StreamOfWritten(writes: seq<seq<byte>>, n: nat)
    requires n <= |Written(writes)|
    ensures Stream(Written(writes)) == Flatten(writes)
    ensures Stream(Written(writes)[..n]) <= Flatten(writes)
  {
    if writes != [] {
      var items := Written(writes);
      StreamOfWritten(writes[1..], if n == 0 then 0 else n - 1);
      assert items[1..] == Written(writes[1..]);
      if n > 0 {
        assert items[..n][1..] == Written(writes[1..])[..n - 1];
      }
    } else if n > 0 {
      assert Written(writes)[..n][0] == Fault;
    }
  }

  /** Of whatever part of the written messages has arrived, reads of any sizes yield a
      prefix of the bytes written. */
  lemma ReadsYieldPrefix(writes: seq<seq<byte>>, arrived: nat, sizes: seq<nat>)
    requires arrived <= |Written(writes)|
    ensures Reads([], Written(writes)[..arrived], sizes) <= Flatten(writes)
  {
    ReadsArePrefix([], Written(writes)[..arrived], sizes);
    StreamOfWritten(writes, arrived);
  }
}
