/** Framing on a byte stream (include/Protocol.h): four bytes of length, most significant
  first, then the body. */
module Protocol {
  import opened Tables

  newtype byte = b: int | 0 <= b < 0x100

  type Body = seq<byte>

  const MAX_MESSAGE_SIZE: int := 0x10_0000

  // ---- The length prefix ----

  /** A 32-bit number in network byte order. */
  function Encode(n: nat): (bs: seq<byte>)
    requires n < 0x1_0000_0000
    ensures |bs| == 4
  {
    [(n / 0x100_0000) as byte, (n / 0x1_0000 % 0x100) as byte, (n / 0x100 % 0x100) as byte, (n % 0x100) as byte]
  }

  function Decode(bs: seq<byte>): (n: nat)
    requires |bs| == 4
    ensures n < 0x1_0000_0000
  {
    ((bs[0] as int * 0x100 + bs[1] as int) * 0x100 + bs[2] as int) * 0x100 + bs[3] as int
  }

  lemma {:induction false} PrefixRoundTrip(n: nat, bs: seq<byte>)
    requires n < 0x1_0000_0000 && |bs| == 4
    ensures Decode(Encode(n)) == n && Encode(Decode(bs)) == bs
    ensures Decode(bs) == 16777216 * bs[0] as int + 65536 * bs[1] as int + 256 * bs[2] as int + bs[3] as int
  {
    assert n / 0x1_0000 == n / 0x100_0000 * 0x100 + n / 0x1_0000 % 0x100 by { assert n / 0x1_0000 / 0x100 == n / 0x100_0000; }
    assert n / 0x100 == n / 0x1_0000 * 0x100 + n / 0x100 % 0x100 by { assert n / 0x100 / 0x100 == n / 0x1_0000; }
    var m := Decode(bs);
    assert m / 0x100 == (bs[0] as int * 0x100 + bs[1] as int) * 0x100 + bs[2] as int;
    assert m / 0x1_0000 == bs[0] as int * 0x100 + bs[1] as int;
    assert m / 0x100_0000 == bs[0] as int;
    assert Encode(m) == bs;
  }

  // ---- Frames ----

  /** What `sendJson` puts on the wire; the length is cut to 32 bits. */
  function Frame(body: Body): seq<byte> {
    Encode(|body| % 0x1_0000_0000) + body
  }

  /** What `recvJson` makes of a stream: the body and what follows it, or a refusal. */
  function Parse(stream: seq<byte>): Option<(Body, seq<byte>)> {
    if |stream| < 4 then None
    else
      var n := Decode(stream[..4]);
      if n == 0 || n > MAX_MESSAGE_SIZE || |stream| < 4 + n then None
      else Some((stream[4..4 + n], stream[4 + n..]))
  }

  predicate Sendable(body: Body) { 1 <= |body| <= MAX_MESSAGE_SIZE }

  /** A body comes back as it was sent, with the rest of the stream untouched, exactly when it
    has between 1 and 2^20 bytes. */
  lemma {:induction false} FrameRoundTrip(body: Body, rest: seq<byte>)
    ensures Parse(Frame(body) + rest) == Some((body, rest)) <==> Sendable(body)
    ensures Sendable(body) <==> 1 <= |body| <= 1048576
  {
    var n, stream := |body| % 0x1_0000_0000, Frame(body) + rest;
    PrefixRoundTrip(n, Encode(n));
    assert stream[..4] == Encode(n);
    if Sendable(body) {
      assert n == |body|;
      assert stream[4..4 + n] == body && stream[4 + n..] == rest;
    }
  }

  function Frames(bodies: seq<Body>): seq<byte> {
    if bodies == [] then [] else Frame(bodies[0]) + Frames(bodies[1..])
  }

  /** Reading `n` messages off a stream. */
  function ParseAll(stream: seq<byte>, n: nat): Option<(seq<Body>, seq<byte>)> {
    if n == 0 then Some(([], stream))
    else match Parse(stream)
      case None => None
      case Some(p) =>
        match ParseAll(p.1, n - 1)
        case None => None
        case Some(q) => Some(([p.0] + q.0, q.1))
  }

  /** Any sequence of messages decodes to itself, with nothing left over or swallowed. */
  lemma {:induction false} FramesRoundTrip(bodies: seq<Body>, rest: seq<byte>)
    requires forall b :: b in bodies ==> Sendable(b)
    ensures ParseAll(Frames(bodies) + rest, |bodies|) == Some((bodies, rest))
    decreases |bodies|
  {
    if bodies == [] {
      assert Frames(bodies) + rest == rest;
    } else {
      var more := Frames(bodies[1..]) + rest;
      assert Frames(bodies) + rest == Frame(bodies[0]) + more;
      FrameRoundTrip(bodies[0], more);
      FramesRoundTrip(bodies[1..], rest);
      assert [bodies[0]] + bodies[1..] == bodies;
    }
  }

  /** Two different message sequences never look the same on the wire, not even with more
    bytes behind them. */
  lemma {:induction false} FramesUnambiguous(a: seq<Body>, b: seq<Body>, x: seq<byte>, y: seq<byte>)
    requires |a| == |b| && Frames(a) + x == Frames(b) + y
    requires forall m :: m in a || m in b ==> Sendable(m)
    ensures a == b && x == y
  {
    FramesRoundTrip(a, x);
    FramesRoundTrip(b, y);
  }

  lemma {:induction false} FramesMore(bodies: seq<Body>, body: Body)
    ensures Frames(bodies + [body]) == Frames(bodies) + Frame(body)
    decreases |bodies|
  {
    if bodies == [] {
      assert bodies + [body] == [body];
      assert Frames([]) == [];
    } else {
      FramesMore(bodies[1..], body);
      assert (bodies + [body])[1..] == bodies[1..] + [body];
    }
  }

  // ---- The loops ----

  /** One direction of a connection. The network decides how many bytes a call moves, and a
    call may fail; `faults` counts the calls that failed although they had something to move. */
  class Stream {
    var wire: seq<byte>  // sent and not yet received
    ghost var faults: nat

    constructor ()
      ensures wire == []
    {
      wire, faults := [], 0;
    }

    /** `send`: some of the bytes, at least one unless it fails. */
    method Send(buf: seq<byte>) returns (sent: int)
      requires buf != []
      modifies this
      ensures sent <= |buf|
      ensures wire == if sent <= 0 then old(wire) else old(wire) + buf[..sent]
      ensures faults == old(faults) + if sent <= 0 then 1 else 0
    {
      sent := *;
      if sent > |buf| { sent := |buf|; }
      if sent > 0 { wire := wire + buf[..sent]; } else { faults := faults + 1; }
    }

    /** `recv` into `buf` at `at`: some of the next bytes, at least one unless it fails. */
    method Recv(buf: array<byte>, at: nat, remaining: nat) returns (received: int)
      requires at + remaining <= buf.Length && 0 < remaining
      modifies this, buf
      ensures received <= remaining && received <= |old(wire)|
      ensures received <= 0 ==> wire == old(wire) && buf[..] == old(buf[..])
      ensures faults == old(faults) + if received <= 0 && old(wire) != [] then 1 else 0
      ensures received > 0 ==>
        wire == old(wire)[received..] && buf[..at] == old(buf[..at]) && buf[at..at + received] == old(wire)[..received]
    {
      received := *;
      if received > remaining { received := remaining; }
      if received > |wire| { received := |wire|; }
      if received <= 0 {
        if wire != [] { faults := faults + 1; }
        return;
      }
      for k := 0 to received
        modifies buf
        invariant buf[..at] == old(buf[..at])
        invariant forall j :: 0 <= j < k ==> buf[at + j] == wire[j]
      {
        buf[at + k] := wire[k];
      }
      assert buf[at..at + received] == wire[..received];
      wire := wire[received..];
    }

    /** All bytes go out, in order, however the network cuts them; a failure leaves a prefix. */
    method SendAll(buf: seq<byte>) returns (ok: bool)
      modifies this
      ensures ok ==> wire == old(wire) + buf && faults == old(faults)
      ensures !ok ==> old(faults) < faults && exists k :: 0 <= k < |buf| && wire == old(wire) + buf[..k]
    {
      var ptr, remaining := 0, |buf|;
      while remaining > 0
        invariant ptr + remaining == |buf| && 0 <= remaining && 0 <= ptr
        invariant wire == old(wire) + buf[..ptr] && faults == old(faults)
        decreases remaining
      {
        var sent := Send(buf[ptr..]);
        if sent <= 0 { return false; }
        assert buf[..ptr] + buf[ptr..][..sent] == buf[..ptr + sent];
        ptr, remaining := ptr + sent, remaining - sent;
      }
      ok := true;
    }

    /** Fills the buffer with the next bytes of the stream and takes no byte more. */
    method RecvAll(buf: array<byte>) returns (ok: bool)
      modifies this, buf
      ensures ok ==> buf.Length <= |old(wire)| && buf[..] == old(wire)[..buf.Length] && wire == old(wire)[buf.Length..]
      ensures ok ==> faults == old(faults)
      ensures !ok ==> old(faults) < faults || |old(wire)| < buf.Length
      ensures !ok ==> exists k :: 0 <= k < buf.Length && k <= |old(wire)| && wire == old(wire)[k..]
    {
      var ptr, remaining := 0, buf.Length;
      while remaining > 0
        invariant ptr + remaining == buf.Length && 0 <= remaining && 0 <= ptr <= |old(wire)|
        invariant wire == old(wire)[ptr..] && buf[..ptr] == old(wire)[..ptr] && faults == old(faults)
        decreases remaining
      {
        var received := Recv(buf, ptr, remaining);
        if received <= 0 { return false; }
        assert buf[..ptr + received] == buf[..ptr] + buf[ptr..ptr + received];
        assert old(wire)[..ptr + received] == old(wire)[..ptr] + old(wire)[ptr..][..received];
        ptr, remaining := ptr + received, remaining - received;
      }
      ok := true;
    }

    method SendMessage(body: Body) returns (ok: bool)
      modifies this
      ensures ok ==> wire == old(wire) + Frame(body) && faults == old(faults)
      ensures !ok ==> old(faults) < faults && exists k :: 0 <= k < |Frame(body)| && wire == old(wire) + Frame(body)[..k]
    {
      var prefix := Encode(|body| % 0x1_0000_0000);
      ok := SendAll(prefix);
      if !ok {
        ghost var k :| 0 <= k < |prefix| && wire == old(wire) + prefix[..k];
        assert Frame(body)[..k] == prefix[..k];
        return;
      }
      ok := SendAll(body);
      if !ok {
        ghost var k :| 0 <= k < |body| && wire == old(wire) + prefix + body[..k];
        assert Frame(body)[..|prefix| + k] == prefix + body[..k];
      }
    }

    /** A message is returned if the stream parses that way and no call fails, and only then;
      exactly its frame is gone then. */
    method ReceiveMessage() returns (r: Option<Body>)
      modifies this
      ensures r.Some? ==> Parse(old(wire)) == Some((r.value, wire)) && faults == old(faults)
      ensures r.None? ==> old(faults) < faults || Parse(old(wire)) == None
    {
      var prefix := new byte[4];
      var ok := RecvAll(prefix);
      if !ok { return None; }
      var n := Decode(prefix[..]);
      if n == 0 || n > MAX_MESSAGE_SIZE { return None; }
      var body := new byte[n];
      ok := RecvAll(body);
      if !ok { return None; }
      assert body[..] == old(wire)[4..4 + n];
      r := Some(body[..]);
    }

    /** Messages sent one after the other and then received arrive unchanged and in order, and
      the stream is empty again, unless a call fails, and only then. */
    method Transmit(bodies: seq<Body>) returns (ok: bool, arrived: seq<Body>)
      requires wire == [] && forall b :: b in bodies ==> Sendable(b)
      modifies this
      ensures ok ==> arrived == bodies && wire == []
      ensures ok <==> faults == old(faults)
    {
      arrived := [];
      for k := 0 to |bodies|
        invariant wire == Frames(bodies[..k]) && faults == old(faults)
      {
        FramesMore(bodies[..k], bodies[k]);
        assert bodies[..k + 1] == bodies[..k] + [bodies[k]];
        ok := SendMessage(bodies[k]);
        if !ok { return; }
      }
      assert bodies[..|bodies|] == bodies == bodies[0..];
      for k := 0 to |bodies|
        invariant wire == Frames(bodies[k..]) && arrived == bodies[..k] && faults == old(faults)
      {
        FrameRoundTrip(bodies[k], Frames(bodies[k + 1..]));
        assert bodies[k..][1..] == bodies[k + 1..];
        var r := ReceiveMessage();
        if r.None? { return false, arrived; }
        assert bodies[..k + 1] == bodies[..k] + [bodies[k]];
        arrived := arrived + [r.value];
      }
      ok := true;
    }
  }
}
