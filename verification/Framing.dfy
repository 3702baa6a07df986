/** Length-prefixed framing over a byte stream that arrives in arbitrary pieces (pd_inference/socket_transport.py). */
module Framing {
  import opened Options
  import opened Seqs

  type Byte = b: int | 0 <= b < 256

  const HEADER: nat := 4
  const LENGTH_LIMIT: nat := 0x1_0000_0000
  const PROGRESS_CHUNK: nat := 65536

  // ---- Specification ----

  /** struct.pack("!I", n): four bytes, big endian. */
  function Pack(n: nat): (h: seq<Byte>)
    requires n < LENGTH_LIMIT
    ensures |h| == HEADER
  {
    [n / 256 / 256 / 256, n / 256 / 256 % 256, n / 256 % 256, n % 256]
  }

  function Unpack(h: seq<Byte>): (n: nat)
    requires |h| == HEADER
  {
    ((h[0] as int * 256 + h[1] as int) * 256 + h[2] as int) * 256 + h[3] as int
  }

  /** Most significant byte first. */
  lemma {:induction false} ByteOrder(n: nat)
    requires n < 0x1_0000_0000
    ensures var h := Pack(n); n == h[0] as int * 0x100_0000 + h[1] as int * 0x1_0000 + h[2] as int * 0x100 + h[3] as int
  {
    UnpackPack(n);
  }

  lemma {:induction false} UnpackPack(n: nat)
    requires n < LENGTH_LIMIT
    ensures Unpack(Pack(n)) == n
  {
    var a := n / 256;
    var b := a / 256;
    assert b == b / 256 * 256 + b % 256 && a == b * 256 + a % 256;
  }

  lemma {:induction false} PackUnpack(h: seq<Byte>)
    requires |h| == HEADER
    ensures Unpack(h) < LENGTH_LIMIT && Pack(Unpack(h)) == h
  {
    var b := h[0] as int * 256 + h[1] as int;
    var a := b * 256 + h[2] as int;
    assert Unpack(h) / 256 == a && a / 256 == b;
  }

  type Payload = p: seq<Byte> | |p| < LENGTH_LIMIT witness []

  function Frame(p: Payload): seq<Byte> {
    Pack(|p|) + p
  }

  function FrameAll(ps: seq<Payload>): seq<Byte> {
    if ps == [] then [] else Frame(ps[0]) + FrameAll(ps[1..])
  }

  /** The next payload and what follows it, or None if the stream ends inside a frame. */
  function Next(stream: seq<Byte>): (r: Option<(Payload, seq<Byte>)>)
    ensures r.Some? ==> |r.value.1| < |stream|
  {
    if |stream| < HEADER then None
    else
      var n := Unpack(stream[..HEADER]);
      PackUnpack(stream[..HEADER]);
      if |stream| < HEADER + n then None
      else Some((stream[HEADER..HEADER + n], stream[HEADER + n..]))
  }

  lemma {:induction false} NextParts(stream: seq<Byte>)
    requires |stream| >= HEADER
    ensures var n, rest := Unpack(stream[..HEADER]), stream[HEADER..];
            && n < LENGTH_LIMIT
            && Next(stream) == if |rest| < n then None else Some((rest[..n], rest[n..]))
  {
    var n, rest := Unpack(stream[..HEADER]), stream[HEADER..];
    PackUnpack(stream[..HEADER]);
    if |rest| >= n {
      assert rest[..n] == stream[HEADER..HEADER + n];
      assert rest[n..] == stream[HEADER + n..];
    }
  }

  /** Every complete payload of a stream that then closes. */
  function Payloads(stream: seq<Byte>): seq<Payload>
    decreases |stream|
  {
    match Next(stream)
    case None => []
    case Some((p, rest)) => [p] + Payloads(rest)
  }

  lemma {:induction false} NextFrame(p: Payload, tail: seq<Byte>)
    ensures Next(Frame(p) + tail) == Some((p, tail))
  {
    var s := Frame(p) + tail;
    assert s[..HEADER] == Pack(|p|);
    UnpackPack(|p|);
    assert s[HEADER..HEADER + |p|] == p;
    assert s[HEADER + |p|..] == tail;
  }

  lemma {:induction false} PayloadsCons(p: Payload, tail: seq<Byte>)
    ensures Payloads(Frame(p) + tail) == [p] + Payloads(tail)
  {
    NextFrame(p, tail);
  }

  /** Sending and receiving are inverse, whatever follows on the stream. */
  lemma {:induction false} RoundTrip(ps: seq<Payload>, tail: seq<Byte>)
    ensures Payloads(FrameAll(ps) + tail) == ps + Payloads(tail)
  {
    if ps == [] {
      EmptyLeft(tail);
      EmptyLeft(Payloads(tail));
    } else {
      RoundTrip(ps[1..], tail);
      PayloadsCons(ps[0], FrameAll(ps[1..]) + tail);
      Associative(Frame(ps[0]), FrameAll(ps[1..]), tail);
      Associative([ps[0]], ps[1..], Payloads(tail));
      HeadTail(ps);
    }
  }

  lemma {:induction false} CutInside(p: Payload, cut: nat)
    requires cut < |Frame(p)|
    ensures Payloads(Frame(p)[..cut]) == []
  {
    var stream := Frame(p)[..cut];
    if cut >= HEADER {
      assert stream[..HEADER] == Pack(|p|);
      UnpackPack(|p|);
    }
    assert Next(stream) == None;
  }

  lemma {:induction false} CutAfter(p: Payload, rest: seq<Byte>, cut: nat)
    requires |Frame(p)| <= cut <= |Frame(p)| + |rest|
    ensures Payloads((Frame(p) + rest)[..cut]) == [p] + Payloads(rest[..cut - |Frame(p)|])
  {
    assert (Frame(p) + rest)[..cut] == Frame(p) + rest[..cut - |Frame(p)|];
    PayloadsCons(p, rest[..cut - |Frame(p)|]);
  }

  /** A stream cut off anywhere still yields exactly the payloads whose frames arrived completely. */
  lemma {:induction false} Truncated(ps: seq<Payload>, cut: nat)
    requires cut <= |FrameAll(ps)|
    ensures Payloads(FrameAll(ps)[..cut]) <= ps
    ensures cut < |FrameAll(ps)| ==> |Payloads(FrameAll(ps)[..cut])| < |ps|
  {
    if ps == [] {
    } else if cut < |Frame(ps[0])| {
      assert FrameAll(ps)[..cut] == Frame(ps[0])[..cut];
      CutInside(ps[0], cut);
    } else {
      CutAfter(ps[0], FrameAll(ps[1..]), cut);
      Truncated(ps[1..], cut - |Frame(ps[0])|);
      PrefixCons(ps, Payloads(FrameAll(ps[1..])[..cut - |Frame(ps[0])|]));
    }
  }

  lemma {:induction false} PrefixCons(ps: seq<Payload>, front: seq<Payload>)
    requires ps != [] && front <= ps[1..]
    ensures [ps[0]] + front <= ps
  {
  }

  // ---- Implementation ----

  datatype Received<T> = Got(value: T) | Closed

  /** One direction of a socket: bytes still to arrive before the peer closes, and bytes written. */
  class Socket {
    var incoming: seq<Byte>
    var outgoing: seq<Byte>

    constructor (incoming: seq<Byte>)
      ensures this.incoming == incoming && outgoing == []
    {
      this.incoming, outgoing := incoming, [];
    }

    /** Delivers between one and `n` of the next bytes, as the network pleases; zero only when the peer has closed. */
    method RecvInto(view: array<Byte>, at: nat, n: nat) returns (nrecv: nat)
      requires 0 < n && at + n <= view.Length
      modifies this`incoming, view
      ensures nrecv == 0 <==> old(incoming) == []
      ensures nrecv <= n && nrecv <= |old(incoming)|
      ensures incoming == old(incoming)[nrecv..]
      ensures view[..] == old(view[..at]) + old(incoming)[..nrecv] + old(view[at + nrecv..])
    {
      if incoming == [] {
        return 0;
      }
      nrecv :| 1 <= nrecv <= n && nrecv <= |incoming|;
      forall i | 0 <= i < nrecv {
        view[at + i] := incoming[i];
      }
      incoming := incoming[nrecv..];
    }

    method SendAll(data: seq<Byte>)
      modifies this`outgoing
      ensures outgoing == old(outgoing) + data
    {
      outgoing := outgoing + data;
    }
  }

  /** Reads exactly `n` bytes, or reports that the peer closed first. */
  method RecvExact(sock: Socket, n: nat) returns (r: Received<seq<Byte>>)
    modifies sock`incoming
    ensures |old(sock.incoming)| >= n ==> r == Got(old(sock.incoming)[..n]) && sock.incoming == old(sock.incoming)[n..]
    ensures |old(sock.incoming)| < n ==> r == Closed && sock.incoming == []
  {
    var buf := new Byte[n](_ => 0);
    var left := n;
    ghost var stream := sock.incoming;
    while left > 0
      invariant 0 <= left <= n && n - left <= |stream|
      invariant sock.incoming == stream[n - left..]
      invariant buf[..n - left] == stream[..n - left]
    {
      var nrecv := sock.RecvInto(buf, n - left, left);
      if nrecv == 0 {
        return Closed;
      }
      assert buf[..n - left + nrecv] == buf[..][..n - left + nrecv];
      left := left - nrecv;
    }
    assert buf[..] == buf[..n];
    return Got(buf[..]);
  }

  /** Reads one payload: header, then body. */
  method RecvObj(sock: Socket) returns (r: Received<Payload>)
    modifies sock`incoming
    ensures match Next(old(sock.incoming))
            case Some((p, rest)) => r == Got(p) && sock.incoming == rest
            case None => r == Closed
  {
    ghost var stream := sock.incoming;
    var header := RecvExact(sock, HEADER);
    if header.Closed? {
      return Closed;
    }
    NextParts(stream);
    var data := RecvExact(sock, Unpack(header.value));
    if data.Closed? {
      return Closed;
    }
    return Got(data.value);
  }

  /** The receive loop of a connection: payload after payload until the stream ends. */
  method RecvAll(sock: Socket) returns (ps: seq<Payload>)
    modifies sock`incoming
    ensures ps == Payloads(old(sock.incoming))
  {
    ps := [];
    ghost var stream := sock.incoming;
    while true
      invariant ps + Payloads(sock.incoming) == Payloads(stream)
      decreases |sock.incoming|
    {
      var r := RecvObj(sock);
      if r.Closed? {
        return;
      }
      ps := ps + [r.value];
    }
  }

  /** Header and body in one write; a body of 2^32 bytes or more cannot be framed. */
  method SendObj(sock: Socket, data: seq<Byte>) returns (ok: bool)
    modifies sock`outgoing
    ensures ok <==> |data| < 0x1_0000_0000
    ensures ok ==> sock.outgoing == old(sock.outgoing) + Frame(data)
    ensures !ok ==> sock.outgoing == old(sock.outgoing)
  {
    if |data| >= LENGTH_LIMIT {
      return false;
    }
    sock.SendAll(Pack(|data|) + data);
    return true;
  }

  /** The same bytes, written in 64 KB pieces, each followed by a progress report. */
  method SendObjProgress(sock: Socket, data: Payload) returns (written: nat, reports: seq<nat>)
    modifies sock`outgoing
    ensures sock.outgoing == old(sock.outgoing) + Frame(data)
    ensures written == |Frame(data)|
    ensures forall i :: 0 <= i < |reports| ==>
              reports[i] == if (i + 1) * 65536 <= |data| then (i + 1) * 65536 else |data|
    ensures data == [] <==> reports == []
    ensures reports != [] ==> reports[|reports| - 1] == |data| && (|reports| - 1) * 65536 < |data|
  {
    reports := [];
    var total := |data|;
    sock.SendAll(Pack(total));
    var sent := 0;
    while sent < total
      invariant 0 <= sent <= total
      invariant sock.outgoing == old(sock.outgoing) + Pack(total) + data[..sent]
      invariant sent == if |reports| * PROGRESS_CHUNK <= total then |reports| * PROGRESS_CHUNK else total
      invariant reports != [] ==> reports[|reports| - 1] == sent && (|reports| - 1) * PROGRESS_CHUNK < total
      invariant reports == [] ==> sent == 0
      invariant forall i :: 0 <= i < |reports| ==>
                  reports[i] == if (i + 1) * PROGRESS_CHUNK <= total then (i + 1) * PROGRESS_CHUNK else total
    {
      var end := if sent + PROGRESS_CHUNK < total then sent + PROGRESS_CHUNK else total;
      sock.SendAll(data[sent..end]);
      assert data[..sent] + data[sent..end] == data[..end];
      sent := end;
      reports := reports + [sent];
    }
    assert data[..total] == data;
    written := total + HEADER;
  }
}
