/** The parts composed: from the prefill node's cache to what the decode node decodes on. */
module Pipeline {
  import opened Options
  import opened Layers
  import opened Quantizer
  import opened Sorting
  import opened Chunks
  import opened Assembly
  import opened DeliveryRuns
  import opened StreamServer
  import opened Framing
  import opened Prefill
  import opened Allocator
  import PrecisionLevels
  import Sender

  // ---- Messages as bytes ----

  /** Serialising, which is foreign, and reading back gives each of these messages; each fits into a frame. */
  ghost predicate Serialises(xs: seq<Incoming>, ser: Incoming -> Payload, de: Payload -> Incoming) {
    forall x :: x in xs ==> de(ser(x)) == x
  }

  function Mapped<A, B>(xs: seq<A>, f: A -> B): (ys: seq<B>)
    ensures |ys| == |xs| && forall i :: 0 <= i < |xs| ==> ys[i] == f(xs[i])
  {
    seq(|xs|, i requires 0 <= i < |xs| => f(xs[i]))
  }

  /** What the peer reads off the stream is what was sent; `RecvAll` reads exactly this under any fragmentation. */
  lemma {:induction false} WireRoundTrip(xs: seq<Incoming>, ser: Incoming -> Payload, de: Payload -> Incoming)
    requires Serialises(xs, ser, de)
    ensures Mapped(Payloads(FrameAll(Mapped(xs, ser))), de) == xs
  {
    var ps := Mapped(xs, ser);
    RoundTrip(ps, []);
    assert FrameAll(ps) + [] == FrameAll(ps);
    assert Payloads([]) == [];
    assert ps + [] == ps;
    forall i | 0 <= i < |xs| ensures Mapped(ps, de)[i] == xs[i] {}
  }

  // ---- From cache to cache ----

  function Parts(ms: seq<Message>): (xs: seq<Incoming>)
    ensures |xs| == |ms| && forall i :: 0 <= i < |ms| ==> xs[i] == Part(ms[i])
  {
    seq(|ms|, i requires 0 <= i < |ms| => Part(ms[i]))
  }

  lemma {:induction false} PartsAccepted(request: string, ms: seq<Message>)
    requires forall m :: m in ms ==> m.request == request
    ensures (forall x :: x in Parts(ms) ==> Passing(request, x)) && Accepted(request, Parts(ms)) == ms
  {
    if ms != [] {
      assert forall m :: m in ms[1..] ==> m in ms;
      PartsAccepted(request, ms[1..]);
      assert Parts(ms)[1..] == Parts(ms[1..]);
      assert ms[0] in ms && Parts(ms)[0] == Part(ms[0]);
    }
  }

  lemma {:induction false} QuantizedSendable(cache: map<LayerId, KV>, headDim: nat,
                              precisions: map<LayerId, seq<PrecisionLevels.Precision>>)
    requires CacheShaped(cache, headDim)
    ensures var q := Quantize(cache, headDim, precisions); AllSendable(q) && q.Keys == cache.Keys && |q| == |cache|
  {
    var q := Quantize(cache, headDim, precisions);
    forall l | l in q ensures Sendable(q[l]) {
      assert WellShaped(cache[l], headDim);
    }
    assert |q| == |q.Keys| && |cache| == |cache.Keys|;
  }

  /** `out` recovers every layer of `cache`, each at its own precision. */
  ghost predicate RecoversAll(cache: map<LayerId, KV>, headDim: nat,
                              precisions: map<LayerId, seq<PrecisionLevels.Precision>>,
                              out: map<LayerId, KV>)
    requires CacheShaped(cache, headDim)
  {
    out.Keys == cache.Keys && forall l :: l in cache ==>
      LayerRecovers(cache[l], headDim, LayerPrecision(precisions, l), out[l])
  }

  ghost predicate LayerRecovers(kv: KV, headDim: nat, p: PrecisionLevels.Precision, out: KV)
    requires WellShaped(kv, headDim)
  {
    Recovers(kv.k, out.k, p, PerChannel(headDim)) && Recovers(kv.v, out.v, p, PerToken)
  }

  lemma {:induction false} QuantizationRecovers(cache: map<LayerId, KV>, headDim: nat,
                              precisions: map<LayerId, seq<PrecisionLevels.Precision>>)
    requires CacheShaped(cache, headDim)
    ensures RecoversAll(cache, headDim, precisions, Dequantize(Quantize(cache, headDim, precisions)))
  {
    var out := Dequantize(Quantize(cache, headDim, precisions));
    forall l | l in cache ensures LayerRecovers(cache[l], headDim, LayerPrecision(precisions, l), out[l]) {
      CacheRecovers(cache, headDim, precisions, l);
    }
  }

  /** What a sender sends in a session: its chunks, then decode_start. */
  function SentBy(ms: seq<Message>): seq<Incoming> {
    Parts(ms) + [DecodeStart]
  }

  /** The bytes of a sender's session. */
  function Wire(ms: seq<Message>, ser: Incoming -> Payload): seq<Byte> {
    FrameAll(Mapped(SentBy(ms), ser))
  }

  /** What a session makes of the bytes it receives. */
  ghost function ServedBytes<R>(numLayers: int, request: string, bytes: seq<Byte>, de: Payload -> Incoming,
                                decode: map<LayerId, KV> -> Option<R>): Session<R>
  {
    Served(numLayers, request, Mapped(Payloads(bytes), de), decode)
  }

  lemma {:induction false} ReceivedMessages(request: string, ms: seq<Message>, ser: Incoming -> Payload,
                              de: Payload -> Incoming)
    requires Serialises(SentBy(ms), ser, de) && forall m :: m in ms ==> m.request == request
    ensures Mapped(Payloads(Wire(ms, ser)), de) == Parts(ms) + [DecodeStart] + []
    ensures (forall x :: x in Parts(ms) ==> Passing(request, x)) && Accepted(request, Parts(ms)) == ms[..|ms|]
  {
    WireRoundTrip(SentBy(ms), ser, de);
    PartsAccepted(request, ms);
    assert ms[..|ms|] == ms;
    assert Parts(ms) + [DecodeStart] + [] == Parts(ms) + [DecodeStart];
  }

  /** Any layers, chunked and sent as frames, are decoded once, dequantised, and answered once. */
  lemma {:induction false} LayersTransfer<R>(layers: map<LayerId, Layer>, numLayers: int, request: string, size: nat,
                              ms: seq<Message>,
                              ser: Incoming -> Payload, de: Payload -> Incoming, decode: map<LayerId, KV> -> Option<R>)
    returns (s: Session<R>)
    requires size > 0 && AllSendable(layers) && layers != map[] && CountFits(numLayers, |layers|)
    requires Interleaving(ms, request, layers, size) && Serialises(SentBy(ms), ser, de)
    ensures s == ServedBytes(numLayers, request, Wire(ms, ser), de, decode)
    ensures s.decoded == [Dequantize(layers)] && s.replies == [Answer(decode, Dequantize(layers))]
  {
    InterleavingIsChunking(ms, request, layers, size);
    ReceivedMessages(request, ms, ser, de);
    s := SenderSession(numLayers, request, layers, size, ms, |ms|, Parts(ms), [], decode);
  }

  /**
    A whole transfer: quantise the cache, send its chunks in any interleaving of the layers followed by decode_start,
    as length-prefixed frames.  The server decodes once, on a cache that recovers the original, and answers once.
   */
  lemma {:induction false} TransferRecovers<R>(cache: map<LayerId, KV>, headDim: nat,
                              precisions: map<LayerId, seq<PrecisionLevels.Precision>>,
                              numLayers: int, request: string, size: nat, ms: seq<Message>,
                              ser: Incoming -> Payload, de: Payload -> Incoming, decode: map<LayerId, KV> -> Option<R>)
    returns (s: Session<R>)
    requires CacheShaped(cache, headDim) && cache != map[] && CountFits(numLayers, |cache|) && size > 0
    requires AllSendable(Quantize(cache, headDim, precisions)) &&
             Interleaving(ms, request, Quantize(cache, headDim, precisions), size)
    requires Serialises(SentBy(ms), ser, de)
    ensures s == ServedBytes(numLayers, request, Wire(ms, ser), de, decode)
    ensures |s.decoded| == 1 && RecoversAll(cache, headDim, precisions, s.decoded[0])
    ensures s.replies == [Answer(decode, s.decoded[0])]
  {
    QuantizedSendable(cache, headDim, precisions);
    QuantizationRecovers(cache, headDim, precisions);
    s := LayersTransfer(Quantize(cache, headDim, precisions), numLayers, request, size, ms, ser, de, decode);
  }

  /** The sender's own stream is such an interleaving, whatever importances and bandwidth it is ordered and cut by. */
  lemma {:induction false} SenderStream(cache: map<LayerId, KV>, headDim: nat,
                              precisions: map<LayerId, seq<PrecisionLevels.Precision>>,
                              request: string, keys: seq<LayerId>, importance: map<LayerId, real>, bandwidth: real)
    requires CacheShaped(cache, headDim) && Distinct(keys) && forall l :: l in keys <==> l in cache
    ensures var q, order := Quantize(cache, headDim, precisions), Sender.LayerOrder(keys, importance);
            && AllSendable(q) && (forall l :: l in order ==> l in q)
            && Interleaving(Stream(request, order, q, Sender.AdaptiveChunkSize(bandwidth)), request, q,
                            Sender.AdaptiveChunkSize(bandwidth))
  {
    QuantizedSendable(cache, headDim, precisions);
    Sender.LayerOrderComplete(keys, importance);
    StreamInterleaves(request, Sender.LayerOrder(keys, importance), Quantize(cache, headDim, precisions),
                      Sender.AdaptiveChunkSize(bandwidth));
  }

  // ---- Transfers after dropped layers ----

  lemma {:induction false} CountAfterDrop(shapes: seq<Shape>, gone: seq<LayerId>, left: set<LayerId>)
    requires DistinctShapes(shapes) && Gone(gone) <= LayersOf(shapes)
    requires left == LayersOf(Remaining(shapes, gone))
    ensures |left| == |Remaining(shapes, gone)|
    ensures CountFits(|shapes| - |gone|, |left|) <==> (Distinct(gone) || |Remaining(shapes, gone)| == 1)
  {
    RemainingDistinct(shapes, gone);
    LayersCount(Remaining(shapes, gone));
    LayerCountExact(shapes, gone);
  }

  lemma {:induction false} Announced(numLayers: int, fits: bool, request: string, order: seq<LayerId>,
                              kv: map<LayerId, Layer>, size: nat)
    requires kv != map[] && (CountFits(numLayers, |kv.Keys|) <==> fits)
    requires size > 0 && AllSendable(kv) && Distinct(order) && forall l :: l in order <==> l in kv
    ensures Run(numLayers, Stream(request, order, kv, size)).delivered == [Deliver(request, kv)] <==> fits
  {
    assert |kv| == |kv.Keys|;
    CountExact(numLayers, request, order, kv, size);
  }

  /**
    After layers were dropped, the count that is announced is too low as soon as one layer was listed twice.
    The remaining layers arrive as one complete delivery exactly when that did not happen, or only one is left.
   */
  lemma {:induction false} DropThenTransfer(shapes: seq<Shape>, gone: seq<LayerId>, announced: int, request: string,
                              order: seq<LayerId>, kv: map<LayerId, Layer>, size: nat)
    requires DistinctShapes(shapes) && Gone(gone) <= LayersOf(shapes) && announced == |shapes| - |gone|
    requires kv.Keys == LayersOf(Remaining(shapes, gone)) && kv != map[]
    requires size > 0 && AllSendable(kv) && Distinct(order) && forall l :: l in order <==> l in kv
    ensures Run(announced, Stream(request, order, kv, size)).delivered == [Deliver(request, kv)]
       <==> (Distinct(gone) || |Remaining(shapes, gone)| == 1)
  {
    CountAfterDrop(shapes, gone, kv.Keys);
    var fits := Distinct(gone) || |Remaining(shapes, gone)| == 1;
    Announced(announced, fits, request, order, kv, size);
  }

  /**
    The drop loop reaches that case: of four equal and equally important layers under a budget of five quarter bytes per
    element of a layer, two are sent under a count of -1.  The session decodes the layer sent last, alone, and reports
    success if that decode succeeds.
   */
  lemma {:induction false} DropThenBroken<R>(shapes: seq<Shape>, size: nat, importance: Importance, m: real,
                              useFidelity: bool, t: Turn, first: Result, n: nat, request: string,
                              order: seq<LayerId>, kv: map<LayerId, Layer>, chunk: nat,
                              decode: map<LayerId, KV> -> Option<R>)
    returns (s: Session<R>)
    requires FourLayers(shapes, size) && size > 0 && EquallyImportant(shapes, importance, m)
    requires Allocated(MeasureAll(shapes), importance, (5 * size) as real, 4, useFidelity, first)
    requires ShortestFit(shapes, first.dropped, (5 * size) as real, n)
    requires Reallocated(t, shapes, importance, first.dropped, n, (5 * size) as real, 4, useFidelity)
    requires kv.Keys == LayersOf(t.shapes) && kv != map[]
    requires chunk > 0 && AllSendable(kv) && Distinct(order) && forall l :: l in order <==> l in kv
    ensures t.numLayers == -1 && |order| == |kv| == 2
    ensures Run(t.numLayers, Stream(request, order, kv, chunk)).delivered != [Deliver(request, kv)]
    ensures s == Served(t.numLayers, request, SentBy(Stream(request, order, kv, chunk)), decode)
    ensures var last := Dequantize(map[order[1] := kv[order[1]]]);
            s.decoded == [last] && s.replies == [Answer(decode, last)]
  {
    DropMiscounts(shapes, size, importance, m, useFidelity, t, first, n);
    assert |t.shapes| == 2;
    s := BrokenTransfer(shapes, first.dropped[..n], t, request, order, kv, chunk, decode);
  }

  lemma {:induction false} BrokenTransfer<R>(shapes: seq<Shape>, gone: seq<LayerId>, t: Turn, request: string,
                              order: seq<LayerId>, kv: map<LayerId, Layer>, size: nat,
                              decode: map<LayerId, KV> -> Option<R>)
    returns (s: Session<R>)
    requires DistinctShapes(shapes) && Gone(gone) <= LayersOf(shapes) && !Distinct(gone)
    requires t.shapes == Remaining(shapes, gone) && |t.shapes| == 2 && t.numLayers == |shapes| - |gone| == -1
    requires kv.Keys == LayersOf(t.shapes)
    requires size > 0 && AllSendable(kv) && Distinct(order) && forall l :: l in order <==> l in kv
    ensures |order| == |kv| == 2
    ensures Run(t.numLayers, Stream(request, order, kv, size)).delivered != [Deliver(request, kv)]
    ensures s == Served(t.numLayers, request, SentBy(Stream(request, order, kv, size)), decode)
    ensures var last := Dequantize(map[order[1] := kv[order[1]]]);
            s.decoded == [last] && s.replies == [Answer(decode, last)]
  {
    RemainingDistinct(shapes, gone);
    TwoLeft(t.shapes, order, kv);
    Undelivered(shapes, gone, t, request, order, kv, size);
    s := LastLayerAlone(request, order, kv, size, decode);
  }

  lemma {:induction false} TwoLeft(shapes: seq<Shape>, order: seq<LayerId>, kv: map<LayerId, Layer>)
    requires |shapes| == 2 && DistinctShapes(shapes) && kv.Keys == LayersOf(shapes)
    requires Distinct(order) && forall l :: l in order <==> l in kv
    ensures |order| == |kv| == 2
  {
    LayersCount(shapes);
    DistinctCount(order);
    assert kv.Keys == set l | l in order;
    assert |kv| == |kv.Keys|;
  }

  /** Two layers sent under a count of -1. */
  lemma {:induction false} LastLayerAlone<R>(request: string, order: seq<LayerId>, kv: map<LayerId, Layer>, size: nat,
                              decode: map<LayerId, KV> -> Option<R>)
    returns (s: Session<R>)
    requires size > 0 && AllSendable(kv) && Distinct(order) && |order| == 2 && forall l :: l in order <==> l in kv
    ensures s == Served(-1, request, SentBy(Stream(request, order, kv, size)), decode)
    ensures var last := Dequantize(map[order[1] := kv[order[1]]]);
            s.decoded == [last] && s.replies == [Answer(decode, last)]
  {
    var ms := Stream(request, order, kv, size);
    PartsAccepted(request, ms);
    s := CountedSession(-1, request, order, kv, size, Parts(ms), [], decode);
    assert SentBy(ms) == Parts(ms) + [DecodeStart] + [];
    LastOfTwo(order, kv);
  }

  lemma {:induction false} LastOfTwo(order: seq<LayerId>, kv: map<LayerId, Layer>)
    requires |order| == 2 && order[1] in kv
    ensures PartOf(kv, LastFull(order, 1)) == map[order[1] := kv[order[1]]]
  {
    assert LastFull(order, 1) == [order[1]];
  }

  lemma {:induction false} Undelivered(shapes: seq<Shape>, gone: seq<LayerId>, t: Turn, request: string,
                              order: seq<LayerId>, kv: map<LayerId, Layer>, size: nat)
    requires DistinctShapes(shapes) && Gone(gone) <= LayersOf(shapes) && !Distinct(gone)
    requires t.shapes == Remaining(shapes, gone) && |t.shapes| > 1 && t.numLayers == |shapes| - |gone|
    requires kv.Keys == LayersOf(t.shapes) && kv != map[]
    requires size > 0 && AllSendable(kv) && Distinct(order) && forall l :: l in order <==> l in kv
    ensures Run(t.numLayers, Stream(request, order, kv, size)).delivered != [Deliver(request, kv)]
  {
    DropThenTransfer(shapes, gone, t.numLayers, request, order, kv, size);
  }
}
