/**
  What the assembler delivers over whole runs: any arrival order of any disjoint chunking, interleaved
  requests, cancellations, and the sender's own stream.
 */
module DeliveryRuns {
  import opened Options
  import opened Layers
  import opened Quantizer
  import opened Seqs
  import opened Sorting
  import opened Chunks
  import opened Assembly

  /** The assembler's state after receiving `ms` from the empty state. */
  ghost function Run(numLayers: int, ms: seq<Message>): State {
    if ms == [] then State(map[], [])
    else Receive(Run(numLayers, ms[..|ms| - 1]), numLayers, ms[|ms| - 1])
  }

  // ---- Gathered buffers ----

  function Gather(ms: seq<Message>): Buffer {
    if ms == [] then map[] else Store(Gather(ms[..|ms| - 1]), ms[|ms| - 1])
  }

  function ToChunks(ms: seq<Message>): seq<Chunk> {
    seq(|ms|, i requires 0 <= i < |ms| => ToChunk(ms[i]))
  }

  function Gathered(lms: seq<Message>): Info
    requires lms != []
  {
    Info(ToChunks(lms), lms[0].total, lms[0].meta)
  }

  /** A layer's buffer holds its messages in arrival order; length and metadata are those of the first. */
  lemma {:induction false} GatherLayer(ms: seq<Message>, l: LayerId)
    ensures l in Gather(ms) <==> OfLayer(ms, l) != []
    ensures l in Gather(ms) ==> Gather(ms)[l] == Gathered(OfLayer(ms, l))
  {
    if ms != [] {
      var before, m := ms[..|ms| - 1], ms[|ms| - 1];
      GatherLayer(before, l);
      assert ms == before + [m];
      OfLayerConcat(before, [m], l);
      if m.layer == l {
        OfLayerAll([m], l);
        GatheredAppend(OfLayer(before, l), m);
      } else {
        OfLayerNone([m], l);
        assert OfLayer(ms, l) == OfLayer(before, l);
      }
    }
  }

  lemma {:induction false} GatheredAppend(lms: seq<Message>, m: Message)
    ensures ToChunks(lms + [m]) == ToChunks(lms) + [ToChunk(m)]
    ensures lms != [] ==> Gathered(lms + [m]) == Gathered(lms).(chunks := Gathered(lms).chunks + [ToChunk(m)])
    ensures lms == [] ==> Gathered(lms + [m]) == Info([] + [ToChunk(m)], m.total, m.meta)
  {
  }

  /** As long as nothing completes, the assembler just gathers. */
  lemma {:induction false} GatherUntilReady(numLayers: int, request: string, ms: seq<Message>)
    requires forall m :: m in ms ==> m.request == request
    requires forall j :: 1 <= j <= |ms| ==> !(ms[j - 1].last && Ready(Gather(ms[..j]), numLayers))
    ensures Run(numLayers, ms) == State(if ms == [] then map[] else map[request := Gather(ms)], [])
  {
    if ms != [] {
      var before := ms[..|ms| - 1];
      assert forall j :: 1 <= j <= |before| ==> before[..j] == ms[..j] && before[j - 1] == ms[j - 1];
      GatherUntilReady(numLayers, request, before);
      assert ms[..|ms|] == ms;
      assert ms[|ms| - 1] in ms;
    }
  }

  // ---- Disjoint chunkings ----

  ghost predicate InPlace(c: Chunk, l: Layer) {
    && 0 <= c.start < c.end <= |l.k| == |l.v|
    && c.k == l.k[c.start..c.end] && c.v == l.v[c.start..c.end]
  }

  ghost predicate Apart(c: Chunk, d: Chunk) {
    c.end <= d.start || d.end <= c.start
  }

  /** The chunks are disjoint pieces of the layer, in any order, that together cover it. */
  ghost predicate Tiles(cs: seq<Chunk>, l: Layer) {
    && (forall i :: 0 <= i < |cs| ==> InPlace(cs[i], l))
    && (forall i, j :: 0 <= i < j < |cs| ==> Apart(cs[i], cs[j]))
    && (forall p :: 0 <= p < |l.k| ==> Covered(cs, p))
  }

  lemma {:induction false} TilesPermuted(cs: seq<Chunk>, ds: seq<Chunk>, l: Layer)
    requires Tiles(cs, l) && multiset(cs) == multiset(ds)
    ensures Tiles(ds, l)
  {
    assert forall c :: c in cs <==> c in multiset(cs);
    assert forall d :: d in ds <==> d in multiset(ds);
    forall i | 0 <= i < |ds| ensures InPlace(ds[i], l) {
      assert ds[i] in cs;
    }
    forall i, j | 0 <= i < j < |ds| ensures Apart(ds[i], ds[j]) {
      if ds[i] == ds[j] {
        TwiceInMultiset(ds, i, j);
        var a, b := TwoIndices(cs, ds[i]);
        assert Apart(cs[a], cs[b]);
      } else {
        assert ds[i] in cs && ds[j] in cs;
      }
    }
    forall p | 0 <= p < |l.k| ensures Covered(ds, p) {
      assert Covered(cs, p);
      var i :| 0 <= i < |cs| && cs[i].start <= p < cs[i].end;
      assert cs[i] in ds;
    }
  }

  /** In start order, tiles follow each other without a gap. */
  lemma {:induction false} Contiguous(cs: seq<Chunk>, l: Layer, i: nat)
    requires Tiles(cs, l) && SortedBy(cs, ByStart()) && i <= |cs|
    ensures var p := if i == 0 then 0 else cs[i - 1].end;
            if i == |cs| then p == |l.k| else cs[i].start == p
  {
    var p := if i == 0 then 0 else cs[i - 1].end;
    forall j | 0 <= j < i ensures cs[j].end <= p {
      assert ByStart()(cs[j]) <= ByStart()(cs[i - 1]);
      if j < i - 1 { assert Apart(cs[j], cs[i - 1]); }
    }
    if i < |cs| && i > 0 {
      assert ByStart()(cs[i - 1]) <= ByStart()(cs[i]) && Apart(cs[i - 1], cs[i]);
    }
    if p < |l.k| {
      var h := Coverer(cs, l, p);
      assert i < h ==> ByStart()(cs[i]) <= ByStart()(cs[h]);
    }
  }

  lemma {:induction false} Coverer(cs: seq<Chunk>, l: Layer, p: nat) returns (h: nat)
    requires Tiles(cs, l) && p < |l.k|
    ensures h < |cs| && cs[h].start <= p < cs[h].end
  {
    assert Covered(cs, p);
    h :| 0 <= h < |cs| && cs[h].start <= p < cs[h].end;
  }

  lemma {:induction false} Rejoin(x: Tensor, a: nat, b: nat)
    requires a <= b <= |x|
    ensures x[a..b] + x[b..] == x[a..]
  {
  }

  lemma {:induction false} JoinHead(cs: seq<Chunk>, i: nat)
    requires i < |cs|
    ensures JoinK(cs[i..]) == cs[i].k + JoinK(cs[i + 1..]) && JoinV(cs[i..]) == cs[i].v + JoinV(cs[i + 1..])
  {
    assert cs[i..][1..] == cs[i + 1..];
  }

  lemma {:induction false} JoinFrom(cs: seq<Chunk>, l: Layer, i: nat)
    requires Tiles(cs, l) && SortedBy(cs, ByStart()) && i <= |cs| && |l.k| == |l.v|
    ensures var p := if i == 0 then 0 else cs[i - 1].end;
            0 <= p <= |l.k| && JoinK(cs[i..]) == l.k[p..] && JoinV(cs[i..]) == l.v[p..]
    decreases |cs| - i
  {
    Contiguous(cs, l, i);
    if i < |cs| {
      JoinFrom(cs, l, i + 1);
      JoinHead(cs, i);
      assert InPlace(cs[i], l);
      Rejoin(l.k, cs[i].start, cs[i].end);
      Rejoin(l.v, cs[i].start, cs[i].end);
    }
  }

  /** Sorting tiles by start and concatenating them gives back the layer's tensors. */
  lemma {:induction false} ReassembledTiles(info: Info, l: Layer)
    requires Tiles(info.chunks, l) && |l.k| == |l.v|
    ensures Reassembled(info) == Layer(l.k, l.v, info.meta)
  {
    var sorted := Sort(info.chunks, ByStart());
    SortSorted(info.chunks, ByStart());
    TilesPermuted(info.chunks, sorted, l);
    JoinFrom(sorted, l, 0);
    assert sorted[0..] == sorted;
  }

  // ---- Any arrival order ----

  /** `ms` delivers, in any order, a disjoint chunking of exactly these layers. */
  ghost predicate Chunking(ms: seq<Message>, request: string, layers: map<LayerId, Layer>) {
    && AllSendable(layers)
    && (forall m :: m in ms ==> m.request == request && m.layer in layers && m.total == |layers[m.layer].k|)
    && (forall l :: l in layers ==> Tiles(ToChunks(OfLayer(ms, l)), layers[l]))
  }

  /** The assembler's expected layer count fits: it is the number of layers, or there is one layer and no wait. */
  predicate CountFits(numLayers: int, layers: nat) {
    numLayers == layers || (layers == 1 && numLayers <= 1)
  }

  lemma {:induction false} PresentInside(ms: seq<Message>, request: string, layers: map<LayerId, Layer>, j: nat)
    requires Chunking(ms, request, layers) && j <= |ms|
    ensures Gather(ms[..j]).Keys <= layers.Keys
  {
    forall l | l in Gather(ms[..j]) ensures l in layers {
      GatherLayer(ms[..j], l);
      var m := OfLayer(ms[..j], l)[0];
      assert m in OfLayer(ms[..j], l);
      assert m in ms;
    }
  }

  /** Before the last chunk is in, some layer is missing or has a hole. */
  lemma {:induction false} NotReadyEarly(numLayers: int, ms: seq<Message>, request: string,
                              layers: map<LayerId, Layer>, j: nat)
    requires Chunking(ms, request, layers) && CountFits(numLayers, |layers|) && 1 <= j < |ms|
    ensures !Ready(Gather(ms[..j]), numLayers)
  {
    var buf, m := Gather(ms[..j]), ms[j];
    var l := m.layer;
    assert m in ms;
    PresentInside(ms, request, layers, j);
    GatherLayer(ms[..j], l);
    if l in buf {
      HoleLeft(ms, request, layers, j);
    } else {
      GatherLayer(ms[..j], ms[0].layer);
      assert ms[0] in ms[..j];
      assert ms[0] in OfLayer(ms[..j], ms[0].layer);
      assert ms[0].layer in buf.Keys;
      assert buf.Keys <= layers.Keys - {l};
      CardinalityMonotone(buf.Keys, layers.Keys - {l});
      assert |buf| == |buf.Keys| && |layers| == |layers.Keys|;
    }
  }

  lemma {:induction false} CardinalityMonotone(a: set<LayerId>, b: set<LayerId>)
    requires a <= b
    ensures |a| <= |b|
  {
    if exists x :: x in a {
      var x :| x in a;
      CardinalityMonotone(a - {x}, b - {x});
    } else {
      assert a == {};
    }
  }

  lemma {:induction false} HoleLeft(ms: seq<Message>, request: string, layers: map<LayerId, Layer>, j: nat)
    requires Chunking(ms, request, layers) && j < |ms| && ms[j].layer in Gather(ms[..j])
    ensures !Complete(Gather(ms[..j])[ms[j].layer])
  {
    var l := ms[j].layer;
    GatherLayer(ms[..j], l);
    var a := OfLayer(ms[..j], l);
    var b := AfterPrefix(ms, j);
    PrefixChunks(a, b);
    HoleInTiles(ToChunks(a + b), ToChunks(a), layers[l]);
    assert a[0] in a && a[0] in ms;
    var p := ToChunks(a + b)[|a|].start;
    assert !Covered(Gather(ms[..j])[l].chunks, p);
    assert Gather(ms[..j])[l].total == |layers[l].k|;
  }

  /** Splitting a layer's messages at message `j`, which belongs to it. */
  lemma {:induction false} AfterPrefix(ms: seq<Message>, j: nat) returns (b: seq<Message>)
    requires j < |ms|
    ensures b != [] && OfLayer(ms, ms[j].layer) == OfLayer(ms[..j], ms[j].layer) + b
  {
    var l := ms[j].layer;
    var before, after := ms[..j], ms[j + 1..];
    assert ms == before + ([ms[j]] + after);
    OfLayerConcat(before, [ms[j]] + after, l);
    OfLayerConcat([ms[j]], after, l);
    OfLayerAll([ms[j]], l);
    b := [ms[j]] + OfLayer(after, l);
  }

  lemma {:induction false} PrefixChunks(a: seq<Message>, b: seq<Message>)
    ensures ToChunks(a) == ToChunks(a + b)[..|a|]
  {
  }

  /** A proper prefix of a tiling leaves the start of the next tile uncovered. */
  lemma {:induction false} HoleInTiles(all: seq<Chunk>, part: seq<Chunk>, l: Layer)
    requires Tiles(all, l) && |part| < |all| && part == all[..|part|]
    ensures !Covered(part, all[|part|].start) && 0 <= all[|part|].start < |l.k|
  {
    var c := all[|part|];
    assert InPlace(c, l);
    forall i | 0 <= i < |part| ensures !(part[i].start <= c.start < part[i].end) {
      assert Apart(all[i], c);
    }
  }

  lemma {:induction false} LayerReady(ms: seq<Message>, request: string, layers: map<LayerId, Layer>, l: LayerId)
    requires Chunking(ms, request, layers) && l in layers
    ensures l in Gather(ms) && OfLayer(ms, l) != [] && Complete(Gather(ms)[l])
    ensures Reassembled(Gather(ms)[l]) == ArrivedLayer(OfLayer(ms, l), layers[l])
  {
    GatherLayer(ms, l);
    var lms := OfLayer(ms, l);
    assert Covered(ToChunks(lms), 0);
    assert lms[0] in lms;
    ReassembledTiles(Gathered(lms), layers[l]);
    TilesComplete(Gathered(lms), layers[l]);
  }

  lemma {:induction false} TilesComplete(info: Info, l: Layer)
    requires Tiles(info.chunks, l) && info.total == |l.k|
    ensures Complete(info)
  {
    assert forall i :: 0 <= i < |info.chunks| ==> InPlace(info.chunks[i], l);
  }

  lemma {:induction false} AllPresent(ms: seq<Message>, request: string, layers: map<LayerId, Layer>)
    requires Chunking(ms, request, layers)
    ensures Gather(ms).Keys == layers.Keys && |Gather(ms)| == |layers|
  {
    var buf := Gather(ms);
    forall l | l in layers.Keys ensures l in buf.Keys {
      LayerReady(ms, request, layers, l);
    }
    assert ms[..|ms|] == ms;
    PresentInside(ms, request, layers, |ms|);
    assert |buf| == |buf.Keys| && |layers| == |layers.Keys|;
  }

  lemma {:induction false} AllReady(numLayers: int, ms: seq<Message>, request: string, layers: map<LayerId, Layer>)
    requires Chunking(ms, request, layers) && CountFits(numLayers, |layers|)
    ensures Ready(Gather(ms), numLayers)
  {
    AllPresent(ms, request, layers);
    forall l | l in Gather(ms) ensures Complete(Gather(ms)[l]) {
      LayerReady(ms, request, layers, l);
    }
  }

  lemma {:induction false} AllReassembled(ms: seq<Message>, request: string, layers: map<LayerId, Layer>)
    requires Chunking(ms, request, layers)
    ensures ReassembledAll(Gather(ms)) == Arrived(ms, layers)
  {
    AllPresent(ms, request, layers);
    forall l | l in layers ensures Reassembled(Gather(ms)[l]) == ArrivedLayer(OfLayer(ms, l), layers[l]) {
      LayerReady(ms, request, layers, l);
    }
    SameMaps(ReassembledAll(Gather(ms)), Arrived(ms, layers));
  }

  lemma {:induction false} SameMaps(a: map<LayerId, Layer>, b: map<LayerId, Layer>)
    requires a.Keys == b.Keys && forall l :: l in a ==> a[l] == b[l]
    ensures a == b
  {
  }

  /** The layers as they arrive: original tensors, with the metadata of each layer's first arrival. */
  function Arrived(ms: seq<Message>, layers: map<LayerId, Layer>): map<LayerId, Layer> {
    map l | l in layers :: ArrivedLayer(OfLayer(ms, l), layers[l])
  }

  function ArrivedLayer(lms: seq<Message>, l: Layer): Layer {
    Layer(l.k, l.v, if lms == [] then None else lms[0].meta)
  }

  /**
    Any arrival order: nothing is delivered before the last chunk is in; then exactly one delivery with the
    original tensors happens if that last arrival is marked last, and none otherwise.
   */
  lemma {:induction false} AnyOrder(numLayers: int, ms: seq<Message>, request: string, layers: map<LayerId, Layer>)
    requires Chunking(ms, request, layers) && CountFits(numLayers, |layers|) && layers != map[]
    ensures ms != []
    ensures forall j :: 0 <= j < |ms| ==> Run(numLayers, ms[..j]).delivered == []
    ensures Run(numLayers, ms).delivered ==
            if ms[|ms| - 1].last then [Deliver(request, Arrived(ms, layers))] else []
    ensures ms[|ms| - 1].last ==> Run(numLayers, ms).buffers == map[]
  {
    AllReady(numLayers, ms, request, layers);
    AllReassembled(ms, request, layers);
    var l :| l in layers;
    LayerReady(ms, request, layers, l);
    assert OfLayer(ms, l)[0] in OfLayer(ms, l);
    forall j | 0 <= j < |ms| ensures Run(numLayers, ms[..j]).delivered == [] {
      GathersBefore(numLayers, ms, request, layers, j);
    }
    LastArrival(numLayers, ms, request, layers);
  }

  lemma {:induction false} LastArrival(numLayers: int, ms: seq<Message>, request: string, layers: map<LayerId, Layer>)
    requires Chunking(ms, request, layers) && CountFits(numLayers, |layers|) && ms != []
    requires Ready(Gather(ms), numLayers) && ReassembledAll(Gather(ms)) == Arrived(ms, layers)
    ensures Run(numLayers, ms).delivered ==
            if ms[|ms| - 1].last then [Deliver(request, Arrived(ms, layers))] else []
    ensures ms[|ms| - 1].last ==> Run(numLayers, ms).buffers == map[]
  {
    var before, m := ms[..|ms| - 1], ms[|ms| - 1];
    GathersBefore(numLayers, ms, request, layers, |ms| - 1);
    GatherEmpty(before);
    assert m in ms && m.request == request;
    LastChunkDelivers(Run(numLayers, before), numLayers, m, Gather(before));
  }

  /** A chunk that makes everything ready is delivered at once if it is marked last, and nothing is left. */
  lemma {:induction false} LastChunkDelivers(s: State, numLayers: int, m: Message, held: Buffer)
    requires s == State(if held == map[] then map[] else map[m.request := held], []) && Ready(Store(held, m), numLayers)
    ensures Receive(s, numLayers, m).delivered ==
            if m.last then [Deliver(m.request, ReassembledAll(Store(held, m)))] else []
    ensures m.last ==> Receive(s, numLayers, m).buffers == map[]
  {
    assert BufferOf(s, m.request) == held;
  }

  lemma {:induction false} GatherEmpty(ms: seq<Message>)
    ensures Gather(ms) == map[] <==> ms == []
  {
    if ms != [] { assert ms[|ms| - 1].layer in Gather(ms); }
  }

  lemma {:induction false} GathersBefore(numLayers: int, ms: seq<Message>, request: string,
                              layers: map<LayerId, Layer>, j: nat)
    requires Chunking(ms, request, layers) && CountFits(numLayers, |layers|) && j < |ms|
    ensures Run(numLayers, ms[..j]) == State(if j == 0 then map[] else map[request := Gather(ms[..j])], [])
  {
    var part := ms[..j];
    forall i | 1 <= i <= |part| ensures !Ready(Gather(part[..i]), numLayers) {
      assert part[..i] == ms[..i];
      NotReadyEarly(numLayers, ms, request, layers, i);
    }
    GatherUntilReady(numLayers, request, part);
  }

  /**
    Metadata under reordering: what is handed to the dequantiser is what the sender holds exactly when each
    layer's first arrival carries that layer's metadata.
   */
  lemma {:induction false} MetadataExact(ms: seq<Message>, request: string, layers: map<LayerId, Layer>)
    requires Chunking(ms, request, layers)
    ensures Arrived(ms, layers) == layers <==>
            forall l :: l in layers ==> OfLayer(ms, l) != [] && OfLayer(ms, l)[0].meta == layers[l].meta
  {
    var arrived := Arrived(ms, layers);
    forall l | l in layers ensures OfLayer(ms, l) != [] {
      LayerReady(ms, request, layers, l);
    }
    if forall l :: l in layers ==> OfLayer(ms, l)[0].meta == layers[l].meta {
      SameMaps(arrived, layers);
    } else {
      var l :| l in layers && OfLayer(ms, l)[0].meta != layers[l].meta;
      assert arrived[l] != layers[l];
    }
  }

  // ---- The sender's own chunks ----

  /** In-place pieces in increasing order that cover everything from token `start` on. */
  ghost predicate Consecutive(cs: seq<Chunk>, l: Layer, start: nat) {
    && (forall i :: 0 <= i < |cs| ==> InPlace(cs[i], l) && start <= cs[i].start)
    && (forall i, j :: 0 <= i < j < |cs| ==> cs[i].end <= cs[j].start)
    && (forall p :: start <= p < |l.k| ==> Covered(cs, p))
  }

  lemma {:induction false} MessagesConsecutive(request: string, idx: LayerId, l: Layer, size: nat, start: nat)
    requires size > 0 && |l.k| == |l.v|
    ensures Consecutive(ToChunks(LayerMessages(request, idx, l, size, start)), l, start)
    decreases |l.k| - start
  {
    if start < |l.k| {
      MessagesConsecutive(request, idx, l, size, start + size);
      var rest := LayerMessages(request, idx, l, size, start + size);
      ConsecutiveCons(ChunkAt(request, idx, l, size, start), rest, l, start, start + size);
    }
  }

  lemma {:induction false} ConsecutiveCons(m: Message, rest: seq<Message>, l: Layer, start: nat, next: nat)
    requires InPlace(ToChunk(m), l) && m.start == start && (m.end == next || m.end == |l.k| <= next)
    requires Consecutive(ToChunks(rest), l, next)
    ensures Consecutive(ToChunks([m] + rest), l, start)
  {
    var cs, ds := ToChunks([m] + rest), ToChunks(rest);
    assert cs == [ToChunk(m)] + ds;
    forall p | start <= p < |l.k| ensures Covered(cs, p) {
      if p < m.end {
        assert cs[0].start <= p < cs[0].end;
      } else {
        assert Covered(ds, p);
        var i :| 0 <= i < |ds| && ds[i].start <= p < ds[i].end;
        assert cs[i + 1] == ds[i];
      }
    }
  }

  /** The layers' message streams are interleaved somehow, each in its own order. */
  ghost predicate Interleaving(ms: seq<Message>, request: string, layers: map<LayerId, Layer>, size: nat)
    requires size > 0 && AllSendable(layers)
  {
    && (forall m :: m in ms ==> m.layer in layers)
    && (forall l :: l in layers ==> OfLayer(ms, l) == LayerMessages(request, l, layers[l], size, 0))
  }

  lemma {:induction false} MessagesTile(request: string, idx: LayerId, l: Layer, size: nat)
    requires size > 0 && |l.k| == |l.v|
    ensures Tiles(ToChunks(LayerMessages(request, idx, l, size, 0)), l)
  {
    MessagesConsecutive(request, idx, l, size, 0);
  }

  lemma {:induction false} InterleavingIsChunking(ms: seq<Message>, request: string, layers: map<LayerId, Layer>,
                              size: nat)
    requires size > 0 && AllSendable(layers) && Interleaving(ms, request, layers, size)
    ensures Chunking(ms, request, layers)
  {
    forall m | m in ms ensures m.request == request && m.total == |layers[m.layer].k| {
      assert m in OfLayer(ms, m.layer);
      MessageTotals(request, m.layer, layers[m.layer], size, 0, m);
    }
    forall l | l in layers ensures Tiles(ToChunks(OfLayer(ms, l)), layers[l]) {
      MessagesTile(request, l, layers[l], size);
    }
  }

  lemma {:induction false} MessageTotals(request: string, idx: LayerId, l: Layer, size: nat, start: nat, m: Message)
    requires size > 0 && |l.k| == |l.v| && m in LayerMessages(request, idx, l, size, start)
    ensures m.total == |l.k|
    decreases |l.k| - start
  {
    if m != ChunkAt(request, idx, l, size, start) {
      MessageTotals(request, idx, l, size, start + size, m);
    }
  }

  /**
    End to end: however the layers' streams interleave, as long as each keeps its own order, the callback
    fires exactly once, on the final chunk, with exactly the sender's tensors and metadata dequantised, and the
    assembler is left empty.
   */
  lemma {:induction false} EndToEnd(numLayers: int, ms: seq<Message>, request: string, layers: map<LayerId, Layer>,
                              size: nat)
    requires size > 0 && AllSendable(layers) && layers != map[]
    requires Interleaving(ms, request, layers, size) && CountFits(numLayers, |layers|)
    ensures ms != []
    ensures forall j :: 0 <= j < |ms| ==> Run(numLayers, ms[..j]).delivered == []
    ensures Run(numLayers, ms).delivered == [Delivery(request, layers, Dequantize(layers))]
    ensures Run(numLayers, ms).buffers == map[]
  {
    InterleavingIsChunking(ms, request, layers, size);
    AnyOrder(numLayers, ms, request, layers);
    FinalIsLast(ms, request, layers, size);
    InterleavedMetadata(ms, request, layers, size);
  }

  lemma {:induction false} FinalIsLast(ms: seq<Message>, request: string, layers: map<LayerId, Layer>, size: nat)
    requires size > 0 && AllSendable(layers) && Interleaving(ms, request, layers, size) && ms != []
    ensures ms[|ms| - 1].last
  {
    var m := ms[|ms| - 1];
    assert m in ms;
    LastOfLayer(ms);
    LayerEnds(request, m.layer, layers[m.layer], size, 0);
  }

  lemma {:induction false} InterleavedMetadata(ms: seq<Message>, request: string, layers: map<LayerId, Layer>,
                              size: nat)
    requires size > 0 && AllSendable(layers) && Interleaving(ms, request, layers, size)
    requires Chunking(ms, request, layers)
    ensures Arrived(ms, layers) == layers
  {
    forall l | l in layers ensures OfLayer(ms, l) != [] && OfLayer(ms, l)[0].meta == layers[l].meta {
      LayerEnds(request, l, layers[l], size, 0);
    }
    MetadataExact(ms, request, layers);
  }

  lemma {:induction false} LastOfLayer(ms: seq<Message>)
    requires ms != []
    ensures var m := ms[|ms| - 1]; var lms := OfLayer(ms, m.layer); lms != [] && lms[|lms| - 1] == m
  {
    var before, m := ms[..|ms| - 1], ms[|ms| - 1];
    assert ms == before + [m];
    OfLayerConcat(before, [m], m.layer);
    OfLayerAll([m], m.layer);
  }

  /** The sender's stream is such an interleaving. */
  lemma {:induction false} StreamInterleaves(request: string, order: seq<LayerId>, kv: map<LayerId, Layer>, size: nat)
    requires size > 0 && AllSendable(kv) && Distinct(order) && (forall l :: l in order <==> l in kv)
    ensures Interleaving(Stream(request, order, kv, size), request, kv, size)
  {
    forall l | l in kv
      ensures OfLayer(Stream(request, order, kv, size), l) == LayerMessages(request, l, kv[l], size, 0)
    {
      StreamOfLayer(request, order, kv, size, l);
    }
  }

  // ---- Permutations of the sender's stream ----

  lemma {:induction false} OfLayerCount(ms: seq<Message>, l: LayerId, m: Message)
    ensures multiset(OfLayer(ms, l))[m] == if m.layer == l then multiset(ms)[m] else 0
  {
    if ms != [] {
      OfLayerCount(ms[1..], l, m);
      assert ms == [ms[0]] + ms[1..];
    }
  }

  lemma {:induction false} OfLayerPermuted(a: seq<Message>, b: seq<Message>, l: LayerId)
    requires multiset(a) == multiset(b)
    ensures multiset(OfLayer(a, l)) == multiset(OfLayer(b, l))
  {
    forall m ensures multiset(OfLayer(a, l))[m] == multiset(OfLayer(b, l))[m] {
      OfLayerCount(a, l, m);
      OfLayerCount(b, l, m);
    }
  }

  lemma {:induction false} WithoutChunks(ms: seq<Message>, i: nat)
    requires i < |ms|
    ensures multiset(ToChunks(ms)) == multiset(ToChunks(Without(ms, i))) + multiset{ToChunk(ms[i])}
  {
    var cs := ToChunks(ms);
    assert ToChunks(Without(ms, i)) == cs[..i] + cs[i + 1..];
    assert cs == cs[..i] + [cs[i]] + cs[i + 1..];
  }

  lemma {:induction false} ToChunksPermuted(a: seq<Message>, b: seq<Message>)
    requires multiset(a) == multiset(b)
    ensures multiset(ToChunks(a)) == multiset(ToChunks(b))
  {
    if a == [] {
      assert |multiset(b)| == 0;
    } else {
      assert a[0] in multiset(b);
      var i :| 0 <= i < |b| && b[i] == a[0];
      WithoutMultiset(a, 0);
      WithoutMultiset(b, i);
      ToChunksPermuted(Without(a, 0), Without(b, i));
      WithoutChunks(a, 0);
      WithoutChunks(b, i);
    }
  }

  lemma {:induction false} OnlyFirstCarriesMetadata(request: string, idx: LayerId, l: Layer, size: nat, m: Message)
    requires size > 0 && Sendable(l) && l.meta.Some? && m in LayerMessages(request, idx, l, size, 0)
    ensures m.meta == l.meta <==> m.start == 0
  {
    var first, rest := ChunkAt(request, idx, l, size, 0), LayerMessages(request, idx, l, size, size);
    if m != first {
      assert m in rest;
      if size < |l.k| { LayerEnds(request, idx, l, size, size); }
    }
  }

  /**
    The sender's messages in any order at all: nothing is delivered early, the tensors always come back, the
    last arrival decides whether anything is delivered, and the metadata is right exactly when every layer's
    first chunk arrives before its others.
   */
  lemma {:induction false} PermutedStream(numLayers: int, ms: seq<Message>, request: string, order: seq<LayerId>,
                              kv: map<LayerId, Layer>, size: nat)
    requires size > 0 && AllSendable(kv) && Distinct(order) && (forall l :: l in order <==> l in kv) && kv != map[]
    requires (forall l :: l in kv ==> kv[l].meta.Some?) && CountFits(numLayers, |kv|)
    requires multiset(ms) == multiset(Stream(request, order, kv, size))
    ensures ms != [] && forall j :: 0 <= j < |ms| ==> Run(numLayers, ms[..j]).delivered == []
    ensures Run(numLayers, ms).delivered == if ms[|ms| - 1].last then [Deliver(request, Arrived(ms, kv))] else []
    ensures Arrived(ms, kv) == kv <==> forall l :: l in kv ==> OfLayer(ms, l) != [] && OfLayer(ms, l)[0].start == 0
  {
    PermutedIsChunking(ms, request, order, kv, size);
    AnyOrder(numLayers, ms, request, kv);
    MetadataExact(ms, request, kv);
    forall l | l in kv
      ensures OfLayer(ms, l) != [] && (OfLayer(ms, l)[0].meta == kv[l].meta <==> OfLayer(ms, l)[0].start == 0)
    {
      FirstArrival(ms, request, order, kv, size, l);
    }
  }

  lemma {:induction false} PermutedIsChunking(ms: seq<Message>, request: string, order: seq<LayerId>,
                              kv: map<LayerId, Layer>, size: nat)
    requires size > 0 && AllSendable(kv) && Distinct(order) && (forall l :: l in order <==> l in kv)
    requires multiset(ms) == multiset(Stream(request, order, kv, size))
    ensures Chunking(ms, request, kv)
  {
    var stream := Stream(request, order, kv, size);
    StreamInterleaves(request, order, kv, size);
    InterleavingIsChunking(stream, request, kv, size);
    forall m | m in ms ensures m in stream {
      assert m in multiset(ms);
    }
    forall l | l in kv ensures Tiles(ToChunks(OfLayer(ms, l)), kv[l]) {
      OfLayerPermuted(stream, ms, l);
      ToChunksPermuted(OfLayer(stream, l), OfLayer(ms, l));
      TilesPermuted(ToChunks(OfLayer(stream, l)), ToChunks(OfLayer(ms, l)), kv[l]);
    }
  }

  lemma {:induction false} FirstArrival(ms: seq<Message>, request: string, order: seq<LayerId>,
                              kv: map<LayerId, Layer>, size: nat, l: LayerId)
    requires size > 0 && AllSendable(kv) && Distinct(order) && (forall l :: l in order <==> l in kv)
    requires multiset(ms) == multiset(Stream(request, order, kv, size)) && l in kv && kv[l].meta.Some?
    ensures OfLayer(ms, l) != [] && (OfLayer(ms, l)[0].meta == kv[l].meta <==> OfLayer(ms, l)[0].start == 0)
  {
    PermutedIsChunking(ms, request, order, kv, size);
    LayerReady(ms, request, kv, l);
    var first := OfLayer(ms, l)[0];
    assert first in OfLayer(ms, l) && first in multiset(ms);
    assert first in Stream(request, order, kv, size);
    StreamOfLayer(request, order, kv, size, l);
    assert first in OfLayer(Stream(request, order, kv, size), l);
    OnlyFirstCarriesMetadata(request, l, kv[l], size, first);
  }

  // ---- How many layers the assembler waits for ----

  lemma {:induction false} DeliveredGrows(numLayers: int, a: seq<Message>, b: seq<Message>)
    ensures Run(numLayers, a).delivered <= Run(numLayers, a + b).delivered
  {
    if b == [] {
      assert a + b == a;
    } else {
      var front, m := b[..|b| - 1], b[|b| - 1];
      DeliveredGrows(numLayers, a, front);
      assert (a + b)[..|a + b| - 1] == a + front;
    }
  }

  lemma {:induction false} StreamSplit(request: string, order: seq<LayerId>, d: nat, kv: map<LayerId, Layer>, size: nat)
    requires size > 0 && AllSendable(kv) && d <= |order| && forall l :: l in order ==> l in kv
    ensures Stream(request, order, kv, size) ==
            Stream(request, order[..d], kv, size) + Stream(request, order[d..], kv, size)
  {
    if d == 0 {
      assert order[d..] == order;
    } else {
      StreamSplit(request, order[1..], d - 1, kv, size);
      assert order[..d][1..] == order[1..][..d - 1];
      assert order[1..][d - 1..] == order[d..];
    }
  }

  lemma {:induction false} StreamRestricted(request: string, order: seq<LayerId>, kv: map<LayerId, Layer>,
                              part: map<LayerId, Layer>, size: nat)
    requires size > 0 && AllSendable(kv) && AllSendable(part)
    requires forall l :: l in order ==> l in kv && l in part && kv[l] == part[l]
    ensures Stream(request, order, kv, size) == Stream(request, order, part, size)
  {
    if order != [] {
      StreamRestricted(request, order[1..], kv, part, size);
    }
  }

  lemma {:induction false} DistinctCount(order: seq<LayerId>)
    requires Distinct(order)
    ensures |set l | l in order| == |order|
  {
    if order != [] {
      DistinctCount(order[1..]);
      assert order[0] !in order[1..];
      assert (set l | l in order) == {order[0]} + set l | l in order[1..];
    }
  }

  lemma {:induction false} FirstLayers(order: seq<LayerId>, d: nat,
                              kv: map<LayerId, Layer>) returns (part: map<LayerId, Layer>)
    requires Distinct(order) && (forall l :: l in order <==> l in kv) && 0 < d < |order|
    ensures (forall l :: l in order[..d] <==> l in part) && forall l :: l in part ==> l in kv && part[l] == kv[l]
    ensures |part| == d && part != map[] && part.Keys < kv.Keys
  {
    var first := order[..d];
    part := map l | l in kv && l in first :: kv[l];
    assert forall l :: l in first ==> l in order;
    assert part.Keys == set l | l in first;
    DistinctCount(first);
    assert |part| == |part.Keys|;
    assert first[0] in part;
    assert order[d] in kv.Keys && order[d] !in part.Keys;
  }

  /** Waiting for fewer layers than are sent: the first delivery is a proper part of the cache. */
  lemma {:induction false} FiresEarly(numLayers: int, request: string, order: seq<LayerId>, kv: map<LayerId, Layer>,
                              size: nat)
    requires size > 0 && AllSendable(kv) && Distinct(order) && (forall l :: l in order <==> l in kv)
    requires |order| >= 2 && numLayers < |order|
    ensures var delivered := Run(numLayers, Stream(request, order, kv, size)).delivered;
            delivered != [] && delivered[0].received.Keys < kv.Keys
  {
    var d := if numLayers <= 1 then 1 else numLayers;
    var part := FirstLayers(order, d, kv);
    assert forall l :: l in order[..d] ==> l in order;
    StreamRestricted(request, order[..d], kv, part, size);
    StreamInterleaves(request, order[..d], part, size);
    EndToEnd(numLayers, Stream(request, order[..d], part, size), request, part, size);
    StreamSplit(request, order, d, kv, size);
    DeliveredGrows(numLayers, Stream(request, order[..d], kv, size), Stream(request, order[d..], kv, size));
  }

  /** Waiting for more layers than are sent: nothing is ever delivered. */
  lemma {:induction false} NeverFires(numLayers: int, request: string, ms: seq<Message>, layers: map<LayerId, Layer>)
    requires Chunking(ms, request, layers) && numLayers > |layers|
    ensures Run(numLayers, ms).delivered == []
  {
    forall j | 1 <= j <= |ms| ensures !Ready(Gather(ms[..j]), numLayers) {
      PresentInside(ms, request, layers, j);
      CardinalityMonotone(Gather(ms[..j]).Keys, layers.Keys);
      assert |Gather(ms[..j])| == |Gather(ms[..j]).Keys| && |layers| == |layers.Keys|;
    }
    GatherUntilReady(numLayers, request, ms);
  }

  /** The sender's stream arrives as one complete delivery exactly when the assembler's layer count fits. */
  lemma {:induction false} CountExact(numLayers: int, request: string, order: seq<LayerId>, kv: map<LayerId, Layer>,
                              size: nat)
    requires size > 0 && AllSendable(kv) && Distinct(order) && (forall l :: l in order <==> l in kv) && kv != map[]
    ensures Run(numLayers, Stream(request, order, kv, size)).delivered == [Deliver(request, kv)]
            <==> CountFits(numLayers, |kv|)
  {
    var ms := Stream(request, order, kv, size);
    StreamInterleaves(request, order, kv, size);
    InterleavingIsChunking(ms, request, kv, size);
    DistinctCount(order);
    assert kv.Keys == set l | l in order;
    assert |kv| == |kv.Keys| == |order|;
    if CountFits(numLayers, |kv|) {
      EndToEnd(numLayers, ms, request, kv, size);
    } else if numLayers > |kv| {
      NeverFires(numLayers, request, ms, kv);
    } else {
      FiresEarly(numLayers, request, order, kv, size);
    }
  }

  // ---- What any layer count delivers ----

  /** The layers of `order` alone. */
  function PartOf(kv: map<LayerId, Layer>, order: seq<LayerId>): map<LayerId, Layer> {
    map l | l in kv && l in order :: kv[l]
  }

  /** How many layers the assembler collects before it delivers. */
  function PerBatch(numLayers: int): (d: nat)
    ensures d > 0
  {
    if numLayers <= 1 then 1 else numLayers
  }

  /** One delivery for every `d` layers of the order; what is left over at the end is never delivered. */
  function Batches(request: string, order: seq<LayerId>, d: nat, kv: map<LayerId, Layer>): seq<Delivery>
    requires d > 0
  {
    if |order| < d then []
    else [Deliver(request, PartOf(kv, order[..d]))] + Batches(request, order[d..], d, kv)
  }

  /** Earlier deliveries do not change what a chunk does. */
  lemma {:induction false} ReceiveOnTop(s: State, before: seq<Delivery>, numLayers: int, m: Message)
    ensures var t := Receive(s, numLayers, m);
            Receive(State(s.buffers, before + s.delivered), numLayers, m) == State(t.buffers, before + t.delivered)
  {
    assert BufferOf(State(s.buffers, before + s.delivered), m.request) == BufferOf(s, m.request);
    var d := Deliver(m.request, ReassembledAll(Store(BufferOf(s, m.request), m)));
    assert (before + s.delivered) + [d] == before + (s.delivered + [d]);
  }

  /** After an empty buffer the assembler goes on as if it had just started. */
  lemma {:induction false} RunsOn(numLayers: int, a: seq<Message>, b: seq<Message>)
    requires Run(numLayers, a).buffers == map[]
    ensures Run(numLayers, a + b) ==
            State(Run(numLayers, b).buffers, Run(numLayers, a).delivered + Run(numLayers, b).delivered)
  {
    if b == [] {
      assert a + b == a;
    } else {
      var front, m := b[..|b| - 1], b[|b| - 1];
      RunsOn(numLayers, a, front);
      assert (a + b)[..|a + b| - 1] == a + front;
      ReceiveOnTop(Run(numLayers, front), Run(numLayers, a).delivered, numLayers, m);
    }
  }

  lemma {:induction false} PartFacts(order: seq<LayerId>, kv: map<LayerId, Layer>)
    requires Distinct(order) && forall l :: l in order ==> l in kv
    ensures (forall l :: l in order <==> l in PartOf(kv, order)) && |PartOf(kv, order)| == |order|
  {
    DistinctCount(order);
    assert PartOf(kv, order).Keys == set l | l in order;
    assert |PartOf(kv, order)| == |PartOf(kv, order).Keys|;
  }

  /** The stream of some layers is the stream of a cache that has only these. */
  lemma {:induction false} PartStream(request: string, order: seq<LayerId>, kv: map<LayerId, Layer>, size: nat)
    requires size > 0 && AllSendable(kv) && Distinct(order) && forall l :: l in order ==> l in kv
    ensures AllSendable(PartOf(kv, order)) && |PartOf(kv, order)| == |order|
    ensures Interleaving(Stream(request, order, kv, size), request, PartOf(kv, order), size)
  {
    PartFacts(order, kv);
    StreamRestricted(request, order, kv, PartOf(kv, order), size);
    StreamInterleaves(request, order, PartOf(kv, order), size);
  }

  lemma {:induction false} OneBatch(numLayers: int, request: string, order: seq<LayerId>, kv: map<LayerId, Layer>,
                              size: nat)
    requires size > 0 && AllSendable(kv) && Distinct(order) && forall l :: l in order ==> l in kv
    requires |order| == PerBatch(numLayers)
    ensures Run(numLayers, Stream(request, order, kv, size)) == State(map[], [Deliver(request, PartOf(kv, order))])
  {
    PartStream(request, order, kv, size);
    EndToEnd(numLayers, Stream(request, order, kv, size), request, PartOf(kv, order), size);
  }

  lemma {:induction false} TooFew(numLayers: int, request: string, order: seq<LayerId>, kv: map<LayerId, Layer>,
                              size: nat)
    requires size > 0 && AllSendable(kv) && Distinct(order) && forall l :: l in order ==> l in kv
    requires |order| < PerBatch(numLayers)
    ensures Run(numLayers, Stream(request, order, kv, size)).delivered == []
  {
    if order != [] {
      PartStream(request, order, kv, size);
      InterleavingIsChunking(Stream(request, order, kv, size), request, PartOf(kv, order), size);
      NeverFires(numLayers, request, Stream(request, order, kv, size), PartOf(kv, order));
    }
  }

  /** Under any count: the layers are delivered in batches of that many, in the sender's order, the rest never. */
  lemma {:induction false} DeliveredInBatches(numLayers: int, request: string, order: seq<LayerId>,
                              kv: map<LayerId, Layer>, size: nat)
    requires size > 0 && AllSendable(kv) && Distinct(order) && forall l :: l in order ==> l in kv
    ensures Run(numLayers, Stream(request, order, kv, size)).delivered ==
            Batches(request, order, PerBatch(numLayers), kv)
    decreases |order|
  {
    var d := PerBatch(numLayers);
    if |order| < d {
      TooFew(numLayers, request, order, kv, size);
    } else {
      Cut(order, d, kv);
      OneBatch(numLayers, request, order[..d], kv, size);
      DeliveredInBatches(numLayers, request, order[d..], kv, size);
      StreamSplit(request, order, d, kv, size);
      RunsOn(numLayers, Stream(request, order[..d], kv, size), Stream(request, order[d..], kv, size));
    }
  }

  lemma {:induction false} Cut(order: seq<LayerId>, d: nat, kv: map<LayerId, Layer>)
    requires Distinct(order) && d <= |order| && forall l :: l in order ==> l in kv
    ensures Distinct(order[..d]) && Distinct(order[d..])
    ensures (forall l :: l in order[..d] ==> l in kv) && forall l :: l in order[d..] ==> l in kv
  {
    forall i, j | 0 <= i < j < |order[d..]| ensures order[d..][i] != order[d..][j] {
      assert order[d + i] != order[d + j];
    }
  }

  /** How many of `n` layers are in full batches of `d`. */
  function Full(n: nat, d: nat): (f: nat)
    requires d > 0
    ensures f <= n
  {
    n - n % d
  }

  lemma {:induction false} FullStep(n: nat, d: nat)
    requires 0 < d <= n
    ensures Full(n, d) == d + Full(n - d, d)
  {
    var q, r := (n - d) / d, (n - d) % d;
    assert n == q * d + d + r;
    SameRest(n, d, q + 1, r);
  }

  lemma {:induction false} SameRest(n: nat, d: nat, q: nat, r: nat)
    requires d > 0 && n == q * d + r && r < d
    ensures n % d == r
  {
    var p := n / d;
    assert n == p * d + n % d;
    assert (p - q) * d == r - n % d;
    if p > q { AtLeast(p - q, d); } else if p < q { AtLeast(q - p, d); }
  }

  lemma {:induction false} AtLeast(k: nat, d: nat)
    requires k > 0
    ensures k * d >= d
  {
  }

  /** The last `d` layers of the order that fill a batch. */
  function LastFull(order: seq<LayerId>, d: nat): (part: seq<LayerId>)
    requires 0 < d <= |order|
    ensures |part| == d
  {
    FullStep(|order|, d);
    order[Full(|order|, d) - d..Full(|order|, d)]
  }

  lemma {:induction false} OnlyBatch(n: nat, d: nat)
    requires 0 < d <= n < 2 * d
    ensures Full(n, d) == d
  {
    SameRest(n, d, 1, n - d);
  }

  lemma {:induction false} SliceOfRest(order: seq<LayerId>, d: nat, i: nat, j: nat)
    requires i <= j && d + j <= |order|
    ensures order[d..][i..j] == order[d + i..d + j]
  {
  }

  lemma {:induction false} LastFullStep(order: seq<LayerId>, d: nat)
    requires 0 < d && 2 * d <= |order|
    ensures LastFull(order, d) == LastFull(order[d..], d)
  {
    FullStep(|order|, d);
    FullStep(|order| - d, d);
    SliceOfRest(order, d, Full(|order| - d, d) - d, Full(|order| - d, d));
  }

  lemma {:induction false} LastBatch(request: string, order: seq<LayerId>, d: nat, kv: map<LayerId, Layer>)
    requires 0 < d <= |order|
    ensures var all := Batches(request, order, d, kv);
            all != [] && all[|all| - 1] == Deliver(request, PartOf(kv, LastFull(order, d)))
    decreases |order|
  {
    if |order| < 2 * d {
      OnlyBatch(|order|, d);
    } else {
      LastFullStep(order, d);
      LastBatch(request, order[d..], d, kv);
    }
  }

  // ---- Other requests and cancellations ----

  datatype Event = Arrive(m: Message) | Cancel(request: string)

  function Subject(e: Event): string {
    match e
    case Arrive(m) => m.request
    case Cancel(r) => r
  }

  ghost function Apply(s: State, numLayers: int, e: Event): State {
    match e
    case Arrive(m) => Receive(s, numLayers, m)
    case Cancel(r) => Cancelled(s, r)
  }

  ghost function RunEvents(numLayers: int, es: seq<Event>): State {
    if es == [] then State(map[], [])
    else Apply(RunEvents(numLayers, es[..|es| - 1]), numLayers, es[|es| - 1])
  }

  function About(es: seq<Event>, request: string): seq<Event> {
    if es == [] then []
    else About(es[..|es| - 1], request) + if Subject(es[|es| - 1]) == request then [es[|es| - 1]] else []
  }

  function DeliveredTo(ds: seq<Delivery>, request: string): seq<Delivery> {
    if ds == [] then []
    else DeliveredTo(ds[..|ds| - 1], request) + if ds[|ds| - 1].request == request then [ds[|ds| - 1]] else []
  }

  lemma {:induction false} DeliveredToAppend(ds: seq<Delivery>, d: Delivery, request: string)
    ensures DeliveredTo(ds + [d], request) == DeliveredTo(ds, request) + if d.request == request then [d] else []
  {
    assert (ds + [d])[..|ds + [d]| - 1] == ds;
  }

  /** What happens to one request depends only on the events about it. */
  lemma {:induction false} Isolation(numLayers: int, es: seq<Event>, request: string)
    ensures var all, own := RunEvents(numLayers, es), RunEvents(numLayers, About(es, request));
            && BufferOf(all, request) == BufferOf(own, request)
            && DeliveredTo(all.delivered, request) == DeliveredTo(own.delivered, request)
  {
    if es != [] {
      var before, e := es[..|es| - 1], es[|es| - 1];
      Isolation(numLayers, before, request);
      var own := About(before, request);
      if Subject(e) == request {
        assert (own + [e])[..|own + [e]| - 1] == own;
        StepSame(RunEvents(numLayers, before), RunEvents(numLayers, own), numLayers, e);
      } else {
        assert own + [] == own;
        StepOther(RunEvents(numLayers, before), numLayers, e, request);
      }
    }
  }

  lemma {:induction false} StepSame(s: State, t: State, numLayers: int, e: Event)
    requires BufferOf(s, Subject(e)) == BufferOf(t, Subject(e))
    requires DeliveredTo(s.delivered, Subject(e)) == DeliveredTo(t.delivered, Subject(e))
    ensures var s', t' := Apply(s, numLayers, e), Apply(t, numLayers, e);
            && BufferOf(s', Subject(e)) == BufferOf(t', Subject(e))
            && DeliveredTo(s'.delivered, Subject(e)) == DeliveredTo(t'.delivered, Subject(e))
  {
    if e.Arrive? {
      var d := Deliver(e.m.request, ReassembledAll(Store(BufferOf(s, e.m.request), e.m)));
      DeliveredToAppend(s.delivered, d, e.m.request);
      DeliveredToAppend(t.delivered, d, e.m.request);
    }
  }

  lemma {:induction false} StepOther(s: State, numLayers: int, e: Event, request: string)
    requires Subject(e) != request
    ensures var s' := Apply(s, numLayers, e);
            && BufferOf(s', request) == BufferOf(s, request)
            && DeliveredTo(s'.delivered, request) == DeliveredTo(s.delivered, request)
  {
    if e.Arrive? {
      var d := Deliver(e.m.request, ReassembledAll(Store(BufferOf(s, e.m.request), e.m)));
      DeliveredToAppend(s.delivered, d, request);
    }
  }

  // ---- End to end on a shared assembler ----

  function Arrivals(ms: seq<Message>): seq<Event> {
    seq(|ms|, i requires 0 <= i < |ms| => Arrive(ms[i]))
  }

  lemma {:induction false} RunOfArrivals(numLayers: int, ms: seq<Message>)
    ensures RunEvents(numLayers, Arrivals(ms)) == Run(numLayers, ms)
  {
    if ms != [] {
      RunOfArrivals(numLayers, ms[..|ms| - 1]);
      assert Arrivals(ms)[..|ms| - 1] == Arrivals(ms[..|ms| - 1]);
    }
  }

  /** What came about a request so far is the beginning of what came about it in all. */
  lemma {:induction false} AboutPrefix(es: seq<Event>, j: nat, request: string)
    requires j <= |es|
    ensures About(es[..j], request) <= About(es, request)
  {
    if j == |es| {
      assert es[..j] == es;
    } else {
      AboutPrefix(es[..|es| - 1], j, request);
      assert es[..|es| - 1][..j] == es[..j];
    }
  }

  /** Deliveries to a request whose events are all arrivals: those of a run of its own chunks alone. */
  lemma {:induction false} DeliveredAmidOthers(numLayers: int, es: seq<Event>, request: string, ms: seq<Message>)
    requires About(es, request) == Arrivals(ms)
    ensures DeliveredTo(RunEvents(numLayers, es).delivered, request)
         == DeliveredTo(Run(numLayers, ms).delivered, request)
  {
    Isolation(numLayers, es, request);
    RunOfArrivals(numLayers, ms);
  }

  /** As long as a request lacks one of its own chunks, nothing has been delivered to it. */
  lemma {:induction false} LackingChunks(numLayers: int, es: seq<Event>, ms: seq<Message>, request: string)
    requires forall j :: 0 <= j < |ms| ==> Run(numLayers, ms[..j]).delivered == []
    requires About(es, request) <= Arrivals(ms) && |About(es, request)| < |ms|
    ensures DeliveredTo(RunEvents(numLayers, es).delivered, request) == []
  {
    var i := |About(es, request)|;
    assert About(es, request) == Arrivals(ms[..i]);
    DeliveredAmidOthers(numLayers, es, request, ms[..i]);
  }

  /**
    End to end on an assembler shared by any other requests, which may send, complete, fail and cancel in between:
    the request's cache is delivered to it exactly once, on its own final chunk, as the sender holds it.
   */
  lemma {:induction false} EndToEndAmidOthers(numLayers: int, es: seq<Event>, ms: seq<Message>, request: string,
                              layers: map<LayerId, Layer>, size: nat)
    requires size > 0 && AllSendable(layers) && layers != map[]
    requires Interleaving(ms, request, layers, size) && CountFits(numLayers, |layers|)
    requires About(es, request) == Arrivals(ms)
    ensures DeliveredTo(RunEvents(numLayers, es).delivered, request)
         == [Delivery(request, layers, Dequantize(layers))]
    ensures forall j :: 0 <= j <= |es| && About(es[..j], request) != About(es, request) ==>
              DeliveredTo(RunEvents(numLayers, es[..j]).delivered, request) == []
  {
    EndToEnd(numLayers, ms, request, layers, size);
    DeliveredAmidOthers(numLayers, es, request, ms);
    DeliveredToAppend([], Delivery(request, layers, Dequantize(layers)), request);
    NothingEarly(numLayers, es, ms, request);
  }

  lemma {:induction false} NothingEarly(numLayers: int, es: seq<Event>, ms: seq<Message>, request: string)
    requires forall j :: 0 <= j < |ms| ==> Run(numLayers, ms[..j]).delivered == []
    requires About(es, request) == Arrivals(ms)
    ensures forall j :: 0 <= j <= |es| && About(es[..j], request) != About(es, request) ==>
              DeliveredTo(RunEvents(numLayers, es[..j]).delivered, request) == []
  {
    forall j | 0 <= j <= |es| && About(es[..j], request) != About(es, request)
      ensures DeliveredTo(RunEvents(numLayers, es[..j]).delivered, request) == []
    {
      AboutPrefix(es, j, request);
      LackingChunks(numLayers, es[..j], ms, request);
    }
  }
}
