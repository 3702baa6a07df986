/** Prefill side: streaming by layers, progress reports and mid-transfer downgrades (backend/chunked_transfer.py). */
module Sender {
  import opened Options
  import opened Layers
  import opened PrecisionLevels
  import opened Quantizer
  import opened Sorting
  import opened Chunks

  const MIN_CHUNK_SIZE: nat := 16
  const MAX_CHUNK_SIZE: nat := 256
  const TIMING_CHECK_INTERVAL: nat := 2

  // ---- Chunk size ----

  /** int(x): truncation toward zero. */
  function Truncate(x: real): int {
    if x >= 0.0 then x.Floor else -((-x).Floor)
  }

  /** Chunk size for a bandwidth in bytes per second: 16 tokens up to 256 at 100 MB/s and above. */
  function AdaptiveChunkSize(bandwidth: real): (size: nat)
    ensures MIN_CHUNK_SIZE <= size <= MAX_CHUNK_SIZE
  {
    var norm := if bandwidth / 100000000.0 < 1.0 then bandwidth / 100000000.0 else 1.0;
    var raw := Truncate(MIN_CHUNK_SIZE as real + (MAX_CHUNK_SIZE - MIN_CHUNK_SIZE) as real * norm);
    var capped := if raw < MAX_CHUNK_SIZE then raw else MAX_CHUNK_SIZE;
    if capped > MIN_CHUNK_SIZE then capped else MIN_CHUNK_SIZE
  }

  lemma {:induction false} ChunkSizeMonotone(a: real, b: real)
    requires a <= b
    ensures AdaptiveChunkSize(a) <= AdaptiveChunkSize(b)
    ensures a <= 0.0 ==> AdaptiveChunkSize(a) == MIN_CHUNK_SIZE
    ensures a >= 100000000.0 ==> AdaptiveChunkSize(a) == MAX_CHUNK_SIZE
  {
  }

  /** In between the size grows in proportion, rounded down. */
  lemma {:induction false} ChunkSizeLinear(bandwidth: real)
    requires 0.0 <= bandwidth <= 100000000.0
    ensures AdaptiveChunkSize(bandwidth) as real <= 16.0 + 240.0 * (bandwidth / 100000000.0)
                                                  < AdaptiveChunkSize(bandwidth) as real + 1.0
  {
  }

  // ---- Layer order ----

  /** Sort key: most important first; layers without a score count as one half. */
  function LeastFirst(importance: map<LayerId, real>): LayerId -> real {
    (l: LayerId) => -(if l in importance then importance[l] else 0.5)
  }

  function LayerOrder(keys: seq<LayerId>, importance: map<LayerId, real>): seq<LayerId> {
    Sort(keys, LeastFirst(importance))
  }

  /** No layer scores higher than one before it; a layer without a score counts as one half. */
  ghost predicate Falling(order: seq<LayerId>, importance: map<LayerId, real>) {
    forall i, j :: 0 <= i < j < |order| ==>
      (if order[i] in importance then importance[order[i]] else 0.5) >=
      (if order[j] in importance then importance[order[j]] else 0.5)
  }

  lemma {:induction false} OrderFalls(keys: seq<LayerId>, importance: map<LayerId, real>, order: seq<LayerId>)
    requires order == LayerOrder(keys, importance) && SortedBy(order, LeastFirst(importance))
    ensures Falling(order, importance)
  {
    forall i, j | 0 <= i < j < |order|
      ensures (if order[i] in importance then importance[order[i]] else 0.5) >=
              (if order[j] in importance then importance[order[j]] else 0.5)
    {
      assert LeastFirst(importance)(order[i]) <= LeastFirst(importance)(order[j]);
    }
  }

  /** No chunk is sent before one of a layer that scores higher. */
  lemma {:induction false} ImportantChunksFirst(request: string, keys: seq<LayerId>, importance: map<LayerId, real>,
                              kv: map<LayerId, Layer>, size: nat)
    requires size > 0 && AllSendable(kv) && Distinct(keys) && forall l :: l in keys <==> l in kv
    ensures var order := LayerOrder(keys, importance);
            && (forall l :: l in order ==> l in kv)
            && Falling(LayersSent(Stream(request, order, kv, size)), importance)
  {
    LayerOrderComplete(keys, importance);
    StreamFalls(request, LayerOrder(keys, importance), importance, kv, size);
  }

  /** The layer of each message. */
  function LayersSent(ms: seq<Message>): seq<LayerId> {
    seq(|ms|, i requires 0 <= i < |ms| => ms[i].layer)
  }

  lemma {:induction false} StreamFalls(request: string, order: seq<LayerId>, importance: map<LayerId, real>,
                              kv: map<LayerId, Layer>, size: nat)
    requires size > 0 && AllSendable(kv) && (forall l :: l in order ==> l in kv) && Falling(order, importance)
    ensures Falling(LayersSent(Stream(request, order, kv, size)), importance)
  {
    if order != [] {
      forall i, j | 0 <= i < j < |order| - 1
        ensures (if order[1..][i] in importance then importance[order[1..][i]] else 0.5) >=
                (if order[1..][j] in importance then importance[order[1..][j]] else 0.5)
      {
        assert order[1..][i] == order[i + 1] && order[1..][j] == order[j + 1];
      }
      StreamFalls(request, order[1..], importance, kv, size);
      FirstLayerFalls(LayerMessages(request, order[0], kv[order[0]], size, 0),
                      Stream(request, order[1..], kv, size), order, importance);
    }
  }

  lemma {:induction false} FirstLayerFalls(head: seq<Message>, rest: seq<Message>, order: seq<LayerId>,
                              importance: map<LayerId, real>)
    requires order != [] && Falling(order, importance) && Falling(LayersSent(rest), importance)
    requires (forall m :: m in head ==> m.layer == order[0]) && (forall m :: m in rest ==> m.layer in order[1..])
    ensures Falling(LayersSent(head + rest), importance)
  {
    var ls := LayersSent(head + rest);
    forall i, j | 0 <= i < j < |ls|
      ensures (if ls[i] in importance then importance[ls[i]] else 0.5) >=
              (if ls[j] in importance then importance[ls[j]] else 0.5)
    {
      if i < |head| {
        assert head[i] in head && ls[i] == order[0];
        if j < |head| {
          assert head[j] in head && ls[j] == order[0];
        } else {
          assert rest[j - |head|] in rest;
          var k :| 0 <= k < |order| - 1 && order[1..][k] == rest[j - |head|].layer;
          assert ls[j] == order[k + 1];
        }
      } else {
        assert ls[i] == LayersSent(rest)[i - |head|] && ls[j] == LayersSent(rest)[j - |head|];
      }
    }
  }

  lemma {:induction false} LayerOrderComplete(keys: seq<LayerId>, importance: map<LayerId, real>)
    requires Distinct(keys)
    ensures var order := LayerOrder(keys, importance);
            Distinct(order) && Falling(order, importance) && forall l :: l in order <==> l in keys
  {
    SortSorted(keys, LeastFirst(importance));
    OrderFalls(keys, importance, LayerOrder(keys, importance));
    SortMembers(keys, LeastFirst(importance));
    DistinctPermutation(keys, LayerOrder(keys, importance));
  }

  // ---- Bytes ----

  function Elements(x: Tensor): nat {
    if x == [] then 0 else |x[0]| + Elements(x[1..])
  }

  /** FP16 tensors take two bytes per element; INT8, INT4 and INT2 codes are stored one per byte. */
  function StoredBytes(meta: Option<Meta>, elements: nat): nat {
    if meta.Some? && meta.value.Scaled? then elements else 2 * elements
  }

  function ChunkBytes(kv: map<LayerId, Layer>, m: Message): nat
    requires m.layer in kv
  {
    StoredBytes(kv[m.layer].meta, Elements(m.k) + Elements(m.v))
  }

  function LayerBytes(l: Layer): nat {
    StoredBytes(l.meta, Elements(l.k) + Elements(l.v))
  }

  function ExpectedBytes(kv: map<LayerId, Layer>, order: seq<LayerId>): nat
    requires forall l :: l in order ==> l in kv
  {
    if order == [] then 0 else LayerBytes(kv[order[0]]) + ExpectedBytes(kv, order[1..])
  }

  /** Elements of all these layers. */
  function AllElements(kv: map<LayerId, Layer>, order: seq<LayerId>): nat
    requires forall l :: l in order ==> l in kv
  {
    if order == [] then 0 else Elements(kv[order[0]].k) + Elements(kv[order[0]].v) + AllElements(kv, order[1..])
  }

  /** The total is two bytes per element for a cache sent as FP16, and one for a quantised one. */
  lemma {:induction false} TotalByKind(kv: map<LayerId, Layer>, order: seq<LayerId>)
    requires forall l :: l in order ==> l in kv
    ensures (forall l :: l in order ==> kv[l].meta == Some(Passthrough) || kv[l].meta == None) ==>
              ExpectedBytes(kv, order) == 2 * AllElements(kv, order)
    ensures (forall l :: l in order ==> kv[l].meta.Some? && kv[l].meta.value.Scaled?) ==>
              ExpectedBytes(kv, order) == AllElements(kv, order)
  {
    if order != [] {
      assert order[0] in order && forall l :: l in order[1..] ==> l in order;
      TotalByKind(kv, order[1..]);
    }
  }

  function BytesOf(kv: map<LayerId, Layer>, ms: seq<Message>): nat
    requires forall m :: m in ms ==> m.layer in kv
  {
    if ms == [] then 0 else ChunkBytes(kv, ms[0]) + BytesOf(kv, ms[1..])
  }

  /** What the progress callback has been told after `ms`: bytes so far and the precomputed total, per chunk. */
  function Reports(kv: map<LayerId, Layer>, ms: seq<Message>, total: nat): (r: seq<(nat, nat)>)
    requires forall m :: m in ms ==> m.layer in kv
    ensures |r| == |ms|
  {
    seq(|ms|, i requires 0 <= i < |ms| => (BytesOf(kv, ms[..i + 1]), total))
  }

  lemma {:induction false} ElementsConcat(x: Tensor, y: Tensor)
    ensures Elements(x + y) == Elements(x) + Elements(y)
  {
    if x == [] {
      assert x + y == y;
    } else {
      ElementsConcat(x[1..], y);
      assert (x + y)[1..] == x[1..] + y;
    }
  }

  lemma {:induction false} BytesConcat(kv: map<LayerId, Layer>, a: seq<Message>, b: seq<Message>)
    requires (forall m :: m in a ==> m.layer in kv) && (forall m :: m in b ==> m.layer in kv)
    ensures BytesOf(kv, a + b) == BytesOf(kv, a) + BytesOf(kv, b)
  {
    if a == [] {
      assert a + b == b;
    } else {
      BytesConcat(kv, a[1..], b);
      assert (a + b)[1..] == a[1..] + b;
    }
  }

  lemma {:induction false} LayerBytesSum(request: string, kv: map<LayerId, Layer>, idx: LayerId, size: nat, start: nat)
    requires size > 0 && idx in kv && |kv[idx].k| == |kv[idx].v| && start <= |kv[idx].k|
    ensures var l := kv[idx];
            BytesOf(kv, LayerMessages(request, idx, l, size, start)) ==
            StoredBytes(l.meta, Elements(l.k[start..]) + Elements(l.v[start..]))
    decreases |kv[idx].k| - start
  {
    var l := kv[idx];
    if start < |l.k| {
      var end := ChunkAt(request, idx, l, size, start).end;
      LayerBytesSum(request, kv, idx, size, end);
      var a := FirstChunk(request, kv, idx, size, start);
      TailElements(l, start, end);
      StoredSum(l.meta, a, Elements(l.k[end..]) + Elements(l.v[end..]));
    } else {
      assert l.k[start..] == [] && l.v[start..] == [];
    }
  }

  lemma {:induction false} FirstChunk(request: string, kv: map<LayerId, Layer>, idx: LayerId, size: nat,
                              start: nat) returns (elements: nat)
    requires size > 0 && idx in kv && start < |kv[idx].k| == |kv[idx].v|
    ensures var l, end := kv[idx], ChunkAt(request, idx, kv[idx], size, start).end;
            && start < end <= |l.k| && elements == Elements(l.k[start..end]) + Elements(l.v[start..end])
            && BytesOf(kv, LayerMessages(request, idx, l, size, start))
            == StoredBytes(l.meta, elements) + BytesOf(kv, LayerMessages(request, idx, l, size, end))
  {
    var l, m := kv[idx], ChunkAt(request, idx, kv[idx], size, start);
    elements := Elements(m.k) + Elements(m.v);
    LastChunkEnds(request, idx, l, size, start);
    BytesHead(kv, m, LayerMessages(request, idx, l, size, m.end));
  }

  lemma {:induction false} TailElements(l: Layer, start: nat, end: nat)
    requires start <= end <= |l.k| == |l.v|
    ensures Elements(l.k[start..]) + Elements(l.v[start..]) ==
            (Elements(l.k[start..end]) + Elements(l.v[start..end])) + (Elements(l.k[end..]) + Elements(l.v[end..]))
  {
    ElementsFrom(l.k, start, end);
    ElementsFrom(l.v, start, end);
  }

  lemma {:induction false} StoredSum(meta: Option<Meta>, a: nat, b: nat)
    ensures StoredBytes(meta, a) + StoredBytes(meta, b) == StoredBytes(meta, a + b)
  {
  }

  lemma {:induction false} LastChunkEnds(request: string, idx: LayerId, l: Layer, size: nat, start: nat)
    requires size > 0 && start < |l.k| == |l.v|
    ensures var m := ChunkAt(request, idx, l, size, start);
            start < m.end <= |l.k| &&
            LayerMessages(request, idx, l, size, start) == [m] + LayerMessages(request, idx, l, size, m.end)
  {
  }

  lemma {:induction false} BytesHead(kv: map<LayerId, Layer>, m: Message, rest: seq<Message>)
    requires m.layer in kv && forall x :: x in rest ==> x.layer in kv
    ensures BytesOf(kv, [m] + rest) == ChunkBytes(kv, m) + BytesOf(kv, rest)
  {
    assert ([m] + rest)[1..] == rest;
  }

  lemma {:induction false} ElementsFrom(x: Tensor, start: nat, end: nat)
    requires start <= end <= |x|
    ensures Elements(x[start..]) == Elements(x[start..end]) + Elements(x[end..])
  {
    ElementsConcat(x[start..end], x[end..]);
    assert x[start..end] + x[end..] == x[start..];
  }

  /** The chunks of the whole stream add up to the total that was computed before sending. */
  lemma {:induction false} StreamBytes(request: string, order: seq<LayerId>, kv: map<LayerId, Layer>, size: nat)
    requires size > 0 && AllSendable(kv) && forall l :: l in order ==> l in kv
    ensures BytesOf(kv, Stream(request, order, kv, size)) == ExpectedBytes(kv, order)
  {
    if order != [] {
      var l := kv[order[0]];
      StreamBytes(request, order[1..], kv, size);
      LayerBytesSum(request, kv, order[0], size, 0);
      assert l.k[0..] == l.k && l.v[0..] == l.v;
      BytesConcat(kv, LayerMessages(request, order[0], l, size, 0), Stream(request, order[1..], kv, size));
    }
  }

  ghost predicate HasColumns(kv: map<LayerId, Layer>) {
    forall l :: l in kv ==> forall t :: 0 <= t < |kv[l].k| ==> |kv[l].k[t]| > 0
  }

  lemma {:induction false} ChunksNonEmpty(request: string, idx: LayerId, l: Layer, size: nat, start: nat, m: Message)
    requires size > 0 && |l.k| == |l.v| && m in LayerMessages(request, idx, l, size, start)
    requires forall t :: 0 <= t < |l.k| ==> |l.k[t]| > 0
    ensures Elements(m.k) > 0
    decreases |l.k| - start
  {
    if m != ChunkAt(request, idx, l, size, start) {
      ChunksNonEmpty(request, idx, l, size, start + size, m);
    }
  }

  /** Reported bytes strictly increase, and the last report is exactly the total. */
  lemma {:induction false} ProgressReports(request: string, order: seq<LayerId>, kv: map<LayerId, Layer>, size: nat)
    requires size > 0 && AllSendable(kv) && HasColumns(kv) && Distinct(order) && forall l :: l in order ==> l in kv
    ensures var ms := Stream(request, order, kv, size);
            var total := ExpectedBytes(kv, order);
            var r := Reports(kv, ms, total);
            && (forall i, j :: 0 <= i < j < |r| ==> r[i].0 < r[j].0)
            && (r != [] ==> r[|r| - 1].0 == total)
  {
    var ms := Stream(request, order, kv, size);
    AllChunksPositive(request, order, kv, size);
    BytesIncrease(kv, ms);
    assert ms[..|ms|] == ms;
    StreamBytes(request, order, kv, size);
  }

  lemma {:induction false} AllChunksPositive(request: string, order: seq<LayerId>, kv: map<LayerId, Layer>, size: nat)
    requires size > 0 && AllSendable(kv) && HasColumns(kv) && Distinct(order) && forall l :: l in order ==> l in kv
    ensures forall m :: m in Stream(request, order, kv, size) ==> ChunkBytes(kv, m) > 0
  {
    var ms := Stream(request, order, kv, size);
    forall m | m in ms ensures ChunkBytes(kv, m) > 0 {
      StreamOfLayer(request, order, kv, size, m.layer);
      assert m in OfLayer(ms, m.layer);
      ChunksNonEmpty(request, m.layer, kv[m.layer], size, 0, m);
    }
  }

  lemma {:induction false} BytesIncrease(kv: map<LayerId, Layer>, ms: seq<Message>)
    requires (forall m :: m in ms ==> m.layer in kv) && (forall m :: m in ms ==> ChunkBytes(kv, m) > 0)
    ensures forall i: nat, j: nat :: i < j <= |ms| ==> BytesOf(kv, ms[..i]) < BytesOf(kv, ms[..j])
  {
    forall i: nat, j: nat | i < j <= |ms| ensures BytesOf(kv, ms[..i]) < BytesOf(kv, ms[..j]) {
      assert ms[..j] == ms[..i] + ms[i..j];
      BytesConcat(kv, ms[..i], ms[i..j]);
      assert ms[i..j][0] in ms;
    }
  }

  // ---- Mid-transfer downgrades ----

  type Levels = map<LayerId, seq<Precision>>

  function DownAll(groups: seq<Precision>): seq<Precision> {
    seq(|groups|, g requires 0 <= g < |groups| => Down(groups[g]))
  }

  /** One downgrade: every group of every remaining layer loses one level. */
  function Downgraded(levels: Levels, remaining: set<LayerId>): Levels {
    map l | l in levels :: if l in remaining then DownAll(levels[l]) else levels[l]
  }

  function Position(order: seq<LayerId>, l: LayerId): (p: nat)
    requires l in order
    ensures p < |order| && order[p] == l && l !in order[..p]
  {
    if order[0] == l then 0 else 1 + Position(order[1..], l)
  }

  /** The layers not finished while `l` is being sent: `l` itself and those after it. */
  function Unfinished(order: seq<LayerId>, l: LayerId): set<LayerId>
    requires l in order
  {
    Members(order[Position(order, l)..])
  }

  function Members(order: seq<LayerId>): set<LayerId> {
    set l | l in order
  }

  /** A downgrade happens after chunk number `i`: it is a check point and the measured rate was too slow. */
  predicate DowngradeAt(i: nat, slow: nat -> bool) {
    i % TIMING_CHECK_INTERVAL == 0 && slow(i)
  }

  /** The precision map after `i` chunks, given every timing verdict. */
  function LevelsAfter(levels: Levels, ms: seq<Message>, order: seq<LayerId>, slow: nat -> bool, i: nat): Levels
    requires i <= |ms| && forall m :: m in ms ==> m.layer in order
  {
    if i == 0 then levels
    else
      var before := LevelsAfter(levels, ms, order, slow, i - 1);
      if DowngradeAt(i, slow) then Downgraded(before, Unfinished(order, ms[i - 1].layer)) else before
  }

  lemma {:induction false} BytesAppend(kv: map<LayerId, Layer>, ms: seq<Message>, m: Message)
    requires forall x :: x in ms + [m] ==> x.layer in kv
    ensures m.layer in kv && (forall x :: x in ms ==> x.layer in kv)
    ensures BytesOf(kv, ms + [m]) == BytesOf(kv, ms) + ChunkBytes(kv, m)
  {
    assert m in ms + [m];
    assert forall x :: x in ms ==> x in ms + [m];
    BytesConcat(kv, ms, [m]);
    assert [m][1..] == [];
  }

  lemma {:induction false} ReportsAppend(kv: map<LayerId, Layer>, ms: seq<Message>, m: Message, total: nat)
    requires forall x :: x in ms + [m] ==> x.layer in kv
    ensures (forall x :: x in ms ==> x.layer in kv)
    ensures Reports(kv, ms + [m], total) == Reports(kv, ms, total) + [(BytesOf(kv, ms + [m]), total)]
  {
    assert forall x :: x in ms ==> x in ms + [m];
    assert (ms + [m])[..|ms| + 1] == ms + [m];
    forall i | 0 <= i < |ms| ensures Reports(kv, ms + [m], total)[i] == Reports(kv, ms, total)[i] {
      assert (ms + [m])[..i + 1] == ms[..i + 1];
    }
  }

  lemma {:induction false} RemainingLayers(order: seq<LayerId>, pos: nat)
    requires Distinct(order) && pos < |order|
    ensures Unfinished(order, order[pos]) == Members(order) - Members(order[..pos])
  {
    PositionAt(order, pos);
    assert order == order[..pos] + order[pos..];
    forall l | l in order[pos..] ensures l !in order[..pos] {
      var i :| 0 <= i < |order[pos..]| && order[pos..][i] == l;
      assert order[pos + i] == l;
    }
  }

  lemma {:induction false} PositionAt(order: seq<LayerId>, i: nat)
    requires Distinct(order) && i < |order|
    ensures Position(order, order[i]) == i
  {
    if i > 0 {
      assert order[0] != order[i] && order[1..][i - 1] == order[i];
      PositionAt(order[1..], i - 1);
    }
  }

  lemma {:induction false} NextLayer(request: string, order: seq<LayerId>, kv: map<LayerId, Layer>, size: nat,
                              pos: nat, cur: seq<Message>)
    requires size > 0 && AllSendable(kv) && Distinct(order) && (forall l :: l in order ==> l in kv) && pos < |order|
    ensures cur + Stream(request, order[pos..], kv, size) ==
            cur + LayerMessages(request, order[pos], kv[order[pos]], size, 0)
              + Stream(request, order[pos + 1..], kv, size)
    ensures Members(order[..pos + 1]) == Members(order[..pos]) + {order[pos]}
    ensures Unfinished(order, order[pos]) == Members(order) - Members(order[..pos])
  {
    assert order[pos..][0] == order[pos] && order[pos..][1..] == order[pos + 1..];
    assert order[..pos + 1] == order[..pos] + [order[pos]];
    RemainingLayers(order, pos);
  }

  // ---- The precision map over a whole transfer ----

  /** Layers are sent one after the other. */
  lemma {:induction false} StreamPositions(request: string, order: seq<LayerId>, kv: map<LayerId, Layer>, size: nat,
                              i: nat, j: nat)
    requires size > 0 && AllSendable(kv) && Distinct(order) && forall l :: l in order ==> l in kv
    requires i <= j < |Stream(request, order, kv, size)|
    ensures var ms := Stream(request, order, kv, size);
            ms[i] in ms && ms[j] in ms && Position(order, ms[i].layer) <= Position(order, ms[j].layer)
  {
    var ms := Stream(request, order, kv, size);
    var head := LayerMessages(request, order[0], kv[order[0]], size, 0);
    if i >= |head| {
      StreamPositions(request, order[1..], kv, size, i - |head|, j - |head|);
      assert ms[i] == ms[|head|..][i - |head|] && ms[j] == ms[|head|..][j - |head|];
      assert ms[|head|..] == Stream(request, order[1..], kv, size);
    } else {
      assert ms[i] in head;
      assert ms[j] in ms;
    }
  }

  lemma {:induction false} UnfinishedShrinks(order: seq<LayerId>, a: LayerId, b: LayerId)
    requires a in order && b in order && Position(order, a) <= Position(order, b)
    ensures Unfinished(order, b) <= Unfinished(order, a)
  {
    var p, q := Position(order, a), Position(order, b);
    assert order[p..] == order[p..q] + order[q..];
  }

  /** How many downgrades among the first `i` chunks touched layer `l`. */
  function Hits(ms: seq<Message>, order: seq<LayerId>, slow: nat -> bool, l: LayerId, i: nat): nat
    requires i <= |ms| && forall m :: m in ms ==> m.layer in order
  {
    if i == 0 then 0
    else Hits(ms, order, slow, l, i - 1) +
         if DowngradeAt(i, slow) && l in Unfinished(order, ms[i - 1].layer) then 1 else 0
  }

  function Downgrades(slow: nat -> bool, i: nat): nat {
    if i == 0 then 0 else Downgrades(slow, i - 1) + if DowngradeAt(i, slow) then 1 else 0
  }

  /** The level of every group at every moment: its first one, minus one per downgrade that hit it, at least INT2. */
  lemma {:induction false} LevelExact(levels: Levels, ms: seq<Message>, order: seq<LayerId>, slow: nat -> bool, i: nat,
                              l: LayerId, g: nat)
    requires i <= |ms| && (forall m :: m in ms ==> m.layer in order) && l in levels && g < |levels[l]|
    ensures var after, hits := LevelsAfter(levels, ms, order, slow, i), Hits(ms, order, slow, l, i);
            && after.Keys == levels.Keys && |after[l]| == |levels[l]|
            && Rank(after[l][g]) == Lowered(Rank(levels[l][g]), hits)
  {
    if i > 0 {
      LevelExact(levels, ms, order, slow, i - 1, l, g);
      StepExact(LevelsAfter(levels, ms, order, slow, i - 1), Unfinished(order, ms[i - 1].layer), l, g);
    }
  }

  function Lowered(rank: nat, hits: nat): nat {
    if hits < rank then rank - hits else 0
  }

  lemma {:induction false} StepExact(before: Levels, remaining: set<LayerId>, l: LayerId, g: nat)
    requires l in before && g < |before[l]|
    ensures var after := Downgraded(before, remaining);
            && after.Keys == before.Keys && |after[l]| == |before[l]|
            && Rank(after[l][g]) == (if l in remaining then Lowered(Rank(before[l][g]), 1) else Rank(before[l][g]))
            && (l !in remaining ==> after[l] == before[l])
  {
  }

  /** While a layer is unfinished, every downgrade so far has touched it. */
  lemma {:induction false} AllHit(request: string, order: seq<LayerId>, kv: map<LayerId, Layer>, size: nat,
                              slow: nat -> bool,
                              l: LayerId, i: nat, j: nat)
    requires size > 0 && AllSendable(kv) && Distinct(order) && forall l :: l in order ==> l in kv
    requires i <= j < |Stream(request, order, kv, size)|
    requires var ms := Stream(request, order, kv, size); ms[j] in ms && l in Unfinished(order, ms[j].layer)
    ensures Hits(Stream(request, order, kv, size), order, slow, l, i) == Downgrades(slow, i)
  {
    var ms := Stream(request, order, kv, size);
    forall q | 0 <= q < i ensures ms[q] in ms && l in Unfinished(order, ms[q].layer) {
      StillUnfinished(request, order, kv, size, l, q, j);
    }
    EveryHit(ms, order, slow, l, i);
  }

  lemma {:induction false} EveryHit(ms: seq<Message>, order: seq<LayerId>, slow: nat -> bool, l: LayerId, i: nat)
    requires i <= |ms| && forall m :: m in ms ==> m.layer in order
    requires forall q :: 0 <= q < i ==> l in Unfinished(order, ms[q].layer)
    ensures Hits(ms, order, slow, l, i) == Downgrades(slow, i)
  {
    if i > 0 { EveryHit(ms, order, slow, l, i - 1); }
  }

  lemma {:induction false} StillUnfinished(request: string, order: seq<LayerId>, kv: map<LayerId, Layer>, size: nat,
                              l: LayerId, i: nat, j: nat)
    requires size > 0 && AllSendable(kv) && Distinct(order) && forall l :: l in order ==> l in kv
    requires i <= j < |Stream(request, order, kv, size)|
    requires var ms := Stream(request, order, kv, size); ms[j] in ms && l in Unfinished(order, ms[j].layer)
    ensures var ms := Stream(request, order, kv, size); ms[i] in ms && l in Unfinished(order, ms[i].layer)
  {
    var ms := Stream(request, order, kv, size);
    StreamPositions(request, order, kv, size, i, j);
    UnfinishedShrinks(order, ms[i].layer, ms[j].layer);
  }

  /** Three downgrades bring every group of every unfinished layer to INT2. */
  lemma {:induction false} ThreeDowngrades(levels: Levels, request: string, order: seq<LayerId>,
                              kv: map<LayerId, Layer>, size: nat,
                              slow: nat -> bool, i: nat, l: LayerId, g: nat)
    requires size > 0 && AllSendable(kv) && Distinct(order) && forall l :: l in order ==> l in kv
    requires i < |Stream(request, order, kv, size)| && l in levels && g < |levels[l]|
    requires var ms := Stream(request, order, kv, size); ms[i] in ms && l in Unfinished(order, ms[i].layer)
    requires Downgrades(slow, i) >= 3
    ensures var after := LevelsAfter(levels, Stream(request, order, kv, size), order, slow, i);
            l in after && g < |after[l]| && after[l][g] == INT2
  {
    AllHit(request, order, kv, size, slow, l, i, i);
    LevelExact(levels, Stream(request, order, kv, size), order, slow, i, l, g);
  }

  lemma {:induction false} Untouched(levels: Levels, ms: seq<Message>, order: seq<LayerId>, slow: nat -> bool,
                              l: LayerId, i: nat, j: nat)
    requires i <= j <= |ms| && (forall m :: m in ms ==> m.layer in order) && l in levels
    requires forall q :: i <= q < j ==> ms[q] in ms && l !in Unfinished(order, ms[q].layer)
    ensures var before, after := LevelsAfter(levels, ms, order, slow, i), LevelsAfter(levels, ms, order, slow, j);
            l in before && l in after && after[l] == before[l]
  {
    LevelKeys(levels, ms, order, slow, i);
    if i < j {
      Untouched(levels, ms, order, slow, l, i, j - 1);
    }
  }

  /** Once a layer is finished its entry never changes again. */
  lemma {:induction false} FinishedFrozen(levels: Levels, request: string, order: seq<LayerId>, kv: map<LayerId, Layer>,
                              size: nat, slow: nat -> bool, l: LayerId, i: nat, j: nat)
    requires size > 0 && AllSendable(kv) && Distinct(order) && forall l :: l in order ==> l in kv
    requires i < j <= |Stream(request, order, kv, size)| && l in levels
    requires var ms := Stream(request, order, kv, size); ms[i] in ms && l !in Unfinished(order, ms[i].layer)
    ensures var ms := Stream(request, order, kv, size);
            var before, after := LevelsAfter(levels, ms, order, slow, i), LevelsAfter(levels, ms, order, slow, j);
            l in before && l in after && after[l] == before[l]
  {
    var ms := Stream(request, order, kv, size);
    forall q | i <= q < j ensures ms[q] in ms && l !in Unfinished(order, ms[q].layer) {
      StillFinished(request, order, kv, size, l, i, q);
    }
    Untouched(levels, ms, order, slow, l, i, j);
  }

  lemma {:induction false} StillFinished(request: string, order: seq<LayerId>, kv: map<LayerId, Layer>, size: nat,
                              l: LayerId, i: nat, j: nat)
    requires size > 0 && AllSendable(kv) && Distinct(order) && forall l :: l in order ==> l in kv
    requires i <= j < |Stream(request, order, kv, size)|
    requires var ms := Stream(request, order, kv, size); ms[i] in ms && l !in Unfinished(order, ms[i].layer)
    ensures var ms := Stream(request, order, kv, size); ms[j] in ms && l !in Unfinished(order, ms[j].layer)
  {
    var ms := Stream(request, order, kv, size);
    StreamPositions(request, order, kv, size, i, j);
    UnfinishedShrinks(order, ms[i].layer, ms[j].layer);
  }

  lemma {:induction false} LevelKeys(levels: Levels, ms: seq<Message>, order: seq<LayerId>, slow: nat -> bool, i: nat)
    requires i <= |ms| && forall m :: m in ms ==> m.layer in order
    ensures LevelsAfter(levels, ms, order, slow, i).Keys == levels.Keys
  {
    if i > 0 {
      LevelKeys(levels, ms, order, slow, i - 1);
    }
  }

  /**
    What chunk `i` does to a layer: at every second chunk, if the transfer is slow, the layer being sent and those after
    it lose one level; nothing else happens to any.
   */
  lemma {:induction false} DowngradeReach(levels: Levels, ms: seq<Message>, order: seq<LayerId>, slow: nat -> bool,
                              i: nat, p: nat, q: nat, g: nat)
    requires 0 < i <= |ms| && (forall m :: m in ms ==> m.layer in order) && Distinct(order)
    requires p < |order| && q < |order| && ms[i - 1].layer == order[p]
    requires order[q] in levels && g < |levels[order[q]]|
    ensures var before, after := LevelsAfter(levels, ms, order, slow, i - 1), LevelsAfter(levels, ms, order, slow, i);
            && order[q] in before && order[q] in after && g < |before[order[q]]| == |after[order[q]]|
            && Rank(after[order[q]][g]) ==
               (if i % 2 == 0 && slow(i) && p <= q then Lowered(Rank(before[order[q]][g]), 1)
                else Rank(before[order[q]][g]))
  {
    LevelExact(levels, ms, order, slow, i - 1, order[q], g);
    StepExact(LevelsAfter(levels, ms, order, slow, i - 1), Unfinished(order, order[p]), order[q], g);
    UnfinishedFrom(order, p, q);
  }

  lemma {:induction false} UnfinishedFrom(order: seq<LayerId>, p: nat, q: nat)
    requires Distinct(order) && p < |order| && q < |order|
    ensures order[q] in Unfinished(order, order[p]) <==> p <= q
  {
    PositionAt(order, p);
    if p <= q { assert order[p..][q - p] == order[q]; }
    if order[q] in order[p..] {
      var k :| 0 <= k < |order| - p && order[p..][k] == order[q];
      assert order[p + k] == order[q];
    }
  }

  /** Moving the next chunk of a layer from what is left to what is sent. */
  lemma {:induction false} NextChunk(request: string, idx: LayerId, layer: Layer, size: nat, start: nat,
                              cur: seq<Message>, later: seq<Message>)
    requires size > 0 && start < |layer.k| == |layer.v|
    ensures var m := ChunkAt(request, idx, layer, size, start);
            var all := cur + LayerMessages(request, idx, layer, size, start);
            && all == (cur + [m]) + LayerMessages(request, idx, layer, size, start + size)
            && cur + [m] <= all + later
  {
    var m, rest := ChunkAt(request, idx, layer, size, start), LayerMessages(request, idx, layer, size, start + size);
    assert cur + ([m] + rest) == (cur + [m]) + rest;
    assert (cur + [m]) + rest + later == (cur + [m]) + (rest + later);
  }

  /** One call of SendAll: the state it starts from, its inputs and the stream it has to send. */
  datatype Job = Job(sent0: seq<Message>, progress0: seq<(nat, nat)>, levels0: Option<Levels>, kv: map<LayerId, Layer>,
                     order: seq<LayerId>, slow: nat -> bool, all: seq<Message>, total: nat)

  class ChunkedSender {
    const original: Option<map<LayerId, KV>>
    const headDim: nat
    var precisions: Option<Levels>
    var sent: seq<Message>
    var progress: seq<(nat, nat)>

    constructor (original: Option<map<LayerId, KV>>, headDim: nat, precisions: Option<Levels>)
      ensures this.original == original && this.headDim == headDim && this.precisions == precisions
      ensures sent == [] && progress == []
    {
      this.original, this.headDim, this.precisions := original, headDim, precisions;
      sent, progress := [], [];
    }

    static method DowngradePrecisionMap(levels: Levels, remaining: set<LayerId>) returns (r: Levels)
      ensures r == Downgraded(levels, remaining)
    {
      r := map[];
      var todo := levels.Keys;
      while exists l :: l in todo
        invariant todo <= levels.Keys
        invariant r == map l | l in levels && l !in todo :: if l in remaining then DownAll(levels[l]) else levels[l]
        decreases todo
      {
        var l :| l in todo;
        if l in remaining {
          var groups := levels[l];
          var values: seq<Precision> := [];
          for g := 0 to |groups|
            invariant values == DownAll(groups)[..g]
          {
            values := values + [Down(groups[g])];
          }
          assert values == DownAll(groups);
          r := r[l := values];
        } else {
          r := r[l := levels[l]];
        }
        todo := todo - {l};
      }
    }

    /** Re-quantises everything one level lower for the remaining layers if the transfer is slow. */
    method CheckAndDowngrade(slow: bool, remaining: set<LayerId>) returns (requantized: Option<map<LayerId, Layer>>)
      requires original.Some? && CacheShaped(original.value, headDim) && precisions.Some?
      modifies this`precisions
      ensures slow ==> precisions == Some(Downgraded(old(precisions).value, remaining))
      ensures slow ==> requantized == Some(Quantize(original.value, headDim, precisions.value))
      ensures !slow ==> precisions == old(precisions) && requantized == None
    {
      if !slow {
        return None;
      }
      var levels := DowngradePrecisionMap(precisions.value, remaining);
      requantized := Some(Quantize(original.value, headDim, levels));
      precisions := Some(levels);
    }

    /**
      Sends every layer.  `slow(i)` is the verdict of the timing check made after chunk `i`.  The tensors of
      a node are fixed when its loop starts, so a downgrade changes the precision map but nothing that is sent.
     */
    method SendAll(request: string, keys: seq<LayerId>, kv: map<LayerId, Layer>, importance: map<LayerId, real>,
                   bandwidth: real, slow: nat -> bool)
      requires Distinct(keys) && (forall l :: l in keys <==> l in kv) && AllSendable(kv)
      requires original.Some? ==> CacheShaped(original.value, headDim)
      modifies this
      ensures var order := LayerOrder(keys, importance);
              var size := AdaptiveChunkSize(bandwidth);
              (forall l :: l in order ==> l in kv) &&
              var ms := Stream(request, order, kv, size);
              && sent == old(sent) + ms
              && progress == old(progress) + Reports(kv, ms, ExpectedBytes(kv, order))
              && precisions == (if original.Some? && old(precisions).Some?
                                then Some(LevelsAfter(old(precisions).value, ms, order, slow, |ms|))
                                else old(precisions))
    {
      var size := AdaptiveChunkSize(bandwidth);
      var order := LayerOrder(keys, importance);
      LayerOrderComplete(keys, importance);
      var total := TotalExpected(kv, order);
      ghost var job := Job(sent, progress, precisions, kv, order, slow, Stream(request, order, kv, size), total);
      SendLayers(request, order, kv, size, total, slow, job);
    }

    method SendLayers(request: string, order: seq<LayerId>, kv: map<LayerId, Layer>, size: nat, total: nat,
                      slow: nat -> bool, ghost job: Job)
      requires size > 0 && Distinct(order) && (forall l :: l in order ==> l in kv) && AllSendable(kv)
      requires original.Some? ==> CacheShaped(original.value, headDim)
      requires job == Job(sent, progress, precisions, kv, order, slow, Stream(request, order, kv, size), total)
      modifies this
      ensures Progressed(job, job.all, |job.all|, BytesOf(kv, job.all))
    {
      ghost var cur: seq<Message> := [];
      var totalChunks, totalBytes := 0, 0;
      var sentLayers: set<LayerId> := {};
      assert order[0..] == order;
      for pos := 0 to |order|
        invariant cur + Stream(request, order[pos..], kv, size) == job.all
        invariant Progressed(job, cur, totalChunks, totalBytes)
        invariant sentLayers == Members(order[..pos])
      {
        var idx := order[pos];
        NextLayer(request, order, kv, size, pos, cur);
        var remaining := Members(order) - sentLayers;
        ghost var later := Stream(request, order[pos + 1..], kv, size);
        totalChunks, totalBytes := SendLayer(request, idx, kv[idx], size, totalChunks, totalBytes, total, slow,
                                             remaining, job, cur, later);
        cur := cur + LayerMessages(request, idx, kv[idx], size, 0);
        sentLayers := sentLayers + {idx};
      }
      assert cur == job.all;
    }

    /** The chunk loop of one layer.  The layer's tensors were read from the node's cache before the loop. */
    method SendLayer(request: string, idx: LayerId, layer: Layer, size: nat, chunks0: nat, bytes0: nat, total: nat,
                     slow: nat -> bool, remaining: set<LayerId>,
                     ghost job: Job, ghost before: seq<Message>, ghost later: seq<Message>)
      returns (totalChunks: nat, totalBytes: nat)
      requires size > 0 && Sendable(layer) && idx in job.kv && job.kv[idx] == layer
      requires original.Some? ==> CacheShaped(original.value, headDim)
      requires total == job.total && slow == job.slow
      requires idx in job.order && remaining == Unfinished(job.order, idx)
      requires before + LayerMessages(request, idx, layer, size, 0) + later == job.all
      requires Progressed(job, before, chunks0, bytes0)
      modifies this
      ensures Progressed(job, before + LayerMessages(request, idx, layer, size, 0), totalChunks, totalBytes)
    {
      var seqLen := |layer.k|;
      var start := 0;
      totalChunks, totalBytes := chunks0, bytes0;
      ghost var cur := before;
      ghost var done := before + LayerMessages(request, idx, layer, size, 0);
      while start < seqLen
        invariant cur + LayerMessages(request, idx, layer, size, start) == done
        invariant Progressed(job, cur, totalChunks, totalBytes)
        decreases seqLen - start
      {
        var m := ChunkAt(request, idx, layer, size, start);
        NextChunk(request, idx, layer, size, start, cur, later);
        var bytes := StoredBytes(layer.meta, Elements(m.k) + Elements(m.v));
        totalChunks, totalBytes := totalChunks + 1, totalBytes + bytes;
        var requantized := SendChunk(m, totalChunks, totalBytes, total, slow, remaining, job, cur);
        cur := cur + [m];
        start := start + size;
      }
      assert cur == done;
    }

    /** One pass of the chunk loop: send, report, and every second chunk check the transfer rate. */
    method SendChunk(m: Message, totalChunks: nat, totalBytes: nat, total: nat, slow: nat -> bool,
                     remaining: set<LayerId>,
                     ghost job: Job, ghost cur: seq<Message>)
      returns (requantized: Option<map<LayerId, Layer>>)
      requires original.Some? ==> CacheShaped(original.value, headDim)
      requires m.layer in job.kv && totalChunks > 0 && totalBytes >= ChunkBytes(job.kv, m)
      requires Progressed(job, cur, totalChunks - 1, totalBytes - ChunkBytes(job.kv, m))
      requires cur + [m] <= job.all && total == job.total && slow == job.slow
      requires m.layer in job.order && remaining == Unfinished(job.order, m.layer)
      modifies this
      ensures Progressed(job, cur + [m], totalChunks, totalBytes)
    {
      requantized := None;
      sent := sent + [m];
      progress := progress + [(totalBytes, total)];
      assert job.all[|cur|] == (cur + [m])[|cur|] == m;
      assert forall x :: x in cur + [m] ==> x in job.all;
      BytesAppend(job.kv, cur, m);
      ReportsAppend(job.kv, cur, m, total);
      if totalChunks % TIMING_CHECK_INTERVAL == 0 && original.Some? && precisions.Some? {
        requantized := CheckAndDowngrade(slow(totalChunks), remaining);
      }
    }

    static method TotalExpected(kv: map<LayerId, Layer>, order: seq<LayerId>) returns (total: nat)
      requires forall l :: l in order ==> l in kv
      ensures total == ExpectedBytes(kv, order)
    {
      total := 0;
      for i := 0 to |order|
        invariant total + ExpectedBytes(kv, order[i..]) == ExpectedBytes(kv, order)
      {
        assert order[i..][1..] == order[i + 1..];
        total := total + LayerBytes(kv[order[i]]);
      }
    }

    /** The state after the messages `cur` of the job's stream. */
    ghost predicate Progressed(job: Job, cur: seq<Message>, totalChunks: int, totalBytes: int)
      reads this
    {
      && cur <= job.all
      && (forall m :: m in job.all ==> m.layer in job.order && m.layer in job.kv)
      && sent == job.sent0 + cur
      && totalChunks == |cur| && totalBytes == BytesOf(job.kv, cur)
      && progress == job.progress0 + Reports(job.kv, cur, job.total)
      && precisions == (if original.Some? && job.levels0.Some?
                        then Some(LevelsAfter(job.levels0.value, job.all, job.order, job.slow, |cur|)) else job.levels0)
    }
  }
}
