/** Chunk messages, and the message stream that a layer-by-layer sender produces (backend/chunked_transfer.py). */
module Chunks {
  import opened Options
  import opened Layers
  import opened Quantizer
  import opened Seqs
  import opened Sorting

  /** One `kv_chunk` payload.  `meta` is None where the sender attaches an empty dictionary. */
  datatype Message = Message(
    request: string, layer: LayerId, start: int, end: int, total: int,
    k: Tensor, v: Tensor, meta: Option<Meta>, last: bool)

  /** A layer that can be cut: as many value columns as key columns, and at least one. */
  ghost predicate Sendable(l: Layer) {
    |l.k| == |l.v| && |l.k| > 0
  }

  ghost predicate AllSendable(kv: map<LayerId, Layer>) {
    forall l :: l in kv ==> Sendable(kv[l])
  }

  /** The message carrying tokens `start` up to at most `start + size` of layer `idx`. */
  function ChunkAt(request: string, idx: LayerId, l: Layer, size: nat, start: nat): Message
    requires size > 0 && start < |l.k| == |l.v|
  {
    var end := if start + size <= |l.k| then start + size else |l.k|;
    Message(request, idx, start, end, |l.k|, l.k[start..end], l.v[start..end],
            if start == 0 then l.meta else None, end >= |l.k|)
  }

  /** All messages of one layer from token `start` on. */
  function LayerMessages(request: string, idx: LayerId, l: Layer, size: nat, start: nat): (ms: seq<Message>)
    requires size > 0 && |l.k| == |l.v|
    ensures forall m :: m in ms ==> m.layer == idx && m.request == request
    decreases |l.k| - start
  {
    if start >= |l.k| then []
    else [ChunkAt(request, idx, l, size, start)] + LayerMessages(request, idx, l, size, start + size)
  }

  /** The messages of all layers, in layer order. */
  function Stream(request: string, order: seq<LayerId>, kv: map<LayerId, Layer>, size: nat): (ms: seq<Message>)
    requires size > 0 && AllSendable(kv) && forall l :: l in order ==> l in kv
    ensures forall m :: m in ms ==> m.layer in order && m.request == request
  {
    if order == [] then []
    else LayerMessages(request, order[0], kv[order[0]], size, 0) + Stream(request, order[1..], kv, size)
  }

  lemma {:induction false} StreamAppend(request: string, order: seq<LayerId>, l: LayerId, kv: map<LayerId, Layer>,
                              size: nat)
    requires size > 0 && AllSendable(kv) && l in kv && forall l :: l in order ==> l in kv
    ensures Stream(request, order + [l], kv, size) ==
            Stream(request, order, kv, size) + LayerMessages(request, l, kv[l], size, 0)
  {
    if order == [] {
      EmptyLeft([l]);
      assert [l][1..] == [];
      EmptyLeft(LayerMessages(request, l, kv[l], size, 0));
    } else {
      StreamAppend(request, order[1..], l, kv, size);
      TailOf(order, [l]);
      Associative(LayerMessages(request, order[0], kv[order[0]], size, 0), Stream(request, order[1..], kv, size),
                  LayerMessages(request, l, kv[l], size, 0));
    }
  }

  // ---- Messages of one layer within a sequence ----

  function OfLayer(ms: seq<Message>, l: LayerId): (r: seq<Message>)
    ensures forall m :: m in r <==> m in ms && m.layer == l
  {
    if ms == [] then []
    else
      assert ms == [ms[0]] + ms[1..];
      (if ms[0].layer == l then [ms[0]] else []) + OfLayer(ms[1..], l)
  }

  lemma {:induction false} OfLayerConcat(a: seq<Message>, b: seq<Message>, l: LayerId)
    ensures OfLayer(a + b, l) == OfLayer(a, l) + OfLayer(b, l)
  {
    if a == [] {
      assert a + b == b;
    } else {
      OfLayerConcat(a[1..], b, l);
      OfLayerHead(a[0], a[1..] + b, l);
      OfLayerHead(a[0], a[1..], l);
      assert a + b == [a[0]] + (a[1..] + b) && a == [a[0]] + a[1..];
      Associative(if a[0].layer == l then [a[0]] else [], OfLayer(a[1..], l), OfLayer(b, l));
    }
  }


  lemma {:induction false} OfLayerHead(m: Message, ms: seq<Message>, l: LayerId)
    ensures OfLayer([m] + ms, l) == (if m.layer == l then [m] else []) + OfLayer(ms, l)
  {
    assert ([m] + ms)[1..] == ms;
  }

  lemma {:induction false} OfLayerAll(ms: seq<Message>, l: LayerId)
    requires forall m :: m in ms ==> m.layer == l
    ensures OfLayer(ms, l) == ms
  {
    if ms != [] {
      assert ms[0] in ms && forall m :: m in ms[1..] ==> m in ms;
      OfLayerAll(ms[1..], l);
    }
  }

  lemma {:induction false} OfLayerNone(ms: seq<Message>, l: LayerId)
    requires forall m :: m in ms ==> m.layer != l
    ensures OfLayer(ms, l) == []
  {
    if OfLayer(ms, l) != [] { assert OfLayer(ms, l)[0] in OfLayer(ms, l); }
  }

  /** The sender's stream restricted to one of its layers is that layer's own messages. */
  lemma {:induction false} StreamOfLayer(request: string, order: seq<LayerId>, kv: map<LayerId, Layer>, size: nat,
                              l: LayerId)
    requires size > 0 && AllSendable(kv) && Distinct(order) && forall l :: l in order ==> l in kv
    requires l in order
    ensures OfLayer(Stream(request, order, kv, size), l) == LayerMessages(request, l, kv[l], size, 0)
  {
    var head := LayerMessages(request, order[0], kv[order[0]], size, 0);
    var rest := Stream(request, order[1..], kv, size);
    OfLayerConcat(head, rest, l);
    if order[0] == l {
      OfLayerAll(head, l);
      assert l !in order[1..];
      OfLayerNone(rest, l);
    } else {
      OfLayerNone(head, l);
      StreamOfLayer(request, order[1..], kv, size, l);
    }
  }

  /** A layer's first message starts at token 0 and alone carries its metadata; its last alone is marked last. */
  lemma {:induction false} LayerEnds(request: string, idx: LayerId, l: Layer, size: nat, start: nat)
    requires size > 0 && |l.k| == |l.v| && start < |l.k|
    ensures var ms := LayerMessages(request, idx, l, size, start);
            && ms != [] && ms[0].start == start
            && (start == 0 ==> ms[0].meta == l.meta && forall i :: 0 < i < |ms| ==> ms[i].meta == None)
            && ms[|ms| - 1].last && ms[|ms| - 1].end == |l.k|
            && (forall i :: 0 <= i < |ms| - 1 ==> !ms[i].last && ms[i].end < |l.k|)
            && (forall i :: 0 <= i < |ms| ==> ms[i].start >= start)
            && (start > 0 ==> forall i :: 0 <= i < |ms| ==> ms[i].meta == None)
    decreases |l.k| - start
  {
    if start + size < |l.k| {
      LayerEnds(request, idx, l, size, start + size);
    } else {
      assert LayerMessages(request, idx, l, size, start + size) == [];
    }
  }
}
