/** Decode side: keyed buffers, interval cover, reassembly and completion callback (backend/chunked_transfer.py). */
module Assembly {
  import opened Options
  import opened Layers
  import opened Quantizer
  import opened Sorting
  import opened Chunks

  // ---- Buffered state ----

  datatype Chunk = Chunk(start: int, end: int, k: Tensor, v: Tensor)

  /** Chunks of one layer in arrival order; total length and metadata come from the first arrival. */
  datatype Info = Info(chunks: seq<Chunk>, total: int, meta: Option<Meta>)

  type Buffer = map<LayerId, Info>

  /** One call of the completion callback: the reassembled layers, and what was passed on after dequantising. */
  datatype Delivery = Delivery(request: string, received: map<LayerId, Layer>, output: map<LayerId, KV>)

  datatype State = State(buffers: map<string, Buffer>, delivered: seq<Delivery>)

  // ---- Specification ----

  ghost predicate Covered(chunks: seq<Chunk>, p: int) {
    exists i :: 0 <= i < |chunks| && chunks[i].start <= p < chunks[i].end
  }

  /** Every position is covered, up to the declared length and up to the last chunk start. */
  ghost predicate Complete(info: Info) {
    forall p :: 0 <= p && (p < info.total || exists i :: 0 <= i < |info.chunks| && p < info.chunks[i].start)
      ==> Covered(info.chunks, p)
  }

  function ToChunk(m: Message): Chunk {
    Chunk(m.start, m.end, m.k, m.v)
  }

  /** The buffer with one more chunk in it. */
  function Store(buf: Buffer, m: Message): Buffer {
    var info := if m.layer in buf then buf[m.layer] else Info([], m.total, m.meta);
    buf[m.layer := info.(chunks := info.chunks + [ToChunk(m)])]
  }

  function ByStart(): Chunk -> real {
    (c: Chunk) => c.start as real
  }

  function JoinK(chunks: seq<Chunk>): Tensor {
    if chunks == [] then [] else chunks[0].k + JoinK(chunks[1..])
  }

  function JoinV(chunks: seq<Chunk>): Tensor {
    if chunks == [] then [] else chunks[0].v + JoinV(chunks[1..])
  }

  function Reassembled(info: Info): Layer {
    var sorted := Sort(info.chunks, ByStart());
    Layer(JoinK(sorted), JoinV(sorted), info.meta)
  }

  function ReassembledAll(buf: Buffer): map<LayerId, Layer> {
    map l | l in buf :: Reassembled(buf[l])
  }

  ghost predicate Ready(buf: Buffer, numLayers: int) {
    (numLayers > 0 ==> |buf| >= numLayers) && forall l :: l in buf ==> Complete(buf[l])
  }

  function BufferOf(s: State, request: string): Buffer {
    if request in s.buffers then s.buffers[request] else map[]
  }

  function Deliver(request: string, received: map<LayerId, Layer>): Delivery {
    Delivery(request, received, Dequantize(received))
  }

  /** What one chunk does: it is stored, and a chunk marked last completes the request if everything is covered. */
  ghost function Receive(s: State, numLayers: int, m: Message): State {
    var buf := Store(BufferOf(s, m.request), m);
    if m.last && Ready(buf, numLayers) then
      State(s.buffers - {m.request}, s.delivered + [Deliver(m.request, ReassembledAll(buf))])
    else s.(buffers := s.buffers[m.request := buf])
  }

  function Cancelled(s: State, request: string): State {
    s.(buffers := s.buffers - {request})
  }

  // ---- Implementation ----

  class ChunkAssembler {
    const numLayers: int
    var buffers: map<string, Buffer>
    var delivered: seq<Delivery>

    ghost function View(): State
      reads this
    {
      State(buffers, delivered)
    }

    constructor (numLayers: int)
      ensures this.numLayers == numLayers && View() == State(map[], [])
    {
      this.numLayers := numLayers;
      buffers, delivered := map[], [];
    }

    /** The interval-cover sweep over the chunks in start order. */
    static method IsComplete(info: Info) returns (complete: bool)
      ensures complete <==> Complete(info)
    {
      var covered := Sort(info.chunks, ByStart());
      SortSorted(info.chunks, ByStart());
      SortMembers(info.chunks, ByStart());
      ghost var chunks := info.chunks;
      var pos := 0;
      var i := 0;
      while i < |covered|
        invariant 0 <= i <= |covered| && pos >= 0
        invariant forall j :: 0 <= j < i ==> covered[j].end <= pos && covered[j].start <= pos
        invariant forall p :: 0 <= p < pos ==> Covered(chunks, p)
      {
        if covered[i].start > pos {
          NotCovered(chunks, covered, i, pos);
          return false;
        }
        assert covered[i] in chunks;
        pos := if covered[i].end > pos then covered[i].end else pos;
        i := i + 1;
      }
      NothingBeyond(chunks, covered, pos);
      return pos >= info.total;
    }

    static method AllComplete(buf: Buffer) returns (complete: bool)
      ensures complete <==> forall l :: l in buf ==> Complete(buf[l])
    {
      var unchecked := buf.Keys;
      while exists l :: l in unchecked
        invariant unchecked <= buf.Keys
        invariant forall l :: l in buf && l !in unchecked ==> Complete(buf[l])
        decreases unchecked
      {
        var l :| l in unchecked;
        var ok := IsComplete(buf[l]);
        if !ok {
          return false;
        }
        unchecked := unchecked - {l};
      }
      return true;
    }

    static method Concatenate(chunks: seq<Chunk>) returns (k: Tensor, v: Tensor)
      ensures k == JoinK(chunks) && v == JoinV(chunks)
    {
      k, v := [], [];
      for i := 0 to |chunks|
        invariant k + JoinK(chunks[i..]) == JoinK(chunks)
        invariant v + JoinV(chunks[i..]) == JoinV(chunks)
      {
        assert chunks[i..][1..] == chunks[i + 1..];
        k, v := k + chunks[i].k, v + chunks[i].v;
      }
    }

    /** Concatenates each layer's chunks in start order. */
    static method Assemble(buf: Buffer) returns (result: map<LayerId, Layer>)
      ensures result == ReassembledAll(buf)
    {
      result := map[];
      var todo := buf.Keys;
      while exists l :: l in todo
        invariant todo <= buf.Keys
        invariant result == map l | l in buf && l !in todo :: Reassembled(buf[l])
        decreases todo
      {
        var l :| l in todo;
        var k, v := Concatenate(Sort(buf[l].chunks, ByStart()));
        result := result[l := Layer(k, v, buf[l].meta)];
        todo := todo - {l};
      }
    }

    /** Stores a chunk; returns true when the request became complete and the callback ran. */
    method AddChunk(m: Message) returns (fired: bool)
      modifies this
      ensures View() == Receive(old(View()), numLayers, m)
      ensures fired <==> delivered != old(delivered)
    {
      var buf := Store(if m.request in buffers then buffers[m.request] else map[], m);
      buffers := buffers[m.request := buf];
      if !m.last {
        return false;
      }
      if numLayers > 0 && |buf| < numLayers {
        return false;
      }
      var complete := AllComplete(buf);
      if !complete {
        return false;
      }
      var assembled := Assemble(buf);
      buffers := buffers - {m.request};
      assert buffers == old(buffers) - {m.request};
      delivered := delivered + [Delivery(m.request, assembled, Dequantize(assembled))];
      return true;
    }

    method Cancel(request: string)
      modifies this
      ensures View() == Cancelled(old(View()), request)
    {
      buffers := buffers - {request};
    }
  }

  /** The sweep's failure: nothing covers the gap before the next start. */
  lemma {:induction false} NotCovered(chunks: seq<Chunk>, sorted: seq<Chunk>, i: nat, pos: int)
    requires i < |sorted| && pos >= 0 && sorted[i].start > pos
    requires SortedBy(sorted, ByStart()) && forall c :: c in sorted <==> c in chunks
    requires forall j :: 0 <= j < i ==> sorted[j].end <= pos
    ensures !Covered(chunks, pos) && exists j :: 0 <= j < |chunks| && pos < chunks[j].start
  {
    assert sorted[i] in chunks;
    forall j | 0 <= j < |chunks| ensures !(chunks[j].start <= pos < chunks[j].end) {
      assert chunks[j] in sorted;
      var h :| 0 <= h < |sorted| && sorted[h] == chunks[j];
      assert h > i ==> ByStart()(sorted[i]) <= ByStart()(sorted[h]);
    }
  }

  lemma {:induction false} NothingBeyond(chunks: seq<Chunk>, sorted: seq<Chunk>, pos: int)
    requires forall c :: c in sorted <==> c in chunks
    requires forall j :: 0 <= j < |sorted| ==> sorted[j].end <= pos && sorted[j].start <= pos
    ensures !Covered(chunks, pos) && forall j :: 0 <= j < |chunks| ==> chunks[j].start <= pos
  {
    forall j | 0 <= j < |chunks| ensures chunks[j].start <= pos && chunks[j].end <= pos {
      assert chunks[j] in sorted;
    }
  }

  /** For chunks that start within the layer, complete means exactly that every token is covered. */
  lemma {:induction false} CompleteMeansCovered(info: Info)
    requires forall i :: 0 <= i < |info.chunks| ==> info.chunks[i].start <= info.total
    ensures Complete(info) <==> forall p :: 0 <= p < info.total ==> Covered(info.chunks, p)
  {
  }
}
