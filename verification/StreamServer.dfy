/** One streaming session of the decode server: at most one decode, at most one reply (socket_transport.py). */
module StreamServer {
  import opened Options
  import opened Layers
  import opened Quantizer
  import opened Sorting
  import opened Chunks
  import opened Assembly
  import opened DeliveryRuns

  /** What a turn of the receive loop meets.  `BadChunk` lacks a field, `Stopped` is a server shut down meanwhile. */
  datatype Incoming = Part(m: Message) | BadChunk(request: string) | DecodeStart | Ignored | Lost | Stopped

  datatype Reply<+R> = Ok(result: R) | Failed

  /** How the receive loop ends. */
  datatype Ending = Quiet | Start | Raised

  datatype Session<+R> = Session(state: State, decoded: seq<map<LayerId, KV>>, replies: seq<Reply<R>>)

  // ---- Specification ----

  /** The loop ignores this and goes on. */
  predicate Passing(request: string, x: Incoming) {
    x.Part? || x.Ignored? || (x.BadChunk? && x.request != request)
  }

  /** The chunk to hand to the assembler, if it belongs to this request. */
  function Own(request: string, x: Incoming): seq<Message> {
    if x.Part? && x.m.request == request then [x.m] else []
  }

  /** How anything that is not passed over ends the loop. */
  function End(x: Incoming): Ending {
    if x.DecodeStart? then Start else if x.BadChunk? then Raised else Quiet
  }

  /** The chunks handed to the assembler: those of this request, up to the end of the loop. */
  function Accepted(request: string, incoming: seq<Incoming>): (ms: seq<Message>)
    ensures forall m :: m in ms ==> m.request == request
  {
    if incoming == [] || !Passing(request, incoming[0]) then []
    else
      Own(request, incoming[0]) + Accepted(request, incoming[1..])
  }

  function EndingOf(request: string, incoming: seq<Incoming>): Ending {
    if incoming == [] then Quiet
    else if Passing(request, incoming[0]) then EndingOf(request, incoming[1..])
    else End(incoming[0])
  }

  /** A decode function that may raise. */
  function Answer<R>(decode: map<LayerId, KV> -> Option<R>, cache: map<LayerId, KV>): Reply<R> {
    match decode(cache)
    case Some(r) => Ok(r)
    case None => Failed
  }

  function LastOutput(s: State): Option<map<LayerId, KV>> {
    if s.delivered == [] then None else Some(s.delivered[|s.delivered| - 1].output)
  }

  /** What a session does after its loop left the assembler in state `s`. */
  function Concluded<R>(s: State, request: string, ending: Ending, decode: map<LayerId, KV> -> Option<R>): Session<R> {
    match ending
    case Quiet => Session(Cancelled(s, request), [], [])
    case Raised => Session(Cancelled(s, request), [], [Failed])
    case Start =>
      match LastOutput(s)
      case None => Session(Cancelled(s, request), [], [Failed])
      case Some(cache) => Session(Cancelled(s, request), [cache], [Answer(decode, cache)])
  }

  ghost function Served<R>(numLayers: int, request: string, incoming: seq<Incoming>,
                           decode: map<LayerId, KV> -> Option<R>): Session<R>
  {
    Concluded(Run(numLayers, Accepted(request, incoming)), request, EndingOf(request, incoming), decode)
  }

  // ---- Implementation ----

  class SocketServer<R> {
    var replies: seq<Reply<R>>
    var decoded: seq<map<LayerId, KV>>

    constructor ()
      ensures replies == [] && decoded == []
    {
      replies, decoded := [], [];
    }

    /** Runs one session with a fresh assembler; a context that lacks a part is refused and nothing else happens. */
    method HandleAbktStream(assembler: ChunkAssembler?, event: bool, decodeFn: Option<map<LayerId, KV> -> Option<R>>,
                            request: string, incoming: seq<Incoming>)
      requires assembler != null ==> assembler.View() == State(map[], [])
      modifies this, assembler
      ensures assembler == null || !event || decodeFn.None? ==>
                && replies == old(replies) + [Failed] && decoded == old(decoded)
                && (assembler != null ==> assembler.View() == State(map[], []))
      ensures assembler != null && event && decodeFn.Some? ==>
                var session := Served(assembler.numLayers, request, incoming, decodeFn.value);
                && assembler.View() == session.state
                && replies == old(replies) + session.replies
                && decoded == old(decoded) + session.decoded
    {
      if assembler == null || !event || decodeFn.None? {
        replies := replies + [Failed];
        return;
      }
      var assembled, ending := ReceiveLoop(assembler, request, incoming);
      assembler.Cancel(request);
      Conclude(assembled, ending, decodeFn.value);
    }

    /** Decodes what was assembled and answers, if the loop ended in a request to. */
    method Conclude(assembled: Option<map<LayerId, KV>>, ending: Ending, decode: map<LayerId, KV> -> Option<R>)
      modifies this
      ensures decoded == old(decoded) + if ending == Start && assembled.Some? then [assembled.value] else []
      ensures replies == old(replies) +
                if ending == Quiet then []
                else if ending == Start && assembled.Some? then [Answer(decode, assembled.value)]
                else [Failed]
    {
      if ending == Start {
        match assembled {
          case Some(cache) =>
            decoded := decoded + [cache];
            match decode(cache) {
              case Some(r) => replies := replies + [Ok(r)];
              case None => replies := replies + [Failed];
            }
          case None => replies := replies + [Failed];
        }
      } else if ending == Raised {
        replies := replies + [Failed];
      }
    }

    /** The receive loop: what the completion callback stored last, and how the loop ended. */
    static method ReceiveLoop(assembler: ChunkAssembler, request: string, incoming: seq<Incoming>)
      returns (assembled: Option<map<LayerId, KV>>, ending: Ending)
      requires assembler.View() == State(map[], [])
      modifies assembler
      ensures Reached(assembler, Accepted(request, incoming), assembled) && ending == EndingOf(request, incoming)
    {
      assembled := None;
      ghost var ms: seq<Message> := [];
      assert incoming[0..] == incoming;
      for i := 0 to |incoming|
        invariant Before(request, incoming, i, ms)
        invariant Reached(assembler, ms, assembled)
      {
        var x := incoming[i];
        OneTurn(request, incoming, i, ms);
        var over: Option<Ending>;
        assembled, over := Turn(assembler, request, x, assembled, ms);
        if over.Some? {
          return assembled, over.value;
        }
        ms := ms + Own(request, x);
      }
      AtEnd(request, incoming, ms);
      return assembled, Quiet;
    }

    /** One turn of the loop; `over` says how it ended, if it did. */
    static method Turn(assembler: ChunkAssembler, request: string, x: Incoming, assembled: Option<map<LayerId, KV>>,
                       ghost ms: seq<Message>)
      returns (now: Option<map<LayerId, KV>>, over: Option<Ending>)
      requires Reached(assembler, ms, assembled)
      modifies assembler
      ensures over == if Passing(request, x) then None else Some(End(x))
      ensures Reached(assembler, if Passing(request, x) then ms + Own(request, x) else ms, now)
    {
      now, over := assembled, None;
      assert ms + [] == ms;
      match x {
        case Part(m) =>
          if m.request == request {
            now := AddChunk(assembler, m, assembled, ms);
          }
        case BadChunk(other) =>
          if other == request {
            over := Some(Raised);
          }
        case DecodeStart => over := Some(Start);
        case Ignored =>
        case Lost => over := Some(Quiet);
        case Stopped => over := Some(Quiet);
      }
    }

    /** The assembler has received `ms`, and `assembled` is what its callback stored last. */
    static ghost predicate Reached(assembler: ChunkAssembler, ms: seq<Message>, assembled: Option<map<LayerId, KV>>)
      reads assembler
    {
      assembler.View() == Run(assembler.numLayers, ms) && assembled == LastOutput(assembler.View())
    }

    /** Hands a chunk to the assembler, whose callback overwrites what was assembled before. */
    static method AddChunk(assembler: ChunkAssembler, m: Message, assembled: Option<map<LayerId, KV>>,
                           ghost ms: seq<Message>)
      returns (now: Option<map<LayerId, KV>>)
      requires Reached(assembler, ms, assembled)
      modifies assembler
      ensures Reached(assembler, ms + [m], now)
    {
      assert (ms + [m])[..|ms|] == ms;
      now := assembled;
      var fired := assembler.AddChunk(m);
      if fired {
        now := Some(assembler.delivered[|assembler.delivered| - 1].output);
      }
    }
  }

  /** `ms` are the chunks accepted before turn `i`, and the loop is still running then. */
  ghost predicate Before(request: string, incoming: seq<Incoming>, i: nat, ms: seq<Message>)
    requires i <= |incoming|
  {
    && ms + Accepted(request, incoming[i..]) == Accepted(request, incoming)
    && EndingOf(request, incoming[i..]) == EndingOf(request, incoming)
  }

  lemma {:induction false} AtEnd(request: string, incoming: seq<Incoming>, ms: seq<Message>)
    requires Before(request, incoming, |incoming|, ms)
    ensures ms == Accepted(request, incoming) && EndingOf(request, incoming) == Quiet
  {
    assert incoming[|incoming|..] == [];
    assert ms + [] == ms;
  }

  lemma {:induction false} OneTurn(request: string, incoming: seq<Incoming>, i: nat, ms: seq<Message>)
    requires i < |incoming| && Before(request, incoming, i, ms)
    ensures var x := incoming[i];
            if Passing(request, x) then Before(request, incoming, i + 1, ms + Own(request, x))
            else ms == Accepted(request, incoming) && EndingOf(request, incoming) == End(x)
  {
    assert incoming[i..][0] == incoming[i] && incoming[i..][1..] == incoming[i + 1..];
    assert ms + (Own(request, incoming[i]) + Accepted(request, incoming[i + 1..]))
        == (ms + Own(request, incoming[i])) + Accepted(request, incoming[i + 1..]);
  }

  // ---- Safety for any messages ----

  /** The last of these chunks, all of one request and gathered from chunk i on, completes the request. */
  ghost predicate Completes(numLayers: int, ms: seq<Message>, i: nat) {
    i < |ms| && ms[|ms| - 1].last && Ready(Gather(ms[i..]), numLayers)
  }

  /** Where the buffer of the request starts: after the last completion. */
  ghost function Since(numLayers: int, ms: seq<Message>): (i: nat)
    ensures i <= |ms|
  {
    if ms == [] then 0
    else
      var i := Since(numLayers, ms[..|ms| - 1]);
      if Completes(numLayers, ms, i) then |ms| else i
  }

  lemma {:induction false} GatherNext(ms: seq<Message>, i: nat)
    requires i < |ms|
    ensures Gather(ms[i..]) == Store(Gather(ms[..|ms| - 1][i..]), ms[|ms| - 1])
  {
    assert ms[i..][..|ms[i..]| - 1] == ms[..|ms| - 1][i..];
  }

  /** The buffer when everything since chunk i has been gathered. */
  function Holding(request: string, ms: seq<Message>, i: nat): map<string, Buffer>
    requires i <= |ms|
  {
    if i == |ms| then map[] else map[request := Gather(ms[i..])]
  }

  /** One more chunk on a buffer that holds exactly what came since chunk i. */
  lemma {:induction false} ReceiveNext(s: State, numLayers: int, request: string, ms: seq<Message>, i: nat)
    requires ms != [] && i < |ms| && ms[|ms| - 1].request == request
    requires s.buffers == Holding(request, ms[..|ms| - 1], i)
    ensures var t, whole := Receive(s, numLayers, ms[|ms| - 1]), Gather(ms[i..]);
            if Completes(numLayers, ms, i)
            then t.buffers == map[] && t.delivered == s.delivered + [Deliver(request, ReassembledAll(whole))]
            else t.buffers == map[request := whole] && t.delivered == s.delivered
  {
    GatherNext(ms, i);
    if i == |ms| - 1 { assert ms[..|ms| - 1][i..] == []; }
    assert BufferOf(s, request) == Gather(ms[..|ms| - 1][i..]);
  }

  /** The assembler's state after any chunks of one request: what is held, and what the last chunk delivered. */
  lemma {:induction false} RunExact(numLayers: int, request: string, ms: seq<Message>)
    requires forall m :: m in ms ==> m.request == request
    ensures Run(numLayers, ms).buffers == Holding(request, ms, Since(numLayers, ms))
    ensures ms != [] ==>
              var before, i := ms[..|ms| - 1], Since(numLayers, ms[..|ms| - 1]);
              Run(numLayers, ms).delivered == Run(numLayers, before).delivered +
                if Completes(numLayers, ms, i) then [Deliver(request, ReassembledAll(Gather(ms[i..])))] else []
  {
    if ms != [] {
      var before := ms[..|ms| - 1];
      assert ms[|ms| - 1] in ms;
      RunExact(numLayers, request, before);
      ReceiveNext(Run(numLayers, before), numLayers, request, ms, Since(numLayers, before));
    }
  }

  /** Chunks i up to j are those since the previous completion, and chunk j - 1 completed the request. */
  ghost predicate CompletedAt(numLayers: int, ms: seq<Message>, i: nat, j: nat) {
    && i < j <= |ms| && i == Since(numLayers, ms[..j - 1])
    && ms[j - 1].last && Ready(Gather(ms[i..j]), numLayers)
  }

  /** `cache` is the dequantised reassembly of exactly the chunks that arrived between two completions. */
  ghost predicate Completed(numLayers: int, ms: seq<Message>, cache: map<LayerId, KV>) {
    exists i: nat, j: nat :: CompletedAt(numLayers, ms, i, j) && cache == Dequantize(ReassembledAll(Gather(ms[i..j])))
  }

  lemma {:induction false} SlicesOfPrefix(ms: seq<Message>, i: nat, j: nat)
    requires i < j < |ms|
    ensures ms[..|ms| - 1][..j - 1] == ms[..j - 1] && ms[..|ms| - 1][i..j] == ms[i..j]
  {
  }

  lemma {:induction false} CompletedLater(numLayers: int, ms: seq<Message>, cache: map<LayerId, KV>)
    requires ms != [] && Completed(numLayers, ms[..|ms| - 1], cache)
    ensures Completed(numLayers, ms, cache)
  {
    var before := ms[..|ms| - 1];
    var i: nat, j: nat :| CompletedAt(numLayers, before, i, j)
      && cache == Dequantize(ReassembledAll(Gather(before[i..j])));
    SlicesOfPrefix(ms, i, j);
    assert CompletedAt(numLayers, ms, i, j);
  }

  lemma {:induction false} CompletedNow(numLayers: int, ms: seq<Message>, i: nat)
    requires ms != [] && i == Since(numLayers, ms[..|ms| - 1]) && Completes(numLayers, ms, i)
    ensures Completed(numLayers, ms, Dequantize(ReassembledAll(Gather(ms[i..]))))
  {
    assert ms[i..|ms|] == ms[i..];
    assert CompletedAt(numLayers, ms, i, |ms|);
  }

  /** Every delivery of a run is of a completely assembled cache. */
  lemma {:induction false} RunSound(numLayers: int, request: string, ms: seq<Message>, k: nat)
    requires (forall m :: m in ms ==> m.request == request) && k < |Run(numLayers, ms).delivered|
    ensures Completed(numLayers, ms, Run(numLayers, ms).delivered[k].output)
  {
    var before := ms[..|ms| - 1];
    RunExact(numLayers, request, ms);
    if k < |Run(numLayers, before).delivered| {
      RunSound(numLayers, request, before, k);
      CompletedLater(numLayers, ms, Run(numLayers, ms).delivered[k].output);
    } else {
      CompletedNow(numLayers, ms, Since(numLayers, before));
    }
  }

  /** In such a cache every layer is whole: all tokens its first chunk announced, and that chunk's metadata. */
  lemma {:induction false} WholeLayers(numLayers: int, ms: seq<Message>, l: LayerId)
    requires Ready(Gather(ms), numLayers) && OfLayer(ms, l) != []
    ensures l in Gather(ms) && Reassembled(Gather(ms)[l]).meta == OfLayer(ms, l)[0].meta
    ensures forall p :: 0 <= p < OfLayer(ms, l)[0].total ==> Covered(ToChunks(OfLayer(ms, l)), p)
  {
    GatherLayer(ms, l);
    assert Complete(Gather(ms)[l]);
  }

  lemma {:induction false} Emptied(s: State, request: string)
    requires forall r :: r in s.buffers ==> r == request
    ensures Cancelled(s, request).buffers == map[]
  {
  }

  lemma {:induction false} ConcludedSafe<R>(s: State, request: string, ending: Ending,
                              decode: map<LayerId, KV> -> Option<R>)
    ensures var session := Concluded(s, request, ending, decode);
            && session.state == Cancelled(s, request)
            && |session.decoded| <= 1 && |session.replies| <= 1
            && (session.decoded != [] ==> LastOutput(s) == Some(session.decoded[0]))
            && (session.replies != [] && session.replies[0].Ok? ==>
                  session.decoded != [] && decode(session.decoded[0]) == Some(session.replies[0].result))
  {
  }

  /**
    Whatever arrives: at most one decode and one reply; a decode only on a cache that the assembler completed from
    chunks of this request; success is only reported for a decode; and nothing is left in the assembler.
   */
  lemma {:induction false} SessionSafe<R>(numLayers: int, request: string, incoming: seq<Incoming>,
                              decode: map<LayerId, KV> -> Option<R>)
    returns (s: Session<R>)
    ensures s == Served(numLayers, request, incoming, decode)
    ensures |s.decoded| <= 1 && |s.replies| <= 1
    ensures s.decoded != [] ==> Completed(numLayers, Accepted(request, incoming), s.decoded[0])
    ensures s.replies != [] && s.replies[0].Ok? ==> s.decoded != [] && decode(s.decoded[0]) == Some(s.replies[0].result)
    ensures s.state.buffers == map[]
  {
    s := Served(numLayers, request, incoming, decode);
    var ms := Accepted(request, incoming);
    ConcludedSafe(Run(numLayers, ms), request, EndingOf(request, incoming), decode);
    RunExact(numLayers, request, ms);
    Emptied(Run(numLayers, ms), request);
    if LastOutput(Run(numLayers, ms)).Some? {
      RunSound(numLayers, request, ms, |Run(numLayers, ms).delivered| - 1);
    }
  }

  // ---- What ends a session ----

  /** Message `i` is the first that is a decode_start, a lost connection, a shutdown or a malformed own chunk. */
  ghost predicate EndsAt(request: string, incoming: seq<Incoming>, i: nat) {
    && i < |incoming| && incoming[i] in {DecodeStart, Lost, Stopped, BadChunk(request)}
    && forall k :: 0 <= k < i ==> incoming[k] !in {DecodeStart, Lost, Stopped, BadChunk(request)}
  }

  ghost predicate NeverEnds(request: string, incoming: seq<Incoming>) {
    forall k :: 0 <= k < |incoming| ==> incoming[k] !in {DecodeStart, Lost, Stopped, BadChunk(request)}
  }

  lemma {:induction false} EndingAt(request: string, incoming: seq<Incoming>, i: nat)
    requires EndsAt(request, incoming, i)
    ensures EndingOf(request, incoming) ==
            if incoming[i] == DecodeStart then Start else if incoming[i] == BadChunk(request) then Raised else Quiet
  {
    if i > 0 {
      assert incoming[0] !in {DecodeStart, Lost, Stopped, BadChunk(request)};
      forall k | 0 <= k < i - 1 ensures incoming[1..][k] !in {DecodeStart, Lost, Stopped, BadChunk(request)} {
        assert incoming[1..][k] == incoming[k + 1];
      }
      EndingAt(request, incoming[1..], i - 1);
    }
  }

  lemma {:induction false} NoEnding(request: string, incoming: seq<Incoming>)
    requires NeverEnds(request, incoming)
    ensures EndingOf(request, incoming) == Quiet
  {
    if incoming != [] {
      assert incoming[0] !in {DecodeStart, Lost, Stopped, BadChunk(request)};
      forall k | 0 <= k < |incoming| - 1
        ensures incoming[1..][k] !in {DecodeStart, Lost, Stopped, BadChunk(request)}
      {
        assert incoming[1..][k] == incoming[k + 1];
      }
      NoEnding(request, incoming[1..]);
    }
  }

  lemma {:induction false} FirstEnd(request: string, incoming: seq<Incoming>) returns (i: nat)
    requires !NeverEnds(request, incoming)
    ensures EndsAt(request, incoming, i)
  {
    i := 0;
    while incoming[i] !in {DecodeStart, Lost, Stopped, BadChunk(request)}
      invariant i < |incoming|
      invariant forall k :: 0 <= k < i ==> incoming[k] !in {DecodeStart, Lost, Stopped, BadChunk(request)}
      decreases |incoming| - i
    {
      if i + 1 == |incoming| {
        assert NeverEnds(request, incoming);
      }
      i := i + 1;
    }
  }

  /**
    What each end leads to: a lost connection, a shutdown, or no end, decodes and replies nothing; a malformed own chunk
    decodes nothing and reports a failure; decode_start replies once, and decodes if something was assembled.
   */
  lemma {:induction false} SessionEnds<R>(numLayers: int, request: string, incoming: seq<Incoming>, i: nat,
                              decode: map<LayerId, KV> -> Option<R>)
    returns (s: Session<R>)
    requires EndsAt(request, incoming, i) || NeverEnds(request, incoming)
    ensures s == Served(numLayers, request, incoming, decode)
    ensures NeverEnds(request, incoming) ==> s.decoded == [] && s.replies == []
    ensures EndsAt(request, incoming, i) ==>
              match incoming[i]
              case BadChunk(_) => s.decoded == [] && s.replies == [Failed]
              case DecodeStart =>
                var run := Run(numLayers, Accepted(request, incoming));
                if run.delivered == [] then s.decoded == [] && s.replies == [Failed]
                else
                  var cache := run.delivered[|run.delivered| - 1].output;
                  s.decoded == [cache] && s.replies == [Answer(decode, cache)]
              case _ => s.decoded == [] && s.replies == []
  {
    s := Served(numLayers, request, incoming, decode);
    var run := Run(numLayers, Accepted(request, incoming));
    if NeverEnds(request, incoming) {
      NoEnding(request, incoming);
    } else {
      EndingAt(request, incoming, i);
      AfterStart(run, request, decode);
    }
  }

  /** A decode or a reported success needs a decode_start, with nothing before it that ends the session. */
  lemma {:induction false} DecodesOnlyOnStart<R>(numLayers: int, request: string, incoming: seq<Incoming>,
                              decode: map<LayerId, KV> -> Option<R>)
    returns (s: Session<R>, i: nat)
    ensures s == Served(numLayers, request, incoming, decode)
    ensures s.decoded != [] || (s.replies != [] && s.replies[0].Ok?) ==>
              EndsAt(request, incoming, i) && incoming[i] == DecodeStart
  {
    i := 0;
    if !NeverEnds(request, incoming) { i := FirstEnd(request, incoming); }
    s := SessionEnds(numLayers, request, incoming, i, decode);
  }

  // ---- A sender's session ----

  lemma {:induction false} AcceptedThenStart(request: string, front: seq<Incoming>, rest: seq<Incoming>)
    requires forall x :: x in front ==> Passing(request, x)
    ensures Accepted(request, front + [DecodeStart] + rest) == Accepted(request, front)
    ensures EndingOf(request, front + [DecodeStart] + rest) == Start
  {
    var all := front + [DecodeStart] + rest;
    if front != [] {
      assert front[0] in front && all[0] == front[0];
      assert all[1..] == front[1..] + [DecodeStart] + rest;
      AcceptedThenStart(request, front[1..], rest);
    }
  }

  /** What has been assembled after the first `j` chunks: everything after the last, nothing before. */
  lemma {:induction false} OutputAfter(numLayers: int, request: string, layers: map<LayerId, Layer>, size: nat,
                              ms: seq<Message>, j: nat)
    returns (run: State)
    requires size > 0 && AllSendable(layers) && layers != map[] && CountFits(numLayers, |layers|)
    requires Interleaving(ms, request, layers, size) && j <= |ms|
    ensures run == Run(numLayers, ms[..j])
    ensures LastOutput(run) == if j == |ms| then Some(Dequantize(layers)) else None
  {
    EndToEnd(numLayers, ms, request, layers, size);
    run := OutputOf(numLayers, ms, Delivery(request, layers, Dequantize(layers)), j);
  }

  lemma {:induction false} OutputOf(numLayers: int, ms: seq<Message>, d: Delivery, j: nat) returns (run: State)
    requires j <= |ms| && Run(numLayers, ms).delivered == [d]
    requires forall i :: 0 <= i < |ms| ==> Run(numLayers, ms[..i]).delivered == []
    ensures run == Run(numLayers, ms[..j]) && LastOutput(run) == if j == |ms| then Some(d.output) else None
  {
    run := Run(numLayers, ms[..j]);
    if j == |ms| { assert ms[..j] == ms; }
  }

  lemma {:induction false} AfterStart<R>(s: State, request: string, decode: map<LayerId, KV> -> Option<R>)
    ensures var session := Concluded(s, request, Start, decode);
            match LastOutput(s)
            case None => session.decoded == [] && session.replies == [Failed]
            case Some(cache) => session.decoded == [cache] && session.replies == [Answer(decode, cache)]
  {
  }

  /**
    A sender's chunks in any interleaving, amid foreign chunks and unknown messages, then decode_start.  The session
    decodes the sender's own layers, dequantised, and answers with the result, exactly when all chunks came before
    decode_start; otherwise it decodes nothing and reports a failure.
   */
  lemma {:induction false} SenderSession<R>(numLayers: int, request: string, layers: map<LayerId, Layer>, size: nat,
                              ms: seq<Message>, j: nat,
                              front: seq<Incoming>, rest: seq<Incoming>, decode: map<LayerId, KV> -> Option<R>)
    returns (s: Session<R>)
    requires size > 0 && AllSendable(layers) && layers != map[] && CountFits(numLayers, |layers|)
    requires Interleaving(ms, request, layers, size) && j <= |ms|
    requires (forall x :: x in front ==> Passing(request, x)) && Accepted(request, front) == ms[..j]
    ensures s == Served(numLayers, request, front + [DecodeStart] + rest, decode)
    ensures j == |ms| ==> s.decoded == [Dequantize(layers)] && s.replies == [Answer(decode, Dequantize(layers))]
    ensures j < |ms| ==> s.decoded == [] && s.replies == [Failed]
  {
    AcceptedThenStart(request, front, rest);
    var run := OutputAfter(numLayers, request, layers, size, ms, j);
    AfterStart(run, request, decode);
    s := Concluded(run, request, Start, decode);
  }

  // ---- A sender's session under any layer count ----

  /** What is assembled in the end: the last batch of as many layers as the count says, if there is one. */
  lemma {:induction false} OutputOfBatches(numLayers: int, request: string, order: seq<LayerId>,
                              kv: map<LayerId, Layer>, size: nat)
    requires size > 0 && AllSendable(kv) && Distinct(order) && forall l :: l in order ==> l in kv
    ensures var d := PerBatch(numLayers);
            LastOutput(Run(numLayers, Stream(request, order, kv, size))) ==
            if |order| < d then None else Some(Dequantize(PartOf(kv, LastFull(order, d))))
  {
    DeliveredInBatches(numLayers, request, order, kv, size);
    if |order| >= PerBatch(numLayers) { LastBatch(request, order, PerBatch(numLayers), kv); }
  }

  /**
    The sender's stream, amid foreign chunks and unknown messages, then decode_start, under any layer count: the session
    decodes the last full batch of layers and reports success if that decode succeeds; it fails without a full batch.
   */
  lemma {:induction false} CountedSession<R>(numLayers: int, request: string, order: seq<LayerId>,
                              kv: map<LayerId, Layer>, size: nat, front: seq<Incoming>, rest: seq<Incoming>,
                              decode: map<LayerId, KV> -> Option<R>)
    returns (s: Session<R>)
    requires size > 0 && AllSendable(kv) && Distinct(order) && forall l :: l in order ==> l in kv
    requires forall x :: x in front ==> Passing(request, x)
    requires Accepted(request, front) == Stream(request, order, kv, size)
    ensures s == Served(numLayers, request, front + [DecodeStart] + rest, decode)
    ensures var d := PerBatch(numLayers);
            if |order| < d then s.decoded == [] && s.replies == [Failed]
            else
              var part := Dequantize(PartOf(kv, LastFull(order, d)));
              s.decoded == [part] && s.replies == [Answer(decode, part)]
  {
    AcceptedThenStart(request, front, rest);
    OutputOfBatches(numLayers, request, order, kv, size);
    AfterStart(Run(numLayers, Stream(request, order, kv, size)), request, decode);
    s := Served(numLayers, request, front + [DecodeStart] + rest, decode);
  }

  /** So with too low a count the session decodes fewer layers than were sent, and that may be reported as success. */
  lemma {:induction false} PartDecoded<R>(numLayers: int, request: string, order: seq<LayerId>,
                              kv: map<LayerId, Layer>, size: nat, front: seq<Incoming>, rest: seq<Incoming>,
                              decode: map<LayerId, KV> -> Option<R>)
    returns (s: Session<R>)
    requires size > 0 && AllSendable(kv) && Distinct(order) && forall l :: l in order <==> l in kv
    requires forall x :: x in front ==> Passing(request, x)
    requires Accepted(request, front) == Stream(request, order, kv, size)
    requires |order| >= 2 && numLayers < |order|
    ensures s == Served(numLayers, request, front + [DecodeStart] + rest, decode)
    ensures |s.decoded| == 1 && s.decoded[0].Keys < kv.Keys && s.replies == [Answer(decode, s.decoded[0])]
  {
    s := CountedSession(numLayers, request, order, kv, size, front, rest, decode);
    ProperPart(order, PerBatch(numLayers), kv);
  }

  lemma {:induction false} ProperPart(order: seq<LayerId>, d: nat, kv: map<LayerId, Layer>)
    requires Distinct(order) && (forall l :: l in order <==> l in kv) && 0 < d < |order|
    ensures PartOf(kv, LastFull(order, d)).Keys < kv.Keys
  {
    var part := LastFull(order, d);
    FullStep(|order|, d);
    if Full(|order|, d) < |order| {
      assert order[Full(|order|, d)] in kv.Keys - PartOf(kv, part).Keys;
    } else {
      assert order[0] in kv.Keys - PartOf(kv, part).Keys;
    }
  }
}
