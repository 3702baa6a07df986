# ABKT: a verified model

ABKT moves the KV cache of a language model from a prefill node to a decode node over a network whose
speed varies. It scores layers, gives each group of tokens a precision under a byte budget, quantises,
streams chunks, reassembles and dequantises them, and decodes. This project models that path in Dafny
and proves what it is for: what arrives is what was sent, the budget is kept, the estimates are careful,
and decoding from a cache gives the tokens that decoding without one would.

## Layout

| file | models |
|---|---|
| Chunks.dfy, ChunkedSender.dfy | chunk messages, the sender's nested loop, mid-transfer downgrades |
| ChunkAssembler.dfy, Delivery.dfy | buffers, interval cover, completion; whole runs in any order |
| Framing.dfy, StreamServer.dfy | length-prefixed frames over a fragmented byte stream; a streaming session |
| Rpc.dfy, RpcSystem.dfy | the client's pending calls; request/response correlation between threads and workers over whole runs |
| Precision.dfy, Greedy.dfy, Allocator.dfy, Feasibility.dfy, Quality.dfy, Priority.dfy, Prefill.dfy | the precision allocator, its optimality, feasibility, approximation and priorities, the budget of a turn, dropping layers |
| Rounding.dfy, ScalarQuant.dfy, Quantizer.dfy | quantiser arithmetic |
| Ewma.dfy, NetworkState.dfy, Probe.dfy | feedback control |
| Sampling.dfy, Decode.dfy | token filters and the decode loops |
| Pipeline.dfy | the parts composed, from cache to cache |
| Options.dfy, Layers.dfy, Reals.dfy, Seqs.dfy, Sorting.dfy | shared vocabulary |

Classes and loops follow the classes and loops of the program; each method is proved against a
specification function, and the results are proved about that function over all inputs or all runs.
Automatic induction is switched off in every lemma: each inductive proof is the one that is written down.

## Reading the model

- A tensor is a sequence of token columns, and a column is a sequence of reals. Sizes are counted in
  quarter bytes, so that the four precisions cost 8, 4, 2 and 1 per element. Budgets are reals.
- The cache belongs to one decode node, key 0. Keys of dictionaries are small datatypes.
- Arithmetic is exact. `Round` rounds half to even.
- Clocks, measured times, timing verdicts, importances, serialisation, softmax, the transformer and the
  choice of a token from its logits are parameters, arbitrary unless a lemma says otherwise.
- The sender and the assembler need layers with at least one token. The allocator needs them too: it
  divides by the sequence length.
- `Allocate` and the layer loop take the layers of a cache as a list without repetitions, in dictionary order.

## Where the code differs from what it says

The model follows the code. Each point names the lemmas, or methods, that state it.

- The docstring of nucleus sampling (decode_node.py:63) promises the smallest set with cumulative probability
  at least p; the code stops after the first sum above p. Both agree exactly when no cumulative sum equals p
  (`SmallestAtLeast`).
- The streaming handler's repetition penalty (decode_node.py:440) divides by the whole conditional expression,
  which raises unlikely tokens instead of lowering them (`StreamPenaltyInverts`, `PenaltiesAgree`).
- Asking for one new token after a given first one yields two (`ExactCount`).
- A request without a first token feeds the last prompt token twice (`LastTokenTwice`).
- A mid-transfer downgrade changes the precision map, but the tensors of a node are bound before its loop
  (backend/chunked_transfer.py:92), so nothing that is sent changes (`SendAll`).
- The layer count after dropping subtracts list entries, of which a layer has four
  (prefill_node.py:235, backend/precision_allocator.py:202). Exactly when an entry repeats and more than one layer is
  left, the decode node does not get one complete delivery (`LayerCountExact`, `DropThenTransfer`). Four equal, equally
  important layers under a budget of 5 quarter bytes per element of a layer get there, a budget that does occur
  (`FiveSizesReached`): two layers are sent as -1, the allocation that follows the drop is infeasible although the rest
  fits at INT4, and the decode node decodes the last layer alone and may report success
  (`DropMiscounts`, `ReallocationExact`, `DropThenBroken`; `CountedSession` for any count).
- The tightened compression tiers are never used for a tiered upgrade when the layers 0 to L-1 are all present and
  equally large (`TightenedTierInfeasible`). Otherwise feasibility need not be monotone in the budget
  (`NotMonotoneInGeneral`); `MonotoneExact` says exactly when it is.
- The quality floor of 1.3 times INT4 data and metadata is meant to let the allocator give every layer INT4
  (prefill_node.py:178-183). It is below the allocator's own floor for some caches of 1, 2 or 4 equal layers
  (`HeadroomExact`, `MostCountsCovered`), and then helps no turn: only two seconds of bandwidth make it feasible
  (`TurnExact`). One layer of 100 tokens with 8 heads of dimension 64 needs 51.2 kB/s (`HeadroomFails`).
- The allocator's docstring (backend/precision_allocator.py:13-16) claims a 1/2-approximation of the sum of importance
  times fidelity. That holds because no fidelity is below 0.85 (the docstring says 0.80), whatever the upgrade does
  (`HalfOptimal`). Of the gain above the floors the greedy upgrade can get less than a third (`GainFallsShort`).
- The comment on the divergence check (backend/network_probe.py:232) says that it makes the estimate trust the transfer
  average; taking the minimum would have done the same (`DivergenceIdle`).
- INT4 and INT2 clamp the zero point, so the error bound of half a step needs a range that reaches near zero
  (`AsymErrorExact`).
- The module docstring of backend/ewma.py:10 gives 86e6 for 0.3 * 80 + 0.7 * 100 million; the formula, and the code,
  give 94e6 (`DocumentedExample`).

## Model

| member | source | states |
|---|---|---|
| Sender.AdaptiveChunkSize | backend/chunked_transfer.py:224-228 | a chunk is never shorter than 16 nor longer than 256 tokens |
| Sender.ChunkSizeMonotone | backend/chunked_transfer.py:224-228 | more bandwidth never means smaller chunks; the two ends of the range are reached at 0 and at 100 MB/s |
| Sender.ChunkSizeLinear | backend/chunked_transfer.py:224-228 | between 0 and 100 MB/s the size is 16 plus 240 times the fraction of 100 MB/s, rounded down |
| Sender.LayerOrderComplete | backend/chunked_transfer.py:230-239 | the sending order names every layer exactly once, and no layer scores higher than one before it, a missing score counting as 0.5 |
| Sender.ImportantChunksFirst | backend/chunked_transfer.py:90-94 | over the whole stream no chunk is sent before one of a layer that scores higher |
| Chunks.LayerEnds | backend/chunked_transfer.py:94-125 | the first chunk of a layer starts at token 0 and carries the layer's metadata, all later ones carry none; exactly the final chunk is marked last and ends the layer |
| Chunks.StreamOfLayer | backend/chunked_transfer.py:94-126 | within the whole stream the messages of one layer are that layer's own chunks, in order |
| Sender.ChunkedSender.SendAll | backend/chunked_transfer.py:59-145 | whatever the timing checks decide, what is sent is the chunk stream of the tensors given, what is reported is the running byte total after each chunk, and the precision map is the fold of the downgrades at the check points |
| Sender.ChunkedSender.SendLayers | backend/chunked_transfer.py:84-145 | the loop over layers turns the remaining stream into sent messages, reports and downgrades, layer by layer |
| Sender.ChunkedSender.SendLayer | backend/chunked_transfer.py:95-143 | the chunk loop of one layer extends what was sent by exactly that layer's messages |
| Sender.ChunkedSender.SendChunk | backend/chunked_transfer.py:107-143 | one pass sends one message, reports once, and downgrades only at every second chunk and only when slow |
| Sender.ChunkedSender.CheckAndDowngrade | backend/chunked_transfer.py:151-184 | a slow verdict lowers the map for the remaining layers and requantises the original cache with it; otherwise nothing changes |
| Sender.ChunkedSender.DowngradePrecisionMap | backend/chunked_transfer.py:186-222 | every group of a remaining layer loses one level, all other entries are untouched |
| Sender.ChunkedSender.TotalExpected | backend/chunked_transfer.py:75-82 | the precomputed total is the size of all layers |
| Sender.StreamBytes | backend/chunked_transfer.py:75-107 | the chunks of the stream add up to the precomputed total |
| Sender.TotalByKind | backend/chunked_transfer.py:75-82 | the total is two bytes per element for an FP16 cache and one for a quantised one |
| Sender.ProgressReports | backend/chunked_transfer.py:102-130 | reported bytes strictly increase and end at the precomputed total |
| Sender.LevelExact | backend/chunked_transfer.py:132-143 | after any number of chunks a group's level is its initial level lowered once per downgrade that hit its layer, and never below INT2 |
| Sender.DowngradeReach | backend/chunked_transfer.py:132-145 | at every second chunk, if the transfer is slow, exactly the layer being sent and those after it lose one level; any other chunk changes nothing |
| Sender.AllHit | backend/chunked_transfer.py:132-145 | while a layer is unfinished every downgrade so far has hit it |
| Sender.ThreeDowngrades | backend/chunked_transfer.py:195-212 | after three downgrades every group of every unfinished layer is at INT2 |
| Sender.FinishedFrozen | backend/chunked_transfer.py:136-145 | the entries of a finished layer never change again |
| Assembly.ChunkAssembler.IsComplete | backend/chunked_transfer.py:321-331 | the sweep over chunks sorted by start answers true exactly when every position up to the layer's length and up to the last chunk start is covered |
| Assembly.CompleteMeansCovered | backend/chunked_transfer.py:321-331 | for chunks that start inside the layer, complete means exactly that every token is covered |
| Assembly.ChunkAssembler.AllComplete | backend/chunked_transfer.py:293-297 | true exactly when every buffered layer is complete |
| Assembly.ChunkAssembler.Concatenate | backend/chunked_transfer.py:338-344 | concatenates the parts in the given order |
| Assembly.ChunkAssembler.Assemble | backend/chunked_transfer.py:333-346 | every buffered layer becomes the concatenation of its chunks in start order |
| Assembly.ChunkAssembler.AddChunk | backend/chunked_transfer.py:267-319 | a chunk is stored; exactly if it is marked last, enough layers are present and all of them are complete, the buffer is removed and the dequantised layers are delivered once |
| Assembly.ChunkAssembler.Cancel | backend/chunked_transfer.py:348-351 | drops the buffer of that request and nothing else |
| DeliveryRuns.ReassembledTiles | backend/chunked_transfer.py:333-346 | sorting disjoint covering chunks by start and concatenating them gives back both tensors of the layer |
| DeliveryRuns.GatherLayer | backend/chunked_transfer.py:273-277 | a layer's buffer holds its messages in arrival order; its length and metadata are those of the first arrival |
| DeliveryRuns.NotReadyEarly | backend/chunked_transfer.py:285-297 | as long as one chunk is missing the request is not ready |
| DeliveryRuns.AnyOrder | backend/chunked_transfer.py:271-319 | for every arrival order of a disjoint chunking: no delivery before the last chunk, then exactly one with the original tensors if the last arrival is marked last, none otherwise |
| DeliveryRuns.MetadataExact | backend/chunked_transfer.py:274-276 | what is dequantised carries the sender's metadata exactly when each layer's first arrival does |
| DeliveryRuns.PermutedStream | backend/chunked_transfer.py:113-126 | for every permutation of the sender's messages: one delivery at the end, equal to the layers sent exactly when each layer's first chunk arrived before its others |
| DeliveryRuns.EndToEnd | backend/chunked_transfer.py:90-145 | for every chunk size and every interleaving that keeps each layer's order: one delivery, on the final chunk, of exactly the layers and metadata given to the sender, dequantised; no buffer is left |
| DeliveryRuns.StreamInterleaves | backend/chunked_transfer.py:90-126 | the sender's own stream is such an interleaving |
| DeliveryRuns.CountExact | backend/chunked_transfer.py:288-291 | the stream arrives as one complete delivery if and only if the assembler's layer count equals the number of layers, or one layer is sent and the count is at most 1 |
| DeliveryRuns.FiresEarly | backend/chunked_transfer.py:288-315 | with too low a count the first delivery lacks layers |
| DeliveryRuns.NeverFires | backend/chunked_transfer.py:288-291 | with too high a count nothing is ever delivered |
| DeliveryRuns.DeliveredInBatches | backend/chunked_transfer.py:285-315 | under any layer count d (at least 1) the sender's stream is delivered as one delivery for every d layers, in the sender's order, and left-over layers never are |
| DeliveryRuns.LastBatch | backend/chunked_transfer.py:285-315 | the last of these deliveries holds exactly the last d layers that fill a batch |
| DeliveryRuns.Isolation | backend/chunked_transfer.py:272-277 | what happens to one request depends only on the chunks and cancellations of that request |
| DeliveryRuns.EndToEndAmidOthers | backend/chunked_transfer.py:267-351 | the same on an assembler shared with any other requests: whatever they send, complete and cancel in between, the request's cache is delivered to it exactly once, and never before its own last chunk |
| Framing.UnpackPack | pd_inference/socket_transport.py:47-48 | the four-byte big-endian length is read back unchanged |
| Framing.ByteOrder | pd_inference/socket_transport.py:47 | the header is the length, most significant byte first |
| Framing.PackUnpack | pd_inference/socket_transport.py:93-94 | every four-byte header is the packed form of a length below 2^32 |
| Framing.RoundTrip | pd_inference/socket_transport.py:39-97 | for every list of payloads and whatever follows them, the receiver gets exactly those payloads, in order |
| Framing.Truncated | pd_inference/socket_transport.py:26-36 | a stream cut off anywhere yields a prefix of the payloads, and a proper one unless everything arrived |
| Framing.Socket.RecvInto | pd_inference/socket_transport.py:31-34 | delivers any non-empty piece of what is next, up to the amount asked for, and zero bytes only after the peer closed |
| Framing.RecvExact | pd_inference/socket_transport.py:26-36 | however the stream is cut into pieces: exactly the next n bytes, or a report that the peer closed when fewer are left |
| Framing.RecvObj | pd_inference/socket_transport.py:88-97 | one header and one body: the next payload of the stream, or closed |
| Framing.RecvAll | pd_inference/socket_transport.py:245-254 | the receive loop yields exactly the payloads of the stream |
| Framing.SendObj | pd_inference/socket_transport.py:39-48 | writes one frame; a body of 2^32 bytes or more is refused and writes nothing |
| Framing.SendObjProgress | pd_inference/socket_transport.py:55-85 | writes the same bytes as the plain send, and reports every 64 KB and the total at the end |
| StreamServer.SocketServer.HandleAbktStream | pd_inference/socket_transport.py:227-306 | a context without assembler, event or decode function gets one error and changes nothing else; otherwise replies, decodes and the assembler's final state are those of the specified session |
| StreamServer.SocketServer.ReceiveLoop | pd_inference/socket_transport.py:243-300 | the loop feeds exactly this request's chunks to the assembler, keeps what the callback stored last, and ends as specified |
| StreamServer.SocketServer.Turn | pd_inference/socket_transport.py:247-296 | foreign chunks and unknown messages change nothing; a malformed chunk of this request, decode_start, a lost connection and a stopped server end the loop |
| StreamServer.SocketServer.AddChunk | pd_inference/socket_transport.py:262-278 | a completed assembly replaces what was assembled before |
| StreamServer.RunSound | backend/chunked_transfer.py:285-315 | every delivery of every run is the dequantised reassembly of exactly the chunks that arrived since the previous completion, at a chunk marked last, when these made every layer held complete and enough layers were held |
| StreamServer.RunExact | backend/chunked_transfer.py:267-319 | after any chunks of one request the assembler holds exactly those since the last completion, and the last chunk delivers exactly if it completes them |
| StreamServer.WholeLayers | backend/chunked_transfer.py:273-297 | in a completed cache every layer has all tokens that its first chunk announced, and that chunk's metadata |
| StreamServer.SessionSafe | pd_inference/socket_transport.py:239-306 | for every message sequence: at most one decode and one reply, a decode only on a cache reassembled from exactly the accepted chunks between two completions, success reported only for a decode, nothing left in the assembler |
| StreamServer.SessionEnds | pd_inference/socket_transport.py:243-306 | what ends the session decides: a lost connection, a shutdown or no end decodes and replies nothing, a malformed own chunk replies one failure and decodes nothing, decode_start replies once and decodes what was assembled last, if anything |
| StreamServer.DecodesOnlyOnStart | pd_inference/socket_transport.py:280-292 | a decode or a reported success needs a decode_start with nothing before it that ends the session |
| StreamServer.OutputAfter | pd_inference/socket_transport.py:280-284 | something is assembled after the last chunk of an interleaving and nothing before |
| StreamServer.SenderSession | decode_node.py:346-357 | amid foreign and unknown messages, the session decodes the sender's dequantised layers and answers with the result exactly when all chunks preceded decode_start; otherwise it decodes nothing and reports a failure |
| StreamServer.CountedSession | pd_inference/socket_transport.py:280-292 | under any layer count d and amid foreign messages, a session with the sender's whole stream decodes exactly the last full batch of d layers and answers with that decode's result; without a full batch it fails |
| StreamServer.PartDecoded | pd_inference/socket_transport.py:280-292 | a count below the number of layers makes the session decode some but not all of the layers sent, once, and answer with the result |
| Pipeline.WireRoundTrip | pd_inference/socket_transport.py:39-97 | messages serialised, framed and read back are the messages sent |
| Pipeline.LayersTransfer | backend/chunked_transfer.py:59-145 | any layers, chunked and framed, are decoded once, dequantised, and answered once |
| Pipeline.TransferRecovers | prefill_node.py:262-330 | quantise, stream, frame, reassemble, dequantise: one decode, on a cache whose every layer recovers the original at its own precision (exactly for FP16, within half a scale otherwise) |
| Pipeline.SenderStream | backend/chunked_transfer.py:69-70 | the above applies to the sender's order and chunk size for any importances and bandwidth |
| Pipeline.DropThenTransfer | prefill_node.py:219-238 | whatever entries were dropped, the announced count makes the transfer arrive as one complete delivery if and only if no layer is repeated among them, or a single layer is left |
| Pipeline.DropThenBroken | prefill_node.py:219-238 | the drop loop reaches the other case: of four equal layers two are left under a count of -1, they do not arrive as one complete delivery, and the session decodes the layer sent last, alone, and answers with the result |
| Rpc.RPCClient.AllocId | pd_inference/rpc.py:135-139 | returns the counter and advances it |
| Rpc.RPCClient.RegisterCall | pd_inference/rpc.py:181-182 | enters the call in the pending table |
| Rpc.RPCClient.ForgetCall | pd_inference/rpc.py:188-195 | removes the id from the pending table |
| Rpc.RPCClient.TakeCall | pd_inference/rpc.py:156-160 | removes and returns the call with the response's id, if there is one |
| Rpc.RPCClient.DeliverResponse | pd_inference/rpc.py:152-162 | the matching call gets the response and leaves the table; every other call keeps its own; an unmatched response changes nothing |
| RpcSystem.NextInv | pd_inference/rpc.py:135-263 | every atomic step of callers, receivers and workers keeps the correlation invariant |
| RpcSystem.OwnAnswer | pd_inference/rpc.py:164-203 | in every run, a call that returns a result or raises a worker's error got the answer recorded under its own id: given by its own destination to its own request, whatever handlers answer |
| RpcSystem.AnswerWasServed | pd_inference/rpc.py:234-263 | a recorded answer was given in one step of its worker, to the request at the head of its queue with that id |
| RpcSystem.ServedOnce | pd_inference/rpc.py:234-263 | no request is answered twice |
| RpcSystem.IdsNeverReused | pd_inference/rpc.py:135-139 | two calls of a run never share an id |
| RpcSystem.HandOverOnce | pd_inference/rpc.py:159-162 | a reply is set on the call whose id it carries, and on a call that has none yet |
| RpcSystem.OneCallPerReply | pd_inference/rpc.py:152-162 | each reply reaches at most one call: no two steps of a run hand over replies with the same id |
| RpcSystem.AnsweredOnce | pd_inference/rpc.py:152-162 | a call that was answered keeps that answer for the rest of the run |
| RpcSystem.FinishedLeavesTable | pd_inference/rpc.py:184-196 | in every run a finished call, however it ended, is not in the pending table |
| RpcSystem.UnknownNeverReturns | pd_inference/rpc.py:238-251 | in every run a call of an operation its worker does not know never returns a result, and the error it raises names the operation |
| RpcSystem.NothingAfterShutdown | pd_inference/rpc.py:238-240 | a worker that answered a shutdown request answers nothing any more |
| PrecisionLevels.GroupsTile | backend/precision_allocator.py:123-127 | the four groups are consecutive, cover the layer and differ by at most one token |
| PrecisionLevels.TokenInOneGroup | backend/precision_allocator.py:124-126 | every token lies in exactly one group |
| Allocator.MeasureAllTotal | backend/precision_allocator.py:112-132 | the element counts of all groups add up to the elements of all tensors |
| Allocator.TotalBytes | backend/precision_allocator.py:352-365 | the bytes of the whole cache at one precision |
| Allocator.MetadataBytes | backend/precision_allocator.py:367-402 | the loop over layers and groups gives nothing at FP16, eight bytes a layer at INT8, and the scales and zero points of all groups at INT4 and INT2 |
| Allocator.MinFloor | backend/precision_allocator.py:139-155 | the running floor is the data size with every layer at its minimum precision |
| Allocator.FloorAt | backend/precision_allocator.py:404-447 | all four groups of a layer have the layer's minimum precision as floor |
| Allocator.BuildEntries | backend/precision_allocator.py:111-132 | one entry per layer and group, with its mean importance and element count |
| Allocator.UpgradeOne | backend/precision_allocator.py:287-299 | one group rises while the next level fits; the running bytes stay the weight of the assignment |
| Allocator.UpgradeInOrder | backend/precision_allocator.py:286-299 | the greedy loop ends in the lexicographic maximum over all assignments above the floors that fit, and the running byte count is that assignment's weight |
| Allocator.Upgrade | backend/precision_allocator.py:261-333 | from the floors to a precision map: lexicographically greatest in the processing order, with the byte count equal to the map's data bytes |
| Allocator.MetaOverhead | backend/precision_allocator.py:335-345 | metadata bytes are those of the groups at INT4 and INT2 |
| Allocator.Allocate | backend/precision_allocator.py:79-350 | all four outcomes: FP16 everywhere when it fits; the greedy optimum above the floors; the greedy optimum above INT2; INT2 everywhere |
| Allocator.DataBound | backend/precision_allocator.py:157-299 | in all four outcomes the data bytes are at most the larger of budget plus a millionth of a byte and the all-INT2 size |
| Allocator.TieredCompression | backend/precision_allocator.py:335-348 | above the floors the reported compression is the FP16 size over data and metadata |
| Allocator.BelowCompression | backend/precision_allocator.py:199-258 | below them it is the FP16 size over the data alone, unless not even INT2 fits |
| Allocator.FloorsKept | backend/precision_allocator.py:260-274 | a feasible result keeps every group at or above its layer's minimum precision |
| Priority.ImportantNoLower | backend/precision_allocator.py:157-202 | below the floors a more important group that is no larger ends no lower |
| Priority.NeedyNoLower | backend/precision_allocator.py:276-299 | above the floors a group whose importance times what its floor lacks of full quality is larger, and whose floor is no lower and size no larger, ends no lower |
| Priority.LeastImportantDroppedFirst | backend/precision_allocator.py:202 | the suggested list names the layers of all groups, in order of rising importance |
| Priority.LessImportantLayerFirst | backend/precision_allocator.py:202 | a layer all of whose groups are less important than all of another's is named before it, every time |
| Priority.KeptNotBelowLost | prefill_node.py:219-238 | whatever the drop loop removes, no layer kept is in that sense less important than a layer lost |
| Feasibility.FeasibleFlag | backend/precision_allocator.py:157-202 | the allocator's flag is the feasibility that the lemmas speak of |
| Greedy.StuckIsLexMax | backend/precision_allocator.py:286-299 | an assignment in which no group could rise when its turn came is the lexicographic maximum |
| Greedy.LexMaxUnique | backend/precision_allocator.py:286-299 | there is only one such maximum |
| Greedy.NoGroupCanRise | backend/precision_allocator.py:291-299 | at the end no single group can be raised one level within the budget |
| Greedy.EarlierNoLower | backend/precision_allocator.py:286-299 | an earlier group ends no lower than a later one whose floor is no higher and whose size is no smaller |
| Feasibility.FeasibilityThreshold | backend/precision_allocator.py:136-158 | for equal layers and any non-negative budget: feasible if and only if the budget covers the one-third-split floor |
| Feasibility.FeasibilityMonotone | backend/precision_allocator.py:136-158 | for equal layers a larger budget never loses feasibility |
| Feasibility.TightenedTierInfeasible | backend/precision_allocator.py:432-437 | for equal layers a compression above 4 always means infeasible, so the tightened tiers never reach the tiered upgrade |
| Feasibility.FeasibleExact | backend/precision_allocator.py:136-158 | for any layers and any non-negative budget: feasible if and only if the budget covers the floor of the tier that it selects, which is never the tightest |
| Feasibility.MonotoneExact | backend/precision_allocator.py:136-158 | for any layers: raising the budget never loses feasibility if and only if there are at most two elements, or the quarter-split floor is at least, or the third-split floor at most, the INT4 size |
| Feasibility.NotMonotoneInGeneral | backend/precision_allocator.py:432-447 | feasibility can be lost by raising the budget: two equal layers of a four-layer model whose other layers are not in the cache, with both budgets |
| Quality.HalfOptimal | backend/precision_allocator.py:13-16 | with scores that are not negative, the result's sum of importance times fidelity is at least half, and in fact 85%, of that of every other assignment, in all four outcomes |
| Quality.GainFallsShort | backend/precision_allocator.py:276-299 | the gain above the floors can be less than half of what fits: three equal layers of equally important groups, where the greedy upgrade gains 0.15 per unit of importance and a cheaper assignment 0.56 |
| Quality.ThreeLayersOfFour | backend/precision_allocator.py:112-132 | three layers of four tokens are such a cache |
| Prefill.HeadroomExact | prefill_node.py:178-188 | for equal layers the quality floor, 1.3 times INT4 data and metadata, is a feasible budget if and only if it reaches the one-third-split floor |
| Prefill.TurnBudget | prefill_node.py:168-195 | the budget of a turn is the snapshot's, raised to the quality floor of the measured sizes and capped at sixty seconds of bandwidth |
| Prefill.ClampExact | prefill_node.py:178-195 | for equal layers the clamped budget is feasible if and only if sixty seconds of bandwidth cover the one-third-split floor, and so does the snapshot's budget or the quality floor |
| Prefill.TurnExact | prefill_node.py:174-202 | for equal layers and a snapshot's own budget, the allocator's flag is true if and only if two seconds of bandwidth cover the one-third-split floor, or sixty do and the quality floor reaches it |
| Prefill.TurnFitsSlowestSample | prefill_node.py:174-195 | after any run of measurements the turn's budget is sent in at most 48 seconds at the slowest of the last ten accepted measurements |
| Prefill.OnlyCapInfeasible | prefill_node.py:183-195 | for every number of equal layers whose quality floor reaches the one-third-split floor, only the sixty-second cap can make a turn infeasible |
| Prefill.MostCountsCovered | prefill_node.py:178-188 | the quality floor reaches the one-third-split floor of any number of equal layers but 1, 2 and 4, whatever the metadata |
| Prefill.HeadroomFails | prefill_node.py:178-188 | for one layer of 100 tokens with 8 heads of dimension 64 a turn is feasible if and only if the estimate is at least 51200 bytes per second; at 25000 the budget is the quality floor, and infeasible |
| Prefill.DropLayers | prefill_node.py:219-246 | drops the shortest non-empty prefix of the suggested order after which the rest fits at INT4, from cache and importances alike; falls through only if no prefix fits |
| Prefill.AllocateOrDrop | prefill_node.py:200-246 | allocate, and if that is infeasible drop the shortest fitting prefix and allocate again for what is left; for a non-negative budget some prefix fits |
| Prefill.DropAndReallocate | prefill_node.py:214-246 | the drop loop with its second allocation, for the layers, importances and announced count left; nothing changes if no prefix fits |
| Prefill.DropSucceeds | prefill_node.py:240-246 | after an infeasible allocation with a non-negative budget some prefix fits, so the fallback is unreachable |
| Prefill.DroppedNamesAll | backend/precision_allocator.py:202 | the suggested order names exactly the layers of the cache |
| Prefill.SameKeys | prefill_node.py:231-234 | cache and importance map keep the same layers |
| Prefill.LayerCountExact | prefill_node.py:235 | the decremented layer count is never too high and right if and only if no layer occurs twice in the prefix |
| Prefill.ReallocationExact | prefill_node.py:235-238 | for layers that fit at INT4 the second allocation is feasible if and only if the budget covers the third-split floor for the announced count, which is INT8 everywhere when that count is 0 or less |
| Prefill.DropMiscounts | prefill_node.py:219-238 | four equal, equally important layers and a budget of five quarter bytes per element of a layer: five entries are dropped for two layers, -1 is announced, and the second allocation is infeasible although INT4 fits |
| Prefill.FiveSizesReached | prefill_node.py:190-195 | a turn hands the allocator that budget: it is the sixty-second cap at a 48th of the layer size per second |
| ScalarQuant.SymError | backend/adaptive_quant.py:205-210 | an INT8 code lies in -127..127 and decodes to within half the scale |
| ScalarQuant.AsymExact | backend/adaptive_quant.py:236-240 | both ends of a range decode to within half the scale if and only if the range reaches at most n + 1/2 steps from zero |
| ScalarQuant.AsymAbsolute | backend/adaptive_quant.py:236-240 | without naming the scale: both ends come back to within a 2n-th of the range if and only if neither is more than 2n + 1 times as far from zero, on the same side, as the other |
| Rounding.HalvesToEven | backend/adaptive_quant.py:209 | halves are rounded to the even neighbour |
| Quantizer.ScalesMeaning | backend/adaptive_quant.py:202-240 | the range of a slice is exactly 15 of its steps at INT4 and 3 at INT2, and the largest magnitude is 127 steps at INT8; tiny ranges get a step of 1e-10, a tiny tensor a step of 1 |
| Quantizer.Int8Error | backend/adaptive_quant.py:202-248 | every INT8 element of every tensor comes back to within half the scale, and to within a 254th of the largest magnitude, from a code in -127..127 |
| Quantizer.Int8Idempotent | backend/adaptive_quant.py:202-248 | quantising a dequantised INT8 tensor reproduces its scale and all codes |
| Quantizer.AsymErrorExact | backend/adaptive_quant.py:224-248 | all elements of a slice come back to within a 30th (INT4) or a 6th (INT2) of the slice's range if and only if neither end is more than 31 (7) times as far from zero, on the same side, as the other; every range containing zero qualifies |
| Quantizer.MostCommon | backend/adaptive_quant.py:72-75 | the layer's precision occurs among its groups at least as often as any other, and any precision met before it occurs less often |
| Quantizer.CacheRecovers | backend/adaptive_quant.py:31-118 | quantise then dequantise: the same layers, each recovered at its own precision, exactly at FP16 and to within those fractions otherwise; a layer without an entry in the map comes back exactly |
| Quantizer.WithoutMetadata | backend/adaptive_quant.py:101-110 | without metadata the dequantiser takes codes for values |
| NetworkState.Classify | backend/state_machine.py:70-82 | POOR exactly for low bandwidth, GOOD exactly for high bandwidth with low round-trip time |
| NetworkState.NetworkStateMachine.Update | backend/state_machine.py:53-68 | the state is the one that voting on the full history of classifications gives |
| NetworkState.NetworkStateMachine.ResolveState | backend/state_machine.py:84-107 | the transition is the specified one on the full history, though only the ring is consulted |
| NetworkState.NetworkStateMachine.CountInWindow | backend/state_machine.py:109-112 | the multiplicity of the state among the last samples of the whole history, although only five are kept |
| NetworkState.NetworkStateMachine.BudgetBytes | backend/state_machine.py:128-139 | zero for a non-positive bandwidth, otherwise the smaller of two seconds of bandwidth and the data size, if one is given |
| NetworkState.RingVotes | backend/state_machine.py:51 | voting on the five-slot ring equals voting on the full history |
| NetworkState.UpgradeAfterQuiet | backend/state_machine.py:98-105 | every upgrade comes at least three samples after the previous state change |
| NetworkState.FewUpgrades | backend/state_machine.py:102-105 | n samples cause at most n/3 upgrades |
| NetworkState.FewDowngrades | backend/state_machine.py:98-101 | downgrades number at most two plus twice the upgrades |
| NetworkState.FourForce | backend/state_machine.py:84-107 | four equal classifications in a row force that state |
| NetworkState.DropExact | backend/state_machine.py:98-101 | a worse sample is followed if and only if one of the two samples before it says the same |
| NetworkState.RiseExact | backend/state_machine.py:102-105 | a better sample is followed if and only if no two of the four samples before it say otherwise |
| Ewma.EWMA.Update | backend/ewma.py:33-42 | seeds with the first sample, then blends |
| Ewma.EWMA.UpdateClamped | backend/ewma.py:44-60 | seeds with the first sample, then takes a capped step |
| Ewma.DocumentedExample | backend/ewma.py:1-13 | the documented example comes out at 94 million, not at the announced 86 |
| Ewma.CappedMeaning | backend/ewma.py:53-60 | a capped step is the blend, cut off at the cap above and below the old value |
| Ewma.CappedStep | backend/ewma.py:44-60 | for positive values a step moves by at most the cap, toward the sample, never past it, and stays positive |
| Ewma.RunWithinRange | backend/ewma.py:44-60 | over a run of positive samples the value stays between any lower and upper bound of the samples |
| Ewma.RunStepBound | backend/ewma.py:44-60 | consecutive values of a run differ by at most the cap |
| Ewma.RunMonotone | backend/ewma.py:44-60 | a pointwise larger sample stream gives pointwise larger values |
| NetworkProbe.NetworkProbeClient.GetEffectiveBw | backend/network_probe.py:203-252 | computes the specified estimate from window, transfer average, counters and time |
| NetworkProbe.NetworkProbeClient.CrossCheck | backend/network_probe.py:229-235 | the comparison by quotient picks the specified base |
| NetworkProbe.NetworkProbeClient.SafetyMargin | backend/network_probe.py:239-251 | the margin from counters and idle time |
| NetworkProbe.NetworkProbeClient.GetSnapshot | backend/network_probe.py:262-279 | estimate, round-trip time, state of the vote history, and two seconds of the estimate as budget |
| NetworkProbe.NetworkProbeClient.RecordTransfer | backend/network_probe.py:290-308 | a transfer that is large and long enough enters window and average; any other changes nothing |
| NetworkProbe.NetworkProbeClient.CalibrateWithTransfer | backend/network_probe.py:281-288 | a calibration that is large enough enters the window only |
| NetworkProbe.NetworkProbeClient.ProbeBandwidth | backend/network_probe.py:388-410 | a timed probe enters the window, counts, and lets the state machine vote on the new median |
| NetworkProbe.NetworkProbeClient.ProbeRtt | backend/network_probe.py:367-383 | a round-trip probe enters its average and lets the state machine vote |
| NetworkProbe.NetworkProbeClient.GetBwForStateMachine | backend/network_probe.py:254-260 | a measured value with at most half of the window strictly below it and less than half strictly above it, or the cold-start value for an empty window |
| NetworkProbe.MedianHalves | backend/network_probe.py:258-259 | the value in the middle of the sorted window is such a median of the window itself |
| NetworkProbe.DivergenceIdle | backend/network_probe.py:229-235 | the divergence branch never changes the base: it is always the smaller of window minimum and transfer average |
| NetworkProbe.MarginInRange | backend/network_probe.py:239-251 | the margin lies between 0.7 and 0.8 for any counters and any idle time |
| NetworkProbe.MarginEnds | backend/network_probe.py:237-251 | the margin is 0.7 without knowledge and after seven idle minutes, and 0.8 with five transfers or fifteen probes and at most two idle minutes |
| NetworkProbe.MarginRamp | backend/network_probe.py:237-251 | in between it is linear: 0.02 per transfer or three probes, whichever gives more, eroding evenly from the second to the seventh idle minute |
| NetworkProbe.EstimateRises | backend/network_probe.py:237-252 | more transfers and probes and less idle time never lower the estimate from the same measurements |
| NetworkProbe.BeforeTransfers | backend/network_probe.py:219-226 | before any transfer the estimate is 70% of the lowest measurement, or 10.5 MB/s without any |
| NetworkProbe.MeasuredExact | backend/network_probe.py:281-302 | what counts as a measurement, and of what rate |
| NetworkProbe.AverageStep | backend/network_probe.py:303-305 | a recorded transfer moves the average halfway to its own rate, but by no more than a fifth |
| NetworkProbe.ProbeVotes | backend/network_probe.py:394-406 | a timed probe counts, and the state machine votes on a median of the measurements with its own among them |
| NetworkProbe.RttStep | backend/network_probe.py:374-383 | a round trip enters its average as one half, and the state machine votes on the new average |
| NetworkProbe.RunContents | backend/network_probe.py:281-308 | after any run the window is the last ten accepted measurements and the average is the capped average of every recorded transfer |
| NetworkProbe.RunKnowledge | backend/network_probe.py:281-308 | after any run the probe count is that of the timed probes and the idle time starts at the last recorded transfer |
| NetworkProbe.EstimateAfterTransfer | backend/network_probe.py:228-252 | once a transfer is recorded the estimate is between 0.7 and 0.8 times the smaller of window minimum and transfer average |
| NetworkProbe.EstimateIsConservative | backend/network_probe.py:203-252 | with or without a transfer the estimate is at most 80% of each of the last ten measurements |
| NetworkProbe.BudgetFitsSlowestSample | backend/network_probe.py:268-270 | the snapshot's budget takes at most 1.6 seconds at the slowest of the last ten accepted measurements, where a transfer counts with its uncompressed size |
| NetworkProbe.FewUpgradesPerRun | backend/network_probe.py:378-410 | n probes, transfers and calibrations in any order cause at most n/3 upgrades of the network state |
| Sampling.TopK | decode_node.py:74-78 | a logit is masked exactly when k or more logits are strictly larger; k <= 0 masks nothing |
| Sampling.TopP | decode_node.py:82-90 | keeps exactly the tokens up to and including the first whose cumulative probability exceeds p, zeroes the others; p of 1 or more changes nothing |
| Sampling.FirstExceed | decode_node.py:84-88 | finds the first place whose cumulative probability exceeds p |
| Sampling.Scatter | decode_node.py:89-90 | sorted probabilities go back to their own tokens |
| Sampling.HeaviestOfSize | decode_node.py:80-90 | among all sets of m tokens the m most likely ones weigh most |
| Sampling.NucleusMinimal | decode_node.py:80-90 | the kept tokens weigh more than p, include a most likely token, and no smaller set weighs more than p |
| Sampling.SmallestAtLeast | decode_node.py:63-90 | the kept set is a smallest one of mass at least p if and only if no cumulative sum equals p |
| Sampling.OrderOfDescends | decode_node.py:83 | a stable descending sort is one of the orders all this holds for |
| Decoding.RunDecode | decode_node.py:206-309 | all tokens and the cache are those of unfolding with this handler's penalty, for any first token, count and penalty |
| Decoding.RunDecodeFromStream | decode_node.py:388-443 | the same for the streaming handler with its own penalty |
| Decoding.OneStep | decode_node.py:270-309 | one step extends tokens and cache by one step of the unfolding |
| Decoding.ApplyPenalty | decode_node.py:293-300 | one penalty per occurrence of each token, in order |
| Decoding.OncePerOccurrence | decode_node.py:293-300 | a token is penalised once for each of its occurrences among the new tokens, and no other token is |
| Decoding.PlainStart | decode_node.py:206-300 | the plain handler makes its first choice without penalties, or its first two after a given first token |
| Decoding.PlainLater | decode_node.py:281-300 | every later choice is made with all new tokens penalised |
| Decoding.StreamStart | decode_node.py:388-443 | the streaming handler makes only its first choice without penalties |
| Decoding.StreamLater | decode_node.py:428-443 | every later choice of the streaming handler is made with all new tokens penalised in its own way |
| Decoding.UnfoldFromPrompt | decode_node.py:281-291 | unfolding from the prompt's cache is unfolding the whole text from nothing |
| Decoding.CachedDecodingIsUnfolding | decode_node.py:206-309 | with a first token, no penalty and at least two tokens asked for: the output is the plain unfolding, has exactly the number of new tokens asked for, and the cache holds all tokens but the last |
| Decoding.HandlersAgree | decode_node.py:388-443 | without a penalty both handlers give the same tokens and the same cache |
| Decoding.ExactCount | decode_node.py:208-266 | the number of new tokens is the requested one if and only if at least two were requested (with a first token), or none fewer than zero (without); one gives two, less gives one |
| Decoding.LastTokenTwice | decode_node.py:213-215 | without a first token the text is continued as if its last token were written twice |
| Decoding.PenaltyLowers | decode_node.py:293-300 | the plain handler divides positive logits by the penalty and multiplies the others, which for a penalty above 1 lowers every logit but zero and keeps positive ones positive |
| Decoding.StreamPenaltyInverts | decode_node.py:437-440 | for every penalty but zero the streaming handler turns every negative logit into the same number, the reciprocal of the penalty: a positive one for a positive penalty |
| Decoding.PenaltiesAgree | decode_node.py:437-440 | whatever the penalty, the two penalties agree on a logit if and only if it is positive |
| Sorting.SortSorted | backend/chunked_transfer.py:325 | sorting by a key gives an ascending list |
| Sorting.SortStable | backend/precision_allocator.py:286 | elements with equal keys keep their order |

## Left out

- More than one decode node: chunk messages carry no node id, so two nodes would share buffers on the decode side.
- Layers without tensors (`None` entries), which every loop skips.
- Duplicate or overlapping chunks are covered by the completeness test and by `AddChunk`, but no tensor is promised for them: concatenation does not trim.
- Floating point and half-precision rounding, infinities, and NaN outside the repetition penalties; a division by zero in a penalty counts as NaN.
- How group means of importances are computed: they are given numbers. For an empty group, in layers with fewer than four tokens, the code's mean is NaN and the order of its entries undefined.
- `avg_precision_bits`, the uniform and random baseline allocators, and custom `precision_levels`: easy, or not used on this path.
- The INT4 branch of the per-tensor quantiser, per-token precision maps and `_dequantize_per_group`: the current quantiser never produces them.
- Exceptions inside dequantisation and inside the completion callback, which the assembler logs and swallows.
- Sockets, threads, locks and events as such: a method that holds a lock is one step, a socket is its bytes, an event is whether it was set. Failing sends of the stream server.
- The window and average of the estimator are updated under one lock; the probe threads are the order of events in a run.
- Probe connections, pauses and intervals (backend/network_probe.py:327-365); progress bars, printing, command lines.
- Token importance scoring, the transformer, the tokenizer, `torch.save` and `torch.load`, the conversions of the KV dictionary.
- The two-step handshake and the legacy FP16 path of decode_node.py:176-193 and prefill_node.py:276-308.
- Temperature and softmax before the filters and the random draw after them (decode_node.py:69-72, 80-81, 92-96).
- The text that replaces an empty error message of a worker (pd_inference/rpc.py:203).
- Mock network, network tools, benchmarks and plots.
- An attached but empty metadata dictionary and a missing one are the same, as they are for the dequantiser.
- Quantizer.Restore: total; a shape mismatch between codes and scales, an exception in the code, reads scale 1 and zero point 0.
- Sender.ChunkedSender.SendAll: the requantised tensors a downgrade computes are not part of the state, because they are never sent.
- Framing.RecvObj: says what remains on the stream only when a payload was complete; after a close there is nothing to read.
- NetworkProbe.EstimateAfterTransfer: gives the margin as bounds on the estimate for positive measurements, not as a factor.
- Decoding.CachedDecodingIsUnfolding: says nothing about a positive repetition penalty other than 1, for which RunDecode and RunDecodeFromStream give the exact tokens.
