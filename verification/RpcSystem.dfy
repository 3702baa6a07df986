/** The whole system: calls, message queues and receiver threads around the shared client state. */
module RpcSystem {
  import opened Options
  import opened Rpc

  datatype Outcome = Returned(result: string) | Raised(error: string) | SendFailed | TimedOut

  /** Where a caller thread is inside `call`. */
  datatype Phase = Allocated | Waiting | GivingUp | Finished(outcome: Outcome)

  datatype Call = Call(id: ReqId, dst: Rank, request: Request, phase: Phase, registered: bool,
                       response: Option<Response>)

  datatype Held = Held(caller: CallId, response: Response)

  /** A worker's answer to one request. */
  datatype Served = Served(worker: Rank, request: Request, reply: Reply)

  /**
    `held[r]`: the receiver thread of worker r has taken a call out of the table but not yet handed over the reply.
    `answers` records, for each request id, what was answered.
   */
  datatype State = State(core: Core, calls: map<CallId, Call>, toServer: map<Rank, seq<Packet>>,
                         toClient: map<Rank, seq<Response>>, held: map<Rank, Held>, stopped: set<Rank>,
                         answers: map<ReqId, Served>)

  const INITIAL := State(Core(1, map[]), map[], map[], map[], map[], {}, map[])

  datatype Action =
    | StartCall(c: CallId, dst: Rank, request: Request)   // allocate an id
    | RegisterCall(c: CallId)                             // enter the pending table
    | SendRequest(c: CallId)                              // the request is on the wire
    | FailSend(c: CallId, leaked: bool)                   // send raised, perhaps after the request got out
    | Serve(r: Rank, handled: Reply)                      // a worker answers its oldest request
    | Take(r: Rank)                                       // a receiver removes the matching call from the table
    | HandOver(r: Rank)                                   // and sets its response
    | WakeUp(c: CallId)                                   // wait returns a response
    | GiveUp(c: CallId)                                   // wait timed out with none
    | RemoveAfterTimeout(c: CallId)

  function Queue<T>(m: map<Rank, seq<T>>, r: Rank): seq<T> {
    if r in m then m[r] else []
  }

  function Update(s: State, c: CallId, call: Call): State {
    s.(calls := s.calls[c := call])
  }

  /** The action can happen now. */
  predicate Enabled(s: State, a: Action) {
    match a
    case StartCall(c, _, _) => c !in s.calls
    case RegisterCall(c) => c in s.calls && s.calls[c].phase.Allocated? && !s.calls[c].registered
    case SendRequest(c) => c in s.calls && s.calls[c].phase.Allocated? && s.calls[c].registered
    case FailSend(c, _) => c in s.calls && s.calls[c].phase.Allocated? && s.calls[c].registered
    case Serve(r, _) => Queue(s.toServer, r) != [] && r !in s.stopped
    case Take(r) => Queue(s.toClient, r) != [] && r !in s.held
    case HandOver(r) => r in s.held && s.held[r].caller in s.calls
    case WakeUp(c) => c in s.calls && s.calls[c].phase.Waiting? && s.calls[c].response.Some?
    case GiveUp(c) => c in s.calls && s.calls[c].phase.Waiting? && s.calls[c].response.None?
    case RemoveAfterTimeout(c) => c in s.calls && s.calls[c].phase.GivingUp?
  }

  function Enqueue(s: State, c: CallId): State
    requires c in s.calls
  {
    var call := s.calls[c];
    s.(toServer := s.toServer[call.dst := Queue(s.toServer, call.dst) + [Packet(call.id, call.request)]])
  }

  /** The call leaves the table and its caller gets an exception. */
  function Ended(s: State, c: CallId, outcome: Outcome): State
    requires c in s.calls
  {
    Update(s.(core := Forget(s.core, s.calls[c].id)), c, s.calls[c].(phase := Finished(outcome)))
  }

  /** Receiver r takes call c out of the table, holding the response meant for it. */
  function Taken(s: State, r: Rank, c: CallId, response: Response): State
    requires c in s.calls
  {
    s.(core := Forget(s.core, s.calls[c].id), held := s.held[r := Held(c, response)])
  }

  function Conclude(reply: Reply): Outcome {
    match reply
    case Ok(v) => Returned(v)
    case Error(e) => Raised(e)
  }

  function Next(s: State, ops: map<Rank, Operations>, a: Action): State
    requires Enabled(s, a)
  {
    match a
    case StartCall(c, dst, request) =>
      var (core, id) := Alloc(s.core);
      Update(s.(core := core), c, Call(id, dst, request, Allocated, false, None))
    case RegisterCall(c) =>
      Update(s.(core := Register(s.core, s.calls[c].id, c)), c, s.calls[c].(registered := true))
    case SendRequest(c) =>
      Update(Enqueue(s, c), c, s.calls[c].(phase := Waiting))
    case FailSend(c, leaked) =>
      Ended(if leaked then Enqueue(s, c) else s, c, SendFailed)
    case Serve(r, handled) =>
      var packet := Queue(s.toServer, r)[0];
      var reply := Answer(OperationsOf(ops, r), packet.request, handled);
      s.(toServer := s.toServer[r := Queue(s.toServer, r)[1..]],
         toClient := s.toClient[r := Queue(s.toClient, r) + [Response(Some(packet.id), reply)]],
         answers := s.answers[packet.id := Served(r, packet.request, reply)],
         stopped := if packet.request.op == "shutdown" then s.stopped + {r} else s.stopped)
    case Take(r) =>
      var response := Queue(s.toClient, r)[0];
      var s' := s.(toClient := s.toClient[r := Queue(s.toClient, r)[1..]]);
      (match Match(s.core, response)
       case None => s'
       case Some(c) => s'.(core := Forget(s.core, response.id.value), held := s.held[r := Held(c, response)]))
    case HandOver(r) =>
      var h := s.held[r];
      Update(s.(held := s.held - {r}), h.caller, s.calls[h.caller].(response := Some(h.response)))
    case WakeUp(c) =>
      Update(s, c, s.calls[c].(phase := Finished(Conclude(s.calls[c].response.value.reply))))
    case GiveUp(c) =>
      Update(s, c, s.calls[c].(phase := GivingUp))
    case RemoveAfterTimeout(c) =>
      Ended(s, c, TimedOut)
  }

  function OperationsOf(ops: map<Rank, Operations>, r: Rank): Operations {
    if r in ops then ops[r] else {}
  }

  // ---- The invariant ----

  /** Ids are below the counter and belong to one call each. */
  ghost predicate UniqueIds(s: State) {
    && (forall c :: c in s.calls ==> s.calls[c].id.n < s.core.nextId)
    && (forall c, d :: c in s.calls && d in s.calls && s.calls[c].id == s.calls[d].id ==> c == d)
  }

  /** A table entry leads to the unanswered call that owns the id. */
  ghost predicate TableSound(s: State) {
    forall id :: id in s.core.pending ==>
      var c := s.core.pending[id];
      && c in s.calls && s.calls[c].id == id && s.calls[c].registered
      && s.calls[c].response == None && forall r :: r in s.held ==> s.held[r].caller != c
  }

  ghost predicate Owned(s: State, c: CallId, id: ReqId, r: Rank) {
    c in s.calls && s.calls[c].id == id && s.calls[c].dst == r
  }

  ghost predicate RequestSound(s: State, r: Rank, p: Packet) {
    exists c :: Owned(s, c, p.id, r) && s.calls[c].request == p.request
  }

  /** Requests under way are requests of calls to that worker. */
  ghost predicate RequestsSound(s: State) {
    forall r, p :: r in s.toServer && p in s.toServer[r] ==> RequestSound(s, r, p)
  }

  /** A recorded answer is some worker's answer to the request of the call that owns the id. */
  ghost predicate AnswerSound(s: State, ops: map<Rank, Operations>, id: ReqId)
    requires id in s.answers
  {
    var a := s.answers[id];
    RequestSound(s, a.worker, Packet(id, a.request))
      && a.reply == Answer(OperationsOf(ops, a.worker), a.request, a.reply)
  }

  ghost predicate AnswersSound(s: State, ops: map<Rank, Operations>) {
    forall id :: id in s.answers ==> AnswerSound(s, ops, id)
  }

  /** Replies under way are recorded answers. */
  ghost predicate ResponsesSound(s: State) {
    forall r, p :: r in s.toClient && p in s.toClient[r] ==>
      p.id.Some? && p.id.value in s.answers && s.answers[p.id.value].reply == p.reply
  }

  /** Every request waits in a queue at most once, and only until it is answered. */
  ghost predicate WaitsOnce(s: State) {
    && (forall r, i :: r in s.toServer && 0 <= i < |s.toServer[r]| ==> s.toServer[r][i].id !in s.answers)
    && (forall r, i, j :: r in s.toServer && 0 <= i < j < |s.toServer[r]| ==>
      s.toServer[r][i].id != s.toServer[r][j].id)
  }

  /** The request of a call that has not sent yet is neither under way nor answered. */
  ghost predicate Unsent(s: State) {
    forall c :: c in s.calls && s.calls[c].phase.Allocated? ==>
      && s.calls[c].id !in s.answers
      && forall r, i :: r in s.toServer && 0 <= i < |s.toServer[r]| ==> s.toServer[r][i].id != s.calls[c].id
  }

  /** The response carries the call's own id and the answer recorded for it. */
  ghost predicate Answered(s: State, call: Call, response: Response) {
    response.id == Some(call.id) && Replied(s, call, response.reply)
  }

  ghost predicate Replied(s: State, call: Call, reply: Reply) {
    call.id in s.answers && s.answers[call.id].reply == reply
  }

  /** A taken call is held once, unanswered, out of the table, and the reply in hand is its own. */
  ghost predicate HeldSound(s: State) {
    && (forall r :: r in s.held ==>
          var h := s.held[r];
          && h.caller in s.calls && s.calls[h.caller].registered && s.calls[h.caller].response == None
          && s.calls[h.caller].id !in s.core.pending && Answered(s, s.calls[h.caller], h.response))
    && (forall q, r :: q in s.held && r in s.held && s.held[q].caller == s.held[r].caller ==> q == r)
  }

  /** Calls not yet registered have no reply; a reply received, or an outcome, is the one recorded for the call. */
  ghost predicate CallSound(s: State, c: CallId)
    requires c in s.calls
  {
    var call := s.calls[c];
    && (!call.registered ==> call.response == None && call.phase.Allocated?)
    && (call.response.Some? ==> Answered(s, call, call.response.value) && call.id !in s.core.pending)
    && (call.phase.Finished? ==> call.id !in s.core.pending)
    && (call.phase.Finished? && call.phase.outcome.Returned? ==> Replied(s, call, Ok(call.phase.outcome.result)))
    && (call.phase.Finished? && call.phase.outcome.Raised? ==> Replied(s, call, Error(call.phase.outcome.error)))
  }

  ghost predicate CallsAndTable(s: State) {
    TableSound(s) && HeldSound(s) && forall c :: c in s.calls ==> CallSound(s, c)
  }

  ghost predicate Inv(s: State, ops: map<Rank, Operations>) {
    && UniqueIds(s) && RequestsSound(s) && AnswersSound(s, ops) && ResponsesSound(s) && WaitsOnce(s) && Unsent(s)
    && CallsAndTable(s)
  }

  lemma {:induction false} InitialInv(ops: map<Rank, Operations>)
    ensures Inv(INITIAL, ops)
  {
  }

  /** Calls keep their id, destination and request for ever, and answers their record. */
  ghost predicate Extends(s: State, t: State) {
    && s.core.nextId <= t.core.nextId
    && (forall c :: c in s.calls ==>
          c in t.calls && t.calls[c].id == s.calls[c].id && t.calls[c].dst == s.calls[c].dst &&
          t.calls[c].request == s.calls[c].request)
    && (forall id :: id in s.answers ==> id in t.answers && t.answers[id] == s.answers[id])
  }

  lemma {:induction false} NextExtends(s: State, ops: map<Rank, Operations>, a: Action)
    requires Enabled(s, a) && WaitsOnce(s)
    ensures Extends(s, Next(s, ops, a))
  {
    if a.Serve? {
      NewAnswer(s, Next(s, ops, a), a.r, Next(s, ops, a).answers[s.toServer[a.r][0].id]);
    } else {
      KeepsCalls(s, ops, a);
    }
  }

  lemma {:induction false} NewAnswer(s: State, t: State, q: Rank, a: Served)
    requires WaitsOnce(s) && q in s.toServer && s.toServer[q] != [] && t.core == s.core && t.calls == s.calls
    requires t.answers == s.answers[s.toServer[q][0].id := a]
    ensures Extends(s, t)
  {
    assert s.toServer[q][0].id !in s.answers;
  }

  lemma {:induction false} KeepsCalls(s: State, ops: map<Rank, Operations>, a: Action)
    requires Enabled(s, a) && !a.Serve?
    ensures Extends(s, Next(s, ops, a)) && Next(s, ops, a).answers == s.answers
  {
    var t := Next(s, ops, a);
    if a.Take? {
      assert t.calls == s.calls;
    } else {
      OneCall(s, t, if a.HandOver? then s.held[a.r].caller else a.c);
    }
  }

  /** Only call c changes, and keeps its id, destination and request. */
  lemma {:induction false} OneCall(s: State, t: State, c: CallId)
    requires t.answers == s.answers && s.core.nextId <= t.core.nextId && c in t.calls
    requires t.calls == s.calls[c := t.calls[c]]
    requires c in s.calls ==> t.calls[c].id == s.calls[c].id && t.calls[c].dst == s.calls[c].dst &&
                              t.calls[c].request == s.calls[c].request
    ensures Extends(s, t)
  {
  }

  lemma {:induction false} StillOwned(s: State, t: State, r: Rank, p: Packet)
    requires Extends(s, t) && RequestSound(s, r, p)
    ensures RequestSound(t, r, p)
  {
    var c :| Owned(s, c, p.id, r) && s.calls[c].request == p.request;
    assert Owned(t, c, p.id, r);
  }

  lemma {:induction false} NextRequests(s: State, ops: map<Rank, Operations>, a: Action)
    requires Enabled(s, a) && RequestsSound(s) && WaitsOnce(s)
    ensures RequestsSound(Next(s, ops, a))
  {
    var t := Next(s, ops, a);
    NextExtends(s, ops, a);
    forall r, p | r in t.toServer && p in t.toServer[r] ensures RequestSound(t, r, p) {
      if r in s.toServer && p in s.toServer[r] {
        StillOwned(s, t, r, p);
      } else {
        assert a.SendRequest? || a.FailSend?;
        assert Owned(t, a.c, p.id, r);
      }
    }
  }

  lemma {:induction false} NextAnswers(s: State, ops: map<Rank, Operations>, a: Action)
    requires Enabled(s, a) && RequestsSound(s) && WaitsOnce(s) && AnswersSound(s, ops)
    ensures AnswersSound(Next(s, ops, a), ops)
  {
    var t := Next(s, ops, a);
    NextExtends(s, ops, a);
    forall id | id in t.answers ensures AnswerSound(t, ops, id) {
      if id in s.answers {
        assert AnswerSound(s, ops, id);
        StillOwned(s, t, s.answers[id].worker, Packet(id, s.answers[id].request));
      } else {
        assert a.Serve?;
        var packet := s.toServer[a.r][0];
        assert packet in s.toServer[a.r] && packet == Packet(id, packet.request);
        StillOwned(s, t, a.r, packet);
      }
    }
  }

  lemma {:induction false} NextResponses(s: State, ops: map<Rank, Operations>, a: Action)
    requires Enabled(s, a) && WaitsOnce(s) && ResponsesSound(s)
    ensures ResponsesSound(Next(s, ops, a))
  {
    NextExtends(s, ops, a);
    var t := Next(s, ops, a);
    forall r, p | r in t.toClient && p in t.toClient[r]
      ensures p.id.Some? && p.id.value in t.answers && t.answers[p.id.value].reply == p.reply
    {
      if r in s.toClient && p in s.toClient[r] {
        assert p.id.value in s.answers;
      } else {
        assert a.Serve? && p.id == Some(s.toServer[a.r][0].id);
      }
    }
  }

  /** Two requests with the same id would be in the same queue. */
  lemma {:induction false} OneQueue(s: State, q: Rank, r: Rank, p: Packet, p': Packet)
    requires UniqueIds(s) && RequestSound(s, q, p) && RequestSound(s, r, p') && p.id == p'.id
    ensures q == r
  {
    var c :| Owned(s, c, p.id, q) && s.calls[c].request == p.request;
    var d :| Owned(s, d, p'.id, r) && s.calls[d].request == p'.request;
  }

  lemma {:induction false} EnqueuedOnce(s: State, c: CallId)
    requires WaitsOnce(s) && Unsent(s) && c in s.calls && s.calls[c].phase.Allocated?
    ensures WaitsOnce(Enqueue(s, c))
  {
  }

  lemma {:induction false} NextWaits(s: State, ops: map<Rank, Operations>, a: Action)
    requires Enabled(s, a) && UniqueIds(s) && RequestsSound(s) && WaitsOnce(s) && Unsent(s)
    ensures WaitsOnce(Next(s, ops, a))
  {
    match a
    case SendRequest(c) => EnqueuedOnce(s, c);
    case FailSend(c, _) => EnqueuedOnce(s, c);
    case Serve(_, _) => ServedWaits(s, Next(s, ops, a), a.r);
    case StartCall(_, _, _) => SameQueues(s, Next(s, ops, a));
    case _ =>
      QuietStep(s, ops, a);
      SameQueues(s, Next(s, ops, a));
  }

  lemma {:induction false} SameQueues(s: State, t: State)
    requires WaitsOnce(s) && t.toServer == s.toServer && t.answers == s.answers
    ensures WaitsOnce(t)
  {
  }

  /** The request at the head of a queue is nowhere else. */
  lemma {:induction false} NotHead(s: State, q: Rank, r: Rank, i: nat)
    requires UniqueIds(s) && RequestsSound(s) && WaitsOnce(s)
    requires q in s.toServer && s.toServer[q] != [] && r in s.toServer && i < |s.toServer[r]| && (r != q || i > 0)
    ensures s.toServer[r][i].id != s.toServer[q][0].id
  {
    var head, p := s.toServer[q][0], s.toServer[r][i];
    assert head in s.toServer[q] && p in s.toServer[r];
    if p.id == head.id {
      OneQueue(s, r, q, p, head);
    }
  }

  /** `t` is `s` after worker q answered the request at the head of its queue. */
  ghost predicate Popped(s: State, t: State, q: Rank) {
    && q in s.toServer && s.toServer[q] != []
    && t.toServer == s.toServer[q := s.toServer[q][1..]]
    && forall id :: id in t.answers ==> id in s.answers || id == s.toServer[q][0].id
  }

  lemma {:induction false} ServedWaits(s: State, t: State, q: Rank)
    requires UniqueIds(s) && RequestsSound(s) && WaitsOnce(s) && Popped(s, t, q)
    ensures WaitsOnce(t)
  {
    forall r, i | r in t.toServer && 0 <= i < |t.toServer[r]| ensures t.toServer[r][i].id !in t.answers {
      NotHead(s, q, r, if r == q then i + 1 else i);
    }
  }

  lemma {:induction false} NextUnsent(s: State, ops: map<Rank, Operations>, a: Action)
    requires Enabled(s, a) && UniqueIds(s) && RequestsSound(s) && AnswersSound(s, ops) && Unsent(s)
    ensures Unsent(Next(s, ops, a))
  {
    var t := Next(s, ops, a);
    match a
    case StartCall(c, _, _) => NewUnsent(s, ops, t, c);
    case SendRequest(c) => OthersUnsent(s, t, c);
    case FailSend(c, _) => OthersUnsent(s, t, c);
    case Serve(r, _) => ServedUnsent(s, t, r);
    case _ =>
      QuietStep(s, ops, a);
      SameUnsent(s, t);
  }

  /** Steps that neither start, send nor answer. */
  lemma {:induction false} QuietStep(s: State, ops: map<Rank, Operations>, a: Action)
    requires Enabled(s, a) && !a.StartCall? && !a.SendRequest? && !a.FailSend? && !a.Serve?
    ensures var t := Next(s, ops, a);
            && t.toServer == s.toServer && t.answers == s.answers
            && forall d :: d in t.calls && t.calls[d].phase.Allocated? ==>
                 d in s.calls && s.calls[d].phase.Allocated? && t.calls[d].id == s.calls[d].id
  {
  }

  lemma {:induction false} SameUnsent(s: State, t: State)
    requires Unsent(s) && t.toServer == s.toServer && t.answers == s.answers
    requires forall d :: d in t.calls && t.calls[d].phase.Allocated? ==>
               d in s.calls && s.calls[d].phase.Allocated? && t.calls[d].id == s.calls[d].id
    ensures Unsent(t)
  {
  }

  lemma {:induction false} ServedUnsent(s: State, t: State, q: Rank)
    requires Unsent(s) && Popped(s, t, q) && t.calls == s.calls
    ensures Unsent(t)
  {
    forall c | c in t.calls && t.calls[c].phase.Allocated? ensures t.calls[c].id !in t.answers {}
    forall c, r, i | c in t.calls && t.calls[c].phase.Allocated? && r in t.toServer && 0 <= i < |t.toServer[r]|
      ensures t.toServer[r][i].id != t.calls[c].id
    {
      assert t.toServer[r][i] == s.toServer[r][if r == q then i + 1 else i];
    }
  }

  /** A new call's id is new. */
  lemma {:induction false} NewUnsent(s: State, ops: map<Rank, Operations>, t: State, c: CallId)
    requires UniqueIds(s) && RequestsSound(s) && AnswersSound(s, ops) && Unsent(s)
    requires t.toServer == s.toServer && t.answers == s.answers && c in t.calls && t.calls[c].id == ReqId(s.core.nextId)
    requires forall d :: d in t.calls && d != c ==> d in s.calls && t.calls[d] == s.calls[d]
    ensures Unsent(t)
  {
    forall r, i | r in s.toServer && 0 <= i < |s.toServer[r]| ensures s.toServer[r][i].id.n < s.core.nextId {
      assert s.toServer[r][i] in s.toServer[r];
    }
    forall id | id in s.answers ensures id.n < s.core.nextId {
      assert AnswerSound(s, ops, id);
    }
  }

  /** Call c has just sent, or failed to. */
  lemma {:induction false} OthersUnsent(s: State, t: State, c: CallId)
    requires UniqueIds(s) && Unsent(s) && c in s.calls && t.answers == s.answers
    requires t.toServer == s.toServer || t.toServer == Enqueue(s, c).toServer
    requires forall d :: d in t.calls && t.calls[d].phase.Allocated? ==>
               d != c && d in s.calls && s.calls[d].phase.Allocated? && t.calls[d].id == s.calls[d].id
    ensures Unsent(t)
  {
  }

  lemma {:induction false} NextIds(s: State, ops: map<Rank, Operations>, a: Action)
    requires Enabled(s, a) && UniqueIds(s)
    ensures UniqueIds(Next(s, ops, a))
  {
    if a.StartCall? {
      NewId(s, Next(s, ops, a), a.c);
    } else {
      SameIds(s, Next(s, ops, a));
    }
  }

  lemma {:induction false} NewId(s: State, t: State, c: CallId)
    requires UniqueIds(s) && t.core.nextId == s.core.nextId + 1 && c in t.calls && t.calls[c].id == ReqId(s.core.nextId)
    requires forall d :: d in t.calls && d != c ==> d in s.calls && t.calls[d].id == s.calls[d].id
    ensures UniqueIds(t)
  {
  }

  lemma {:induction false} SameIds(s: State, t: State)
    requires UniqueIds(s) && t.core.nextId >= s.core.nextId
    requires forall c :: c in t.calls ==> c in s.calls && t.calls[c].id == s.calls[c].id
    ensures UniqueIds(t)
  {
  }

  lemma {:induction false} AfterStart(s: State, ops: map<Rank, Operations>, a: Action)
    requires Enabled(s, a) && UniqueIds(s) && CallsAndTable(s) && a.StartCall?
    ensures CallsAndTable(Next(s, ops, a))
  {
  }

  lemma {:induction false} RegisteredSound(s: State, c: CallId, t: State)
    requires UniqueIds(s) && CallsAndTable(s) && c in s.calls && s.calls[c].phase.Allocated? && !s.calls[c].registered
    requires t == Update(s.(core := Register(s.core, s.calls[c].id, c)), c, s.calls[c].(registered := true))
    ensures CallsAndTable(t)
  {
    RegisteredTable(s, c, t);
    forall d | d in t.calls ensures CallSound(t, d) {
      assert CallSound(s, d);
    }
  }

  lemma {:induction false} RegisteredTable(s: State, c: CallId, t: State)
    requires UniqueIds(s) && CallsAndTable(s) && c in s.calls && s.calls[c].phase.Allocated? && !s.calls[c].registered
    requires t == Update(s.(core := Register(s.core, s.calls[c].id, c)), c, s.calls[c].(registered := true))
    ensures TableSound(t) && HeldSound(t)
  {
    assert CallSound(s, c);
  }

  lemma {:induction false} PhaseSound(s: State, c: CallId, phase: Phase)
    requires CallsAndTable(s) && c in s.calls && s.calls[c].registered
    requires CallSound(Update(s, c, s.calls[c].(phase := phase)), c)
    ensures CallsAndTable(Update(s, c, s.calls[c].(phase := phase)))
  {
    var t := Update(s, c, s.calls[c].(phase := phase));
    assert TableSound(t);
    assert HeldSound(t);
    forall d | d in t.calls ensures CallSound(t, d) {
      assert d in s.calls && CallSound(s, d);
    }
  }

  lemma {:induction false} EndedTable(s: State, c: CallId, outcome: Outcome)
    requires UniqueIds(s) && TableSound(s) && HeldSound(s) && c in s.calls
    ensures TableSound(Ended(s, c, outcome)) && HeldSound(Ended(s, c, outcome))
  {
  }

  lemma {:induction false} EndedSound(s: State, c: CallId, outcome: Outcome)
    requires UniqueIds(s) && CallsAndTable(s) && c in s.calls && s.calls[c].registered
    requires outcome.SendFailed? || outcome.TimedOut?
    ensures CallsAndTable(Ended(s, c, outcome))
  {
    EndedTable(s, c, outcome);
    var t := Ended(s, c, outcome);
    forall d | d in t.calls ensures CallSound(t, d) {
      assert d in s.calls && CallSound(s, d);
    }
  }

  /** More answers, or other queues, leave calls, table and hands as they are. */
  lemma {:induction false} RestSound(s: State, t: State)
    requires CallsAndTable(s) && t.core == s.core && t.calls == s.calls && t.held == s.held
    requires forall id :: id in s.answers ==> id in t.answers && t.answers[id] == s.answers[id]
    ensures CallsAndTable(t)
  {
    assert TableSound(t);
    assert HeldSound(t);
    forall d | d in t.calls ensures CallSound(t, d) {
      assert CallSound(s, d);
    }
  }

  lemma {:induction false} TakenSound(s: State, r: Rank, c: CallId, response: Response)
    requires UniqueIds(s) && CallsAndTable(s) && r !in s.held
    requires c in s.calls && s.calls[c].id in s.core.pending && s.core.pending[s.calls[c].id] == c
    requires Answered(s, s.calls[c], response)
    ensures CallsAndTable(Taken(s, r, c, response))
  {
    var t := Taken(s, r, c, response);
    assert TableSound(t);
    assert HeldSound(t);
    forall d | d in t.calls ensures CallSound(t, d) {
      assert CallSound(s, d);
    }
  }

  lemma {:induction false} AfterTake(s: State, ops: map<Rank, Operations>, a: Action)
    requires Enabled(s, a) && UniqueIds(s) && ResponsesSound(s) && CallsAndTable(s) && a.Take?
    ensures CallsAndTable(Next(s, ops, a))
  {
    var response := Queue(s.toClient, a.r)[0];
    assert response in s.toClient[a.r];
    var popped := s.(toClient := s.toClient[a.r := Queue(s.toClient, a.r)[1..]]);
    RestSound(s, popped);
    if Match(s.core, response).Some? {
      TakenSound(popped, a.r, Match(s.core, response).value, response);
    }
  }

  lemma {:induction false} HandedSound(s: State, r: Rank, t: State)
    requires CallsAndTable(s) && r in s.held && s.held[r].caller in s.calls
    requires var h := s.held[r];
             t == Update(s.(held := s.held - {r}), h.caller, s.calls[h.caller].(response := Some(h.response)))
    ensures CallsAndTable(t)
  {
    assert TableSound(t);
    assert HeldSound(t);
    forall d | d in t.calls ensures CallSound(t, d) {
      assert CallSound(s, d);
    }
  }

  lemma {:induction false} NextCalls(s: State, ops: map<Rank, Operations>, a: Action)
    requires Enabled(s, a) && UniqueIds(s) && ResponsesSound(s) && WaitsOnce(s) && CallsAndTable(s)
    ensures CallsAndTable(Next(s, ops, a))
  {
    match a
    case StartCall(_, _, _) => AfterStart(s, ops, a);
    case RegisterCall(c) => RegisteredSound(s, c, Next(s, ops, a));
    case SendRequest(c) => AfterSend(s, c);
    case FailSend(c, leaked) => AfterFailSend(s, c, leaked);
    case WakeUp(c) => AfterWakeUp(s, c);
    case GiveUp(c) => PhaseSound(s, c, GivingUp);
    case RemoveAfterTimeout(c) => EndedSound(s, c, TimedOut);
    case Serve(_, _) => AfterServe(s, ops, a);
    case Take(_) => AfterTake(s, ops, a);
    case HandOver(r) => HandedSound(s, r, Next(s, ops, a));
  }

  lemma {:induction false} AfterSend(s: State, c: CallId)
    requires CallsAndTable(s) && c in s.calls && s.calls[c].phase.Allocated? && s.calls[c].registered
    ensures CallsAndTable(Update(Enqueue(s, c), c, s.calls[c].(phase := Waiting)))
  {
    RestSound(s, Enqueue(s, c));
    PhaseSound(Enqueue(s, c), c, Waiting);
  }

  lemma {:induction false} AfterFailSend(s: State, c: CallId, leaked: bool)
    requires UniqueIds(s) && CallsAndTable(s) && c in s.calls && s.calls[c].registered
    ensures CallsAndTable(Ended(if leaked then Enqueue(s, c) else s, c, SendFailed))
  {
    RestSound(s, Enqueue(s, c));
    EndedSound(if leaked then Enqueue(s, c) else s, c, SendFailed);
  }

  lemma {:induction false} AfterWakeUp(s: State, c: CallId)
    requires CallsAndTable(s) && c in s.calls && s.calls[c].phase.Waiting? && s.calls[c].response.Some?
    ensures CallsAndTable(Update(s, c, s.calls[c].(phase := Finished(Conclude(s.calls[c].response.value.reply)))))
  {
    PhaseSound(s, c, Finished(Conclude(s.calls[c].response.value.reply)));
  }

  lemma {:induction false} AfterServe(s: State, ops: map<Rank, Operations>, a: Action)
    requires Enabled(s, a) && CallsAndTable(s) && WaitsOnce(s) && a.Serve?
    ensures CallsAndTable(Next(s, ops, a))
  {
    NextExtends(s, ops, a);
    RestSound(s, Next(s, ops, a));
  }

  /** Every step keeps the invariant. */
  lemma {:induction false} NextInv(s: State, ops: map<Rank, Operations>, a: Action)
    requires Enabled(s, a) && Inv(s, ops)
    ensures Inv(Next(s, ops, a), ops)
  {
    NextIds(s, ops, a);
    NextRequests(s, ops, a);
    NextAnswers(s, ops, a);
    NextResponses(s, ops, a);
    NextWaits(s, ops, a);
    NextUnsent(s, ops, a);
    NextCalls(s, ops, a);
  }

  // ---- Whole runs ----

  /** The states a run of actions passes through, newest last. */
  ghost predicate Run(ss: seq<State>, ops: map<Rank, Operations>, actions: seq<Action>) {
    && |ss| == |actions| + 1 && ss[0] == INITIAL
    && forall i: nat :: i < |actions| ==> StepAt(ss, ops, actions, i)
  }

  ghost predicate StepAt(ss: seq<State>, ops: map<Rank, Operations>, actions: seq<Action>, i: nat)
    requires |ss| == |actions| + 1 && i < |actions|
  {
    Enabled(ss[i], actions[i]) && ss[i + 1] == Next(ss[i], ops, actions[i])
  }

  lemma {:induction false} RunInv(ss: seq<State>, ops: map<Rank, Operations>, actions: seq<Action>, i: nat)
    requires Run(ss, ops, actions) && i < |ss|
    ensures Inv(ss[i], ops)
  {
    if i == 0 {
      InitialInv(ops);
    } else {
      RunInv(ss, ops, actions, i - 1);
      assert StepAt(ss, ops, actions, i - 1);
      NextInv(ss[i - 1], ops, actions[i - 1]);
    }
  }

  lemma {:induction false} RunExtends(ss: seq<State>, ops: map<Rank, Operations>, actions: seq<Action>, i: nat, j: nat)
    requires Run(ss, ops, actions) && i <= j < |ss|
    ensures Extends(ss[i], ss[j])
  {
    if i < j {
      RunExtends(ss, ops, actions, i, j - 1);
      RunStep(ss, ops, actions, j - 1);
      ExtendsTransitive(ss[i], ss[j - 1], ss[j]);
    }
  }

  lemma {:induction false} RunStep(ss: seq<State>, ops: map<Rank, Operations>, actions: seq<Action>, i: nat)
    requires Run(ss, ops, actions) && i < |actions|
    ensures Enabled(ss[i], actions[i]) && ss[i + 1] == Next(ss[i], ops, actions[i]) && Extends(ss[i], ss[i + 1])
  {
    assert StepAt(ss, ops, actions, i);
    RunInv(ss, ops, actions, i);
    NextExtends(ss[i], ops, actions[i]);
  }

  lemma {:induction false} ExtendsTransitive(s: State, t: State, u: State)
    requires Extends(s, t) && Extends(t, u)
    ensures Extends(s, u)
  {
  }

  /**
    In every run, a call that returns a result or raises a worker's error got what its own destination answered to its
    own request: the answer recorded under its own id, whatever handlers answer and however often.
   */
  lemma {:induction false} OwnAnswer(ss: seq<State>, ops: map<Rank, Operations>, actions: seq<Action>, i: nat,
                              c: CallId)
    requires Run(ss, ops, actions) && i < |ss| && c in ss[i].calls && ss[i].calls[c].phase.Finished?
    ensures var call := ss[i].calls[c];
            match call.phase.outcome
            case Returned(v) =>
              call.id in ss[i].answers && ss[i].answers[call.id] == Served(call.dst, call.request, Ok(v))
            case Raised(e) =>
              call.id in ss[i].answers && ss[i].answers[call.id] == Served(call.dst, call.request, Error(e))
            case _ => true
  {
    RunInv(ss, ops, actions, i);
    if ss[i].calls[c].id in ss[i].answers {
      AnswerOfCall(ss[i], ops, c);
    }
  }

  lemma {:induction false} AnswerOfCall(s: State, ops: map<Rank, Operations>, c: CallId)
    requires UniqueIds(s) && AnswersSound(s, ops) && c in s.calls && s.calls[c].id in s.answers
    ensures s.answers[s.calls[c].id].worker == s.calls[c].dst && s.answers[s.calls[c].id].request == s.calls[c].request
  {
    var id := s.calls[c].id;
    assert AnswerSound(s, ops, id);
    var d :| Owned(s, d, id, s.answers[id].worker) && s.calls[d].request == s.answers[id].request;
  }

  /** A recorded answer was given by one step of its worker, on exactly that request. */
  lemma {:induction false} AnswerWasServed(ss: seq<State>, ops: map<Rank, Operations>, actions: seq<Action>, i: nat,
                              id: ReqId)
    returns (k: nat)
    requires Run(ss, ops, actions) && i < |ss| && id in ss[i].answers
    ensures k < i && actions[k].Serve? && Queue(ss[k].toServer, actions[k].r) != []
    ensures var a := ss[i].answers[id];
            && actions[k].r == a.worker && Queue(ss[k].toServer, a.worker)[0] == Packet(id, a.request)
            && a.reply == Answer(OperationsOf(ops, a.worker), a.request, actions[k].handled)
  {
    RunStep(ss, ops, actions, i - 1);
    if id in ss[i - 1].answers {
      k := AnswerWasServed(ss, ops, actions, i - 1, id);
    } else {
      k := i - 1;
    }
  }

  /** No request is answered twice. */
  lemma {:induction false} ServedOnce(ss: seq<State>, ops: map<Rank, Operations>, actions: seq<Action>, i: nat, j: nat)
    requires Run(ss, ops, actions) && i < j < |actions| && actions[i].Serve? && actions[j].Serve?
    ensures Queue(ss[i].toServer, actions[i].r) != [] && Queue(ss[j].toServer, actions[j].r) != []
    ensures Queue(ss[i].toServer, actions[i].r)[0].id != Queue(ss[j].toServer, actions[j].r)[0].id
  {
    RunStep(ss, ops, actions, i);
    RunStep(ss, ops, actions, j);
    RunExtends(ss, ops, actions, i + 1, j);
    RunInv(ss, ops, actions, j);
    assert ss[j].toServer[actions[j].r][0].id !in ss[j].answers;
  }

  /** Ids are never reused: calls started at different times of a run, or seen at any two moments, share no id. */
  lemma {:induction false} IdsNeverReused(ss: seq<State>, ops: map<Rank, Operations>, actions: seq<Action>, i: nat,
                              j: nat, c: CallId, d: CallId)
    requires Run(ss, ops, actions) && i <= j < |ss| && c in ss[i].calls && d in ss[j].calls
    requires ss[i].calls[c].id == ss[j].calls[d].id
    ensures c == d
  {
    RunInv(ss, ops, actions, j);
    RunExtends(ss, ops, actions, i, j);
  }

  /** A reply is handed to the call whose id it carries, and to a call that has none yet. */
  lemma {:induction false} HandOverOnce(ss: seq<State>, ops: map<Rank, Operations>, actions: seq<Action>, i: nat)
    requires Run(ss, ops, actions) && i < |actions| && actions[i].HandOver?
    ensures actions[i].r in ss[i].held
    ensures var h := ss[i].held[actions[i].r];
            && h.caller in ss[i].calls && h.response.id == Some(ss[i].calls[h.caller].id)
            && ss[i].calls[h.caller].response == None
            && h.caller in ss[i + 1].calls && ss[i + 1].calls[h.caller].response == Some(h.response)
  {
    RunInv(ss, ops, actions, i);
    assert StepAt(ss, ops, actions, i);
  }

  /** A call answered once is never answered again: its reply stays what it is for the rest of the run. */
  lemma {:induction false} AnsweredOnce(ss: seq<State>, ops: map<Rank, Operations>, actions: seq<Action>, i: nat,
                              j: nat, c: CallId)
    requires Run(ss, ops, actions) && i <= j < |ss| && c in ss[i].calls && ss[i].calls[c].response.Some?
    ensures c in ss[j].calls && ss[j].calls[c].response == ss[i].calls[c].response
  {
    if i < j {
      AnsweredOnce(ss, ops, actions, i, j - 1, c);
      RunInv(ss, ops, actions, j - 1);
      assert StepAt(ss, ops, actions, j - 1);
      KeepsAnswer(ss[j - 1], ops, actions[j - 1], c);
    }
  }

  lemma {:induction false} KeepsAnswer(s: State, ops: map<Rank, Operations>, a: Action, c: CallId)
    requires Enabled(s, a) && HeldSound(s) && c in s.calls && s.calls[c].response.Some?
    ensures var t := Next(s, ops, a); c in t.calls && t.calls[c].response == s.calls[c].response
  {
  }

  /** Each reply reaches at most one call: no two steps of a run hand over replies with the same id. */
  lemma {:induction false} OneCallPerReply(ss: seq<State>, ops: map<Rank, Operations>, actions: seq<Action>, i: nat,
                              j: nat)
    requires Run(ss, ops, actions) && i < j < |actions| && actions[i].HandOver? && actions[j].HandOver?
    ensures actions[i].r in ss[i].held && actions[j].r in ss[j].held
    ensures ss[i].held[actions[i].r].response.id != ss[j].held[actions[j].r].response.id
  {
    HandOverOnce(ss, ops, actions, i);
    HandOverOnce(ss, ops, actions, j);
    var c, d := ss[i].held[actions[i].r].caller, ss[j].held[actions[j].r].caller;
    AnsweredOnce(ss, ops, actions, i + 1, j, c);
    if ss[i].calls[c].id == ss[j].calls[d].id {
      IdsNeverReused(ss, ops, actions, i, j, c, d);
    }
  }

  /**
    Only handlers return results, and shutdown: a call of an operation its worker does not know never returns one, and
    the error it raises names the operation.
   */
  lemma {:induction false} UnknownNeverReturns(ss: seq<State>, ops: map<Rank, Operations>, actions: seq<Action>,
                              i: nat, c: CallId)
    requires Run(ss, ops, actions) && i < |ss| && c in ss[i].calls && ss[i].calls[c].phase.Finished?
    requires var call := ss[i].calls[c];
             call.request.op != "shutdown" && (call.dst in ops ==> call.request.op !in ops[call.dst])
    ensures !ss[i].calls[c].phase.outcome.Returned?
    ensures ss[i].calls[c].phase.outcome.Raised? ==>
              ss[i].calls[c].phase.outcome.error == "unknown_op:" + ss[i].calls[c].request.op
  {
    RunInv(ss, ops, actions, i);
    OwnAnswer(ss, ops, actions, i, c);
    var call := ss[i].calls[c];
    if call.phase.outcome.Returned? || call.phase.outcome.Raised? {
      assert AnswerSound(ss[i], ops, call.id);
    }
  }

  /** A worker that has answered a shutdown request answers nothing any more. */
  lemma {:induction false} NothingAfterShutdown(ss: seq<State>, ops: map<Rank, Operations>, actions: seq<Action>,
                              i: nat, j: nat)
    requires Run(ss, ops, actions) && i < j < |actions| && actions[i].Serve?
    requires Queue(ss[i].toServer, actions[i].r) != []
    requires Queue(ss[i].toServer, actions[i].r)[0].request.op == "shutdown"
    ensures actions[j].Serve? ==> actions[j].r != actions[i].r
  {
    RunStep(ss, ops, actions, i);
    StaysStopped(ss, ops, actions, i + 1, j, actions[i].r);
    RunStep(ss, ops, actions, j);
  }

  lemma {:induction false} StaysStopped(ss: seq<State>, ops: map<Rank, Operations>, actions: seq<Action>,
                              i: nat, j: nat, r: Rank)
    requires Run(ss, ops, actions) && i <= j < |ss| && r in ss[i].stopped
    ensures r in ss[j].stopped
  {
    if i < j {
      StaysStopped(ss, ops, actions, i, j - 1, r);
      RunStep(ss, ops, actions, j - 1);
    }
  }

  /** Nothing is left behind: a finished call, however it ended, is not in the table any more, and stays out of it. */
  lemma {:induction false} FinishedLeavesTable(ss: seq<State>, ops: map<Rank, Operations>, actions: seq<Action>,
                              i: nat, c: CallId)
    requires Run(ss, ops, actions) && i < |ss| && c in ss[i].calls && ss[i].calls[c].phase.Finished?
    ensures ss[i].calls[c].id !in ss[i].core.pending
  {
    RunInv(ss, ops, actions, i);
    assert CallSound(ss[i], c);
  }
}
