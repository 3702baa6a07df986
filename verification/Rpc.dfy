/**
  Request/response correlation (pd_inference/rpc.py): caller threads, one receiver thread per worker, timeouts,
  late replies and worker loops, as atomic steps of one system.
 */
module Rpc {
  import opened Options

  datatype ReqId = ReqId(n: nat)
  datatype CallId = CallId(n: nat)
  datatype Rank = Rank(n: nat)

  datatype Request = Request(op: string, payload: string)
  datatype Packet = Packet(id: ReqId, request: Request)
  datatype Reply = Ok(result: string) | Error(message: string)
  datatype Response = Response(id: Option<ReqId>, reply: Reply)

  /** The operations a worker has handlers for. */
  type Operations = set<string>

  /** What a worker answers: shutdown, unknown operation, or whatever its handler returns or raises this time. */
  function Answer(ops: Operations, request: Request, handled: Reply): Reply {
    if request.op == "shutdown" then Ok("bye")
    else if request.op !in ops then Error("unknown_op:" + request.op)
    else handled
  }

  // ---- The client's shared state ----

  /** `_next_id` and `_pending`, which every thread reaches through the lock. */
  datatype Core = Core(nextId: nat, pending: map<ReqId, CallId>)

  function Alloc(k: Core): (Core, ReqId) {
    (k.(nextId := k.nextId + 1), ReqId(k.nextId))
  }

  function Register(k: Core, id: ReqId, c: CallId): Core {
    k.(pending := k.pending[id := c])
  }

  function Forget(k: Core, id: ReqId): Core {
    k.(pending := k.pending - {id})
  }

  /** The waiting call a response belongs to, if there is one. */
  function Match(k: Core, resp: Response): Option<CallId> {
    if resp.id.Some? && resp.id.value in k.pending then Some(k.pending[resp.id.value]) else None
  }

  class PendingCall {
    const caller: CallId
    var response: Option<Response>

    constructor (caller: CallId)
      ensures this.caller == caller && response == None
    {
      this.caller, response := caller, None;
    }

    method Set(resp: Response)
      modifies this
      ensures response == Some(resp)
    {
      response := Some(resp);
    }
  }

  class RPCClient {
    var nextId: nat
    var pending: map<ReqId, PendingCall>

    ghost function View(): Core
      reads this
    {
      Core(nextId, map id | id in pending :: pending[id].caller)
    }

    /** Every id has a pending call of its own. */
    ghost predicate Valid()
      reads this
    {
      forall i, j :: i in pending && j in pending && pending[i] == pending[j] ==> i == j
    }

    constructor ()
      ensures Valid() && View() == Core(1, map[])
    {
      nextId, pending := 1, map[];
    }

    method AllocId() returns (id: ReqId)
      requires Valid()
      modifies this
      ensures Valid() && (View(), id) == Alloc(old(View())) && pending == old(pending)
    {
      id := ReqId(nextId);
      nextId := nextId + 1;
    }

    method RegisterCall(id: ReqId, call: PendingCall)
      requires Valid() && forall i :: i in pending ==> pending[i] != call
      modifies this
      ensures Valid() && View() == Register(old(View()), id, call.caller)
      ensures pending == old(pending)[id := call]
    {
      pending := pending[id := call];
    }

    method ForgetCall(id: ReqId)
      requires Valid()
      modifies this
      ensures Valid() && View() == Forget(old(View()), id) && pending == old(pending) - {id}
    {
      pending := pending - {id};
    }

    /** The locked half of delivery: removes and returns the matching call. */
    method TakeCall(resp: Response) returns (call: Option<PendingCall>)
      requires Valid()
      modifies this
      ensures Valid() && nextId == old(nextId)
      ensures if resp.id.Some? && resp.id.value in old(pending)
              then call == Some(old(pending)[resp.id.value]) && pending == old(pending) - {resp.id.value}
              else call == None && pending == old(pending)
    {
      if resp.id.None? || resp.id.value !in pending {
        return None;
      }
      call := Some(pending[resp.id.value]);
      pending := pending - {resp.id.value};
    }

    /** Matches a response to its pending call and hands it over; all other calls keep what they have. */
    method DeliverResponse(resp: Response)
      requires Valid()
      modifies this, set id | id in pending && resp.id == Some(id) :: pending[id]
      ensures Valid()
      ensures View() == (if Match(old(View()), resp).Some? then Forget(old(View()), resp.id.value) else old(View()))
      ensures pending == (if resp.id.Some? then old(pending) - {resp.id.value} else old(pending))
      ensures forall id :: id in old(pending) ==>
                old(pending)[id].response == if resp.id == Some(id) then Some(resp) else old(pending[id].response)
    {
      var call := TakeCall(resp);
      if call.Some? {
        call.value.Set(resp);
      }
    }
  }
}
