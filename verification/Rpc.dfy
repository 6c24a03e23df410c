/** The tables the two ends keep, updated in place. */
module Rpc {
  import opened Wrappers
  import opened RpcSpec
  import opened RpcProof

  /** The client's pending requests and their promises. */
  class PendingRequests {
    var requests: seq<Pending>
    var pending: set<RequestId>
    var current: Option<ConnectionId>
    var disposed: bool
    ghost var unmatched: bool

    ghost function Model(): Client
      reads this
    {
      Client(requests, pending, current, disposed, unmatched)
    }

    ghost predicate Valid()
      reads this
    {
      ClientInv(Model())
    }

    constructor ()
      ensures Valid() && Model() == Initial().client
    {
      requests, pending, current, disposed, unmatched := [], {}, None, false, false;
    }

    /** A new request; None if it cannot even be begun. `encodes` says that its envelope fits a frame,
        `valid` that the server can parse its call. */
    method Request(encodes: bool, valid: bool) returns (id: Option<RequestId>)
      requires Valid()
      modifies this`requests, this`pending
      ensures Valid()
      ensures id.None? <==> disposed || current.None?
      ensures id.None? ==> Model() == old(Model())
      ensures id.Some? ==> id.value == |old(requests)|
      ensures id.Some? ==> requests == old(requests) + [Pending(current.value, valid, if encodes then Unsettled else Rejected(NotEncoded), false)]
      ensures id.Some? ==> pending == if encodes then old(pending) + {id.value} else old(pending)
    {
      if disposed || current.None? {
        return None;
      }
      var n := |requests|;
      requests := requests + [Pending(current.value, valid, Unsettled, false)];
      pending := pending + {n};
      if !encodes {
        var _ := TakePendingRequest(n);
        SettlePromise(n, Rejected(NotEncoded));
        assert requests == old(requests) + [Pending(current.value, valid, Rejected(NotEncoded), false)];
      }
      return Some(n);
    }

    method TakePendingRequest(id: RequestId) returns (found: bool)
      modifies this`pending
      ensures found <==> id in old(pending)
      ensures pending == old(pending) - {id}
    {
      found := id in pending;
      pending := pending - {id};
    }

    method SettlePromise(id: RequestId, outcome: Promise)
      requires id < |requests|
      modifies this`requests
      ensures Model() == SettleRequest(old(Model()), id, outcome)
    {
      if requests[id].promise == Unsettled {
        requests := requests[id := requests[id].(promise := outcome)];
      } else {
        assert requests[id := requests[id]] == requests;
      }
    }

    method RejectPendingRequests()
      requires forall i :: i in pending ==> i < |requests|
      modifies this`requests, this`pending
      ensures Model() == RejectPending(old(Model()))
    {
      var todo := pending;
      pending := {};
      while todo != {}
        invariant todo <= old(pending) && |requests| == |old(requests)|
        invariant forall i :: 0 <= i < |requests| ==>
          requests[i] == if i in old(pending) - todo
                         then old(requests[i]).(promise := Settle(old(requests[i]).promise, Rejected(RpcSpec.Disconnected))) else old(requests[i])
        invariant Model() == old(Model()).(requests := requests, pending := {})
        decreases |todo|
      {
        var id :| id in todo;
        SettlePromise(id, Rejected(RpcSpec.Disconnected));
        todo := todo - {id};
      }
      assert requests == RejectPending(old(Model())).requests;
    }

    /** The connection reports that it is disconnected. */
    method Disconnected()
      requires Valid()
      modifies this
      ensures Valid() && Model() == DisconnectClient(old(Model()))
    {
      RejectPendingRequests();
      current := None;
    }

    method HandleResponse(id: RequestId, outcome: Outcome, good: bool)
      requires Valid()
      modifies this
      ensures Model() == TakeResponse(old(Model()), id, outcome, good)
      ensures id in old(pending) && old(current).Some? ==> Valid()
    {
      var found := TakePendingRequest(id);
      if !found {
        assert pending == old(pending);
        Disconnected();
        unmatched := true;
        return;
      }
      if old(current).Some? {
        ResponseKeepsClientInv(old(Model()), id, outcome, good);
      }
      match outcome {
        case Failed(failure) => SettlePromise(id, Rejected(ByServer(failure)));
        case Succeeded(value) =>
          if good {
            SettlePromise(id, Resolved(value));
          } else {
            // The transform threw: the connection fails first, then the promise is rejected.
            RejectPendingRequests();
            current := None;
            SettlePromise(id, Rejected(BadResult));
          }
      }
    }
  }

  /** The server's active requests on one connection. */
  class ActiveRequests {
    var handlers: seq<Handler>
    var activeRequests: map<RequestId, nat>
    var disconnected: bool
    var broken: bool
    var upstream: seq<Upstream>
    var downstream: seq<Downstream>
    ghost var received: seq<RequestId>
    ghost var answered: seq<RequestId>

    ghost function Model(): Connection
      reads this
    {
      Connection(upstream, downstream, handlers, activeRequests, disconnected, broken, received, answered)
    }

    ghost predicate Valid()
      reads this
    {
      Active(handlers, activeRequests, disconnected)
    }

    constructor ()
      ensures Valid() && Model() == NewConnection()
    {
      handlers, activeRequests, disconnected, broken := [], map[], false, false;
      upstream, downstream, received, answered := [], [], [], [];
    }

    method SendResponse(id: RequestId, outcome: Outcome)
      modifies this`downstream, this`answered
      ensures Model() == Respond(old(Model()), id, outcome)
    {
      if !disconnected && !broken {
        downstream := downstream + [Response(id, outcome)];
        answered := answered + [id];
      }
    }

    method Refused(id: RequestId, failure: Failure)
      modifies this`downstream, this`answered, this`handlers
      ensures Model() == Refuse(old(Model()), id, failure)
    {
      SendResponse(id, Failed(failure));
      handlers := handlers + [Handler(id, Done, false, Some(Failed(failure)))];
    }

    /** One envelope of a connection that is ready. */
    method Dispatch()
      requires Valid() && upstream != [] && !disconnected
      modifies this
      ensures Valid() && Model() == TakeUpstream(old(Model()))
    {
      TakeKeepsActive(Model());
      var message := upstream[0];
      upstream := upstream[1..];
      match message {
        case Cancel(id) =>
          if id in activeRequests {
            var k := activeRequests[id];
            handlers := handlers[k := handlers[k].(cancelled := true)];
          }
        case Request(id, valid) =>
          received := received + [id];
          if id in activeRequests {
            Refused(id, AlreadyActive);
          } else if !valid {
            Refused(id, InvalidCall);
          } else {
            activeRequests := activeRequests[id := |handlers|];
            handlers := handlers + [Handler(id, Working, false, None)];
          }
      }
    }

    method WorkFinished(k: nat, result: CallResult)
      requires Valid() && k < |handlers| && handlers[k].work == Working
      modifies this
      ensures Valid() && Model() == FinishWork(old(Model()), k, result)
    {
      WorkKeepsActive(Model(), k, true, result);
      var outcome := match result
                     case Returned(value) => Succeeded(value)
                     case Threw(error) => Failed(if handlers[k].cancelled then Cancelled else CallFailed(error));
      SendResponse(handlers[k].id, outcome);
      handlers := handlers[k := handlers[k].(work := Responding, outcome := Some(outcome))];
    }

    method WorkReturned(k: nat, ok: bool)
      requires Valid() && k < |handlers| && handlers[k].work == Responding
      modifies this
      ensures Valid() && Model() == ReturnWork(old(Model()), k, ok)
    {
      WorkKeepsActive(Model(), k, ok, Threw(0));
      if !ok {
        Disconnect();
      }
      var id := handlers[k].id;
      if id in activeRequests && activeRequests[id] == k {
        activeRequests := activeRequests - {id};
      }
      handlers := handlers[k := handlers[k].(work := Done)];
    }

    /** Aborts the signal of every active request. */
    method Disconnect()
      requires Valid()
      modifies this`disconnected, this`activeRequests, this`handlers
      ensures Valid() && Model() == DisconnectServer(old(Model()))
    {
      var active, todo := activeRequests, activeRequests.Keys;
      while todo != {}
        invariant todo <= active.Keys && |handlers| == |old(handlers)|
        invariant forall k {:trigger handlers[k]} :: 0 <= k < |handlers| ==>
          handlers[k] == if old(handlers)[k].id in active.Keys - todo && active[old(handlers)[k].id] == k
                         then old(handlers)[k].(cancelled := true) else old(handlers)[k]
        decreases |todo|
      {
        var id :| id in todo;
        assert active[id] < |old(handlers)| && old(handlers)[active[id]].id == id;
        handlers := handlers[active[id] := handlers[active[id]].(cancelled := true)];
        todo := todo - {id};
      }
      assert handlers == AbortActive(old(handlers), active);
      disconnected := true;
      activeRequests := map[];
    }
  }
}
