/** The two ends of a subscription as the program has them: the request handler's local state on the
    server, the listener's record on the client. */
module Subscription {
  import opened Wrappers
  import opened SubscriptionSpec
  import opened SubscriptionProof

  function Flat(parts: seq<seq<Update>>): seq<Update>
    decreases |parts|
  {
    if parts == [] then [] else Flat(parts[..|parts| - 1]) + parts[|parts| - 1]
  }

  /** `handleRequest` for a subscribe call, with the connection it answers on. */
  class SubscribeRequest {
    var gate: Gate
    var pendingUpdates: seq<Update>
    var encoder: Option<nat>
    var disconnected: bool
    var broken: bool
    var outbox: seq<Message>

    ghost function Model(): Server
      reads this
    {
      Server(gate, pendingUpdates, encoder, disconnected)
    }

    ghost function Wire(): Channel
      reads this
    {
      Channel(outbox, broken)
    }

    constructor ()
      ensures Model() == Server(Idle, [], None, false) && Wire() == Channel([], false)
    {
      gate, pendingUpdates, encoder, disconnected := Idle, [], None, false;
      broken, outbox := false, [];
    }

    method SendMessage(m: Message) returns (sent: bool)
      modifies this`outbox
      ensures Wire() == Send(old(Wire()), disconnected, m)
      ensures sent <==> !disconnected && !broken
    {
      if disconnected || broken {
        return false;
      }
      outbox := outbox + [m];
      return true;
    }

    method SendServiceUpdate(u: Update)
      modifies this`outbox, this`encoder
      ensures (Model(), Wire()) == SendUpdate(old(Model()), old(Wire()), u)
    {
      if encoder.None? {
        return;
      }
      var step := encoder.value;
      encoder := Some(step + 1);
      var _ := SendMessage(Changed(step, u));
    }

    method PublishUpdate(u: Update)
      modifies this
      ensures (Model(), Wire()) == Publish(old(Model()), old(Wire()), u)
    {
      if gate != Passing {
        pendingUpdates := pendingUpdates + [u];
        return;
      }
      SendServiceUpdate(u);
    }

    /** The service call returns with a snapshot, or fails. */
    method InvocationSettles(ok: bool)
      modifies this
      ensures (Model(), Wire()) == Answered(old(Model()), old(Wire()), ok)
    {
      if ok {
        encoder := Some(1);
        gate := Responding;
        var _ := SendMessage(Answer(Some(0)));
      } else {
        gate := Refused;
        var _ := SendMessage(Answer(None));
      }
    }

    /** One turn of the drain loop, from the return of a send to the next one. */
    method SendReturns()
      modifies this
      ensures (Model(), Wire()) == Drain(old(Model()), old(Wire()))
    {
      if |pendingUpdates| > 0 {
        var update := pendingUpdates[0];
        pendingUpdates := pendingUpdates[1..];
        gate := Draining;
        SendServiceUpdate(update);
      } else {
        gate := Passing;
      }
    }

    /** The drain while the connection lasts and more is published: `published[i]` comes in during the
        `i`-th wait, and what is left over once the gate is open. Everything held back and everything
        published goes on the wire, in order. */
    method DrainPending(published: seq<seq<Update>>)
      requires gate == Responding && encoder.Some? && !disconnected && !broken
      modifies this
      ensures gate == Passing && pendingUpdates == []
      ensures Updates(outbox) == Updates(old(outbox)) + old(pendingUpdates) + Flat(published)
      ensures encoder == Some(old(encoder).value + |old(pendingUpdates)| + |Flat(published)|)
      ensures disconnected == old(disconnected) && broken == old(broken)
    {
      var i := 0;
      ghost var sent: seq<Update> := [];
      while gate != Passing || i < |published|
        invariant encoder.Some? && !disconnected && !broken && 0 <= i <= |published|
        invariant gate == Responding || gate == Draining || (gate == Passing && pendingUpdates == [])
        invariant Updates(outbox) == Updates(old(outbox)) + sent
        invariant sent + pendingUpdates == old(pendingUpdates) + Flat(published[..i])
        invariant encoder == Some(old(encoder).value + |sent|)
        decreases |published| - i, |pendingUpdates|, gate != Passing
      {
        if i < |published| {
          sent := PublishAll(published[i], sent);
          assert published[..i + 1][..i] == published[..i];
          i := i + 1;
        }
        if gate != Passing {
          sent := SendNext(sent);
        }
      }
      assert published[..|published|] == published && sent + [] == sent;
      assert Updates(old(outbox)) + sent == Updates(old(outbox)) + old(pendingUpdates) + Flat(published);
    }

    /** The next turn of the drain; what it sends, if anything, is added to `sent`. */
    method SendNext(ghost sent: seq<Update>) returns (ghost sent': seq<Update>)
      requires encoder.Some? && !disconnected && !broken && (gate == Responding || gate == Draining)
      modifies this
      ensures encoder.Some? && !disconnected && !broken
      ensures sent' + pendingUpdates == sent + old(pendingUpdates)
      ensures encoder.value - old(encoder).value == |sent'| - |sent|
      ensures forall wire :: Updates(old(outbox)) == wire + sent ==> Updates(outbox) == wire + sent'
      ensures if old(pendingUpdates) == [] then gate == Passing && pendingUpdates == []
              else gate == Draining && |pendingUpdates| < |old(pendingUpdates)|
    {
      ghost var held := pendingUpdates;
      sent' := if held == [] then sent else sent + [held[0]];
      if |held| > 0 {
        UpdatesAppend(outbox, Changed(encoder.value, held[0]));
        assert held == [held[0]] + held[1..];
        assert sent + [held[0]] + held[1..] == sent + held;
        assert forall wire :: wire + sent + [held[0]] == wire + sent';
      }
      SendReturns();
    }

    /** More is published, one update after the other. */
    method PublishAll(updates: seq<Update>, ghost sent: seq<Update>) returns (ghost sent': seq<Update>)
      requires encoder.Some? && !disconnected && !broken
      requires gate == Responding || gate == Draining || (gate == Passing && pendingUpdates == [])
      modifies this
      ensures encoder.Some? && !disconnected && !broken && gate == old(gate)
      ensures sent' + pendingUpdates == sent + old(pendingUpdates) + updates
      ensures encoder.value - old(encoder).value == |sent'| - |sent|
      ensures forall wire :: Updates(old(outbox)) == wire + sent ==> Updates(outbox) == wire + sent'
      ensures gate == Passing ==> pendingUpdates == []
    {
      sent' := sent;
      for k := 0 to |updates|
        invariant encoder.Some? && !disconnected && !broken && gate == old(gate)
        invariant sent' + pendingUpdates == sent + old(pendingUpdates) + updates[..k]
        invariant encoder.value - old(encoder).value == |sent'| - |sent|
        invariant forall wire :: Updates(old(outbox)) == wire + sent ==> Updates(outbox) == wire + sent'
        invariant gate == Passing ==> pendingUpdates == []
      {
        assert updates[..k + 1] == updates[..k] + [updates[k]];
        ghost var before := sent';
        if gate == Passing {
          UpdatesAppend(outbox, Changed(encoder.value, updates[k]));
          sent' := sent' + [updates[k]];
          assert forall wire :: wire + before + [updates[k]] == wire + sent';
        }
        ghost var held := pendingUpdates;
        PublishUpdate(updates[k]);
        assert sent' + pendingUpdates == before + held + [updates[k]] by {
          assert before + (held + [updates[k]]) == before + held + [updates[k]];
          assert held == [] ==> before + held + [updates[k]] == before + [updates[k]] + held;
        }
        assert before + held + [updates[k]] == sent + old(pendingUpdates) + updates[..k + 1];
      }
      assert updates[..|updates|] == updates;
    }

    /** An unsubscribe call has been carried out. */
    method Unsubscribe()
      modifies this`encoder
      ensures Model() == old(Model()).(encoder := None)
    {
      encoder := None;
    }

    method Disconnect()
      modifies this`encoder, this`disconnected
      ensures Model() == old(Model()).(encoder := None, disconnected := true)
    {
      disconnected := true;
      encoder := None;
    }
  }

  /** The `ActiveServiceListener` together with its place in the client's maps. */
  class ServiceListener {
    var connected: bool
    var registered: bool
    var awaited: bool
    var promise: Promise
    var phase: Phase
    var decoder: Option<nat>
    var ready: bool
    var queuedWireUpdates: seq<Message>
    var queued: seq<Update>
    var deliveryTail: seq<Update>
    var running: bool
    ghost var delivered: seq<Update>
    ghost var broke: bool

    ghost function Model(): Client
      reads this
    {
      Client(connected, registered, awaited, promise, phase, decoder, ready, queuedWireUpdates, queued, deliveryTail,
             running, delivered, broke)
    }

    constructor ()
      ensures Model() == Initial().client
    {
      connected, registered, awaited, promise, phase := true, true, true, Unsettled, Awaiting;
      decoder, ready, queuedWireUpdates, queued, deliveryTail := None, false, [], [], [];
      running, delivered, broke := false, [], false;
    }

    method Disconnect()
      modifies this
      ensures Model() == Disconnected(old(Model()))
    {
      connected, registered, awaited := false, false, false;
      if promise == Unsettled {
        promise := Rejected;
      }
    }

    method FailConnection()
      modifies this
      ensures Model() == Fail(old(Model()))
    {
      broke := true;
      Disconnect();
    }

    /** Decodes queued wire updates until one is out of step. */
    method DecodeQueued(wire: seq<Message>) returns (n: nat)
      modifies this`decoder, this`queued
      ensures n == Decodable(1, wire) && decoder == Some(1 + n) && queued == old(queued) + Updates(wire[..n])
    {
      n := 0;
      decoder := Some(1);
      while n < |wire| && wire[n].Changed? && wire[n].step == decoder.value
        invariant 0 <= n <= |wire| && decoder == Some(1 + n)
        invariant Decodable(1, wire) == n + Decodable(1 + n, wire[n..])
        invariant queued == old(queued) + Updates(wire[..n])
      {
        UpdatesAppend(wire[..n], wire[n]);
        assert wire[..n + 1] == wire[..n] + [wire[n]] && wire[n..][1..] == wire[n + 1..];
        queued := queued + [wire[n].update];
        n := n + 1;
        decoder := Some(1 + n);
      }
    }

    /** The transform of the subscribe request: the snapshot first, then what came before it. */
    method HydrateFrom(snapshot: nat)
      modifies this
      ensures Model() == Hydrate(old(Model()), snapshot)
    {
      if snapshot != 0 {
        FailConnection();
        return;
      }
      var wire := queuedWireUpdates;
      queuedWireUpdates := [];
      var n := DecodeQueued(wire);
      if n < |wire| {
        FailConnection();
      } else if promise == Unsettled {
        promise := Resolved;
      }
    }

    method HandleMessage(m: Message)
      modifies this
      ensures Model() == Receive(old(Model()), m)
    {
      match m {
        case Other =>
        case Changed(step, update) =>
          if !registered {
            return;
          }
          if decoder.None? {
            queuedWireUpdates := queuedWireUpdates + [m];
            return;
          }
          if decoder.value != step {
            FailConnection();
            return;
          }
          decoder := Some(step + 1);
          if ready {
            deliveryTail := deliveryTail + [update];
          } else {
            queued := queued + [update];
          }
        case Answer(snapshot) =>
          if !awaited {
            FailConnection();
            return;
          }
          awaited := false;
          if snapshot.Some? {
            HydrateFrom(snapshot.value);
          } else if promise == Unsettled {
            promise := Rejected;
          }
      }
    }

    /** `subscribeService` goes on once its request has settled. */
    method RequestSettled()
      modifies this
      ensures Model() == Continue(old(Model()))
    {
      if promise == Resolved && registered {
        phase := Subscribed;
      } else {
        registered := false;
        phase := Failed;
      }
    }

    method StartDelivery()
      modifies this
      ensures Model() == Start(old(Model()))
    {
      if phase != Subscribed || ready {
        return;
      }
      ready := true;
      var updates := queued;
      queued := [];
      var i := 0;
      while i < |updates|
        invariant 0 <= i <= |updates|
        invariant deliveryTail == old(deliveryTail) + updates[..i]
        invariant Model() == old(Model()).(ready := true, queued := [], tail := deliveryTail)
      {
        deliveryTail := deliveryTail + [updates[i]];
        i := i + 1;
      }
      assert updates[..i] == updates;
    }

    method Abort()
      modifies this`promise
      ensures Model() == old(Model()).(promise := Settle(old(promise), Rejected))
    {
      if promise == Unsettled {
        promise := Rejected;
      }
    }

    /** `dispose` up to its first await: from here on updates are ignored. */
    method Dispose()
      requires phase == Subscribed
      modifies this`phase, this`registered
      ensures Model() == old(Model()).(phase := Disposing, registered := false)
    {
      registered := false;
      phase := Disposing;
    }

    method DisposeSettled()
      requires phase == Disposing
      modifies this`phase, this`queuedWireUpdates, this`queued
      ensures Model() == old(Model()).(phase := Disposed, queuedWire := [], queued := [])
    {
      queuedWireUpdates, queued := [], [];
      phase := Disposed;
    }

    /** The delivery chain reaches its next update. */
    method CallListener() returns (update: Update)
      requires deliveryTail != [] && !running
      modifies this`deliveryTail, this`running, this`delivered
      ensures update == old(deliveryTail)[0]
      ensures Model() == old(Model()).(delivered := old(delivered) + [update], tail := old(deliveryTail)[1..], running := true)
    {
      update := deliveryTail[0];
      deliveryTail := deliveryTail[1..];
      delivered := delivered + [update];
      running := true;
    }
  }
}
