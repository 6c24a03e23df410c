/** A router that is closing, and a client that is disconnecting, get nothing new. */
module SessionRouterDraining {
  import opened Wrappers
  import opened SessionRouterSpec
  import opened SessionRouterProof
  import opened SessionRouterTheorems
  import opened SessionRouterHistory
  import opened SessionRouterCalls
  import opened SessionRouterRemovals

  /** From `s` to `t` the client has gained no attachment and no call of its was delivered. */
  predicate GainsNothing(s: Router, t: Router, c: ClientId) {
    && (s.closing ==> t.closing) && |s.operations| <= |t.operations|
    && (forall o {:trigger t.operations[o]} :: 0 <= o < |s.operations| ==> t.operations[o].client == s.operations[o].client)
    && (c in t.attachmentsByClient ==> c in s.attachmentsByClient && t.attachmentsByClient[c] == s.attachmentsByClient[c])
    && s.deliveries <= t.deliveries
    && (forall i {:trigger t.deliveries[i]} :: |s.deliveries| <= i < |t.deliveries| ==>
          t.deliveries[i].call < |t.operations| && t.operations[t.deliveries[i].call].client != c)
  }

  /** Deliveries grow only by a call that is admitted, and no call of a barred client is. */
  lemma DeliversNothing(s: Router, e: Event, c: ClientId)
    requires Inv(s) && Enabled(s, e) && Barred(s, c)
    ensures var t := Next(s, e);
            && s.deliveries <= t.deliveries
            && forall i {:trigger t.deliveries[i]} :: |s.deliveries| <= i < |t.deliveries| ==>
                 t.deliveries[i].call < |s.operations| && s.operations[t.deliveries[i].call].client != c
  {
    InvGivesRefs(s);
    if e.Start? && s.operations[e.op].kind.Call? {
      hide Inv, Refs, Next, Barred;
      StartIsNext(s, e.op);
      CallStep(s, e.op);
    } else if e.Start? {
      hide Inv, Refs, Next, Barred;
      StartIsNext(s, e.op);
      StartKeepsDeliveries(s, e.op);
    } else {
      hide Inv, Refs, Next, Enabled, Barred;
      UntouchedFields(s, e);
    }
  }

  /** The client map takes a new entry only for a client that is not barred. */
  lemma AttachesNothing(s: Router, e: Event, c: ClientId)
    requires Inv(s) && Enabled(s, e) && Barred(s, c)
    ensures c in Next(s, e).attachmentsByClient ==>
              c in s.attachmentsByClient && Next(s, e).attachmentsByClient[c] == s.attachmentsByClient[c]
  {
    InvGivesRefs(s);
    if e.LeaseArrives? {
      ArrivalAttachesNothing(s, e.op, c);
    } else if e.CloseHandlesSettled? {
      CompletionEmptiesMap(s, e.failed);
    } else {
      hide Inv, Refs, Next, Enabled, Barred;
      UntouchedFields(s, e);
      if e.LeaseForRelease? || e.ReleaseSettles? {
        ClearShrinksMap(s, e);
      }
    }
  }

  lemma ArrivalAttachesNothing(s: Router, o: OperationId, c: ClientId)
    requires Inv(s) && Enabled(s, LeaseArrives(o)) && Barred(s, c)
    ensures Refs(s)
    ensures var t := Next(s, LeaseArrives(o));
            c in t.attachmentsByClient ==> c in s.attachmentsByClient && t.attachmentsByClient[c] == s.attachmentsByClient[c]
  {
    var a := s.operations[o].step.attachment;
    HandleInRange(s, a);
    InvGivesRefs(s);
    ArrivingShape(s, o, a);
    hide Inv, Refs, ArriveLease, Barred, IsHosted;
  }

  /** While the router is closing or the client disconnecting, no step attaches the client to anything or
      delivers a call of its. */
  lemma BarredClientGainsNothing(s: Router, e: Event, c: ClientId)
    requires Inv(s) && Enabled(s, e) && Barred(s, c)
    ensures GainsNothing(s, Next(s, e), c)
  {
    StepContinues(s, e);
    UntouchedFields(s, e);
    DeliversNothing(s, e, c);
    AttachesNothing(s, e, c);
    InvGivesRefs(s);
    assert e.BeginClosing? ==> Next(s, e).closing;
    hide Inv, Refs, Next, Enabled, Barred, AttachmentsContinue, HandlesContinue, RemovalsContinue, Local;
  }

  lemma GainsNothingTwice(s: Router, t: Router, u: Router, c: ClientId)
    requires GainsNothing(s, t, c) && GainsNothing(t, u, c)
    ensures GainsNothing(s, u, c)
  {
    forall i | |s.deliveries| <= i < |u.deliveries|
      ensures u.deliveries[i].call < |u.operations| && u.operations[u.deliveries[i].call].client != c
    {
      if i < |t.deliveries| {
        assert u.deliveries[i] == t.deliveries[i];
      }
    }
  }

  /** Once closing has begun no client is attached to anything any more and no call is delivered, however
      the operations and opens already under way turn out. */
  lemma {:induction false} ClosingAdmitsNothing(s: Router, events: seq<Event>, t: Router, c: ClientId)
    requires Inv(s) && s.closing && Execute(s, events) == Some(t)
    ensures GainsNothing(s, t, c) && t.closing
    decreases |events|
  {
    hide Inv, Next, Enabled;
    if events != [] {
      Preserved(s, events[0]);
      BarredClientGainsNothing(s, events[0], c);
      ClosingAdmitsNothing(Next(s, events[0]), events[1..], t, c);
      GainsNothingTwice(s, Next(s, events[0]), t, c);
    }
  }
}
