/** What a subscriber can rely on, whatever the interleaving. */
module SubscriptionTheorems {
  import opened Wrappers
  import opened SubscriptionSpec
  import opened SubscriptionProof

  /** The listener is called with a prefix of what the provider published, in order and without
      repetition; and no message is ever undecodable or unexpected. */
  lemma DeliveredIsAPrefix(events: seq<Event>, s: System)
    requires Reaches(events, s)
    ensures s.client.delivered <= s.client.delivered + s.client.tail + s.client.queued <= s.published
    ensures !s.client.broke
  {
    ReachedKeepsInv(events, s);
  }

  /** While connection and subscription are intact every published update is accounted for: delivered,
      about to be, on the channel, or held back by the server; in that order. */
  lemma NothingIsLost(events: seq<Event>, s: System)
    requires Reaches(events, s) && Intact(s)
    ensures s.published == s.client.delivered + s.client.tail + s.client.queued
                           + Updates(s.channel.messages) + s.server.pending
  {
    ReachedKeepsInv(events, s);
  }

  /** So once nothing is under way the listener has seen everything. */
  lemma QuietMeansComplete(events: seq<Event>, s: System)
    requires Reaches(events, s) && Intact(s) && s.client.ready
    requires s.client.tail == [] && s.channel.messages == [] && s.server.gate == Passing
    ensures s.client.delivered == s.published
  {
    ReachedKeepsInv(events, s);
  }

  /** Encoder and decoder stay in step: the decoder expects exactly the first message on the channel
      and, after the last one there, the message the encoder would produce next. */
  lemma DecoderFollowsEncoder(events: seq<Event>, s: System)
    requires Reaches(events, s) && Intact(s) && s.client.decoder.Some? && s.server.encoder.Some?
    ensures s.server.encoder.value == s.client.decoder.value + |Updates(s.channel.messages)|
    ensures s.channel.messages != [] && s.channel.messages[0].Changed? ==>
              s.channel.messages[0].step == s.client.decoder.value
    ensures s.channel.messages != [] ==> !s.channel.messages[0].Answer?
  {
    ReachedKeepsInv(events, s);
  }

  /** The listener hears nothing before `start`, and `start` comes after the snapshot. */
  lemma NothingBeforeStart(events: seq<Event>, s: System)
    requires Reaches(events, s) && s.client.delivered != []
    ensures Started in events && s.client.decoder.Some?
  {
    ReachedKeepsInv(events, s);
    ReadyOnlyByStart(Initial(), events, s);
  }

  lemma ReadyByStart(s: System, e: Event)
    requires Enabled(s, e) && !s.client.ready && Next(s, e).client.ready
    ensures e == Started
  {
    hide Updates, Decodable;
  }

  lemma {:induction false} ReadyOnlyByStart(s: System, events: seq<Event>, t: System)
    requires Execute(s, events) == Some(t) && !s.client.ready && t.client.ready
    ensures Started in events
    decreases |events|
  {
    hide Next, Enabled;
    if events != [] {
      if Next(s, events[0]).client.ready {
        ReadyByStart(s, events[0]);
      } else {
        ReadyOnlyByStart(Next(s, events[0]), events[1..], t);
      }
    }
  }

  // ---- the hydration queue ---------------------------------------------------------------------

  function ReceiveAll(c: Client, messages: seq<Message>): Client
    decreases |messages|
  {
    if messages == [] then c else ReceiveAll(Receive(c, messages[0]), messages[1..])
  }

  /** Consecutive steps of one encoder. */
  predicate InStep(wire: seq<Message>, step: nat) {
    forall i {:trigger wire[i]} :: 0 <= i < |wire| ==> wire[i].Changed? && wire[i].step == step + i
  }

  predicate Fresh(c: Client) {
    c.connected && c.registered && c.awaited && c.promise == Unsettled && c.decoder.None? && !c.ready
    && c.queuedWire == [] && c.queued == []
  }

  lemma {:induction false} QueuedUntilHydrated(c: Client, wire: seq<Message>, step: nat)
    requires c.registered && c.decoder.None? && InStep(wire, step)
    ensures ReceiveAll(c, wire) == c.(queuedWire := c.queuedWire + wire)
    decreases |wire|
  {
    if wire != [] {
      QueuedUntilHydrated(Receive(c, wire[0]), wire[1..], step + 1);
      assert c.queuedWire + [wire[0]] + wire[1..] == c.queuedWire + wire;
    } else {
      assert c.queuedWire + wire == c.queuedWire;
    }
  }

  lemma {:induction false} DecodedOneByOne(c: Client, wire: seq<Message>, step: nat)
    requires c.registered && !c.ready && c.decoder == Some(step) && InStep(wire, step)
    ensures ReceiveAll(c, wire) == c.(decoder := Some(step + |wire|), queued := c.queued + Updates(wire))
    decreases |wire|
  {
    if wire != [] {
      var next := c.(decoder := Some(step + 1), queued := c.queued + [wire[0].update]);
      assert Receive(c, wire[0]) == next;
      assert Updates(wire) == [wire[0].update] + Updates(wire[1..]);
      hide Receive, Updates;
      DecodedOneByOne(next, wire[1..], step + 1);
      assert next.queued + Updates(wire[1..]) == c.queued + Updates(wire);
    } else {
      assert c.queued + Updates(wire) == c.queued;
    }
  }

  lemma {:induction false} AllDecodable(wire: seq<Message>, step: nat)
    requires InStep(wire, step)
    ensures Decodable(step, wire) == |wire|
    decreases |wire|
  {
    if wire != [] {
      AllDecodable(wire[1..], step + 1);
    }
  }

  lemma {:induction false} UpdatesConcat(a: seq<Message>, b: seq<Message>)
    ensures Updates(a + b) == Updates(a) + Updates(b)
    decreases |a|
  {
    if a == [] {
      assert a + b == b;
    } else {
      var head := if a[0].Changed? then [a[0].update] else [];
      assert (a + b)[1..] == a[1..] + b && (a + b)[0] == a[0];
      UpdatesConcat(a[1..], b);
      assert head + (Updates(a[1..]) + Updates(b)) == head + Updates(a[1..]) + Updates(b);
    }
  }

  lemma AnswerHydrates(c: Client, early: seq<Message>)
    requires Fresh(c) && InStep(early, 1)
    ensures Receive(ReceiveAll(c, early), Answer(Some(0)))
         == c.(awaited := false, promise := Resolved, decoder := Some(1 + |early|), queued := Updates(early))
  {
    hide ReceiveAll, Decodable, Updates;
    QueuedUntilHydrated(c, early, 1);
    AllDecodable(early, 1);
    assert [] + early == early && early[..|early|] == early && [] + Updates(early) == Updates(early);
  }

  lemma InStepSplits(early: seq<Message>, late: seq<Message>, step: nat)
    requires InStep(early + late, step)
    ensures InStep(early, step) && InStep(late, step + |early|)
  {
    forall i | 0 <= i < |early| ensures early[i].Changed? && early[i].step == step + i {
      assert (early + late)[i] == early[i];
    }
    forall i | 0 <= i < |late| ensures late[i].Changed? && late[i].step == step + |early| + i {
      assert (early + late)[|early| + i] == late[i];
    }
  }

  lemma AnswerInTheMiddle(c: Client, early: seq<Message>, late: seq<Message>)
    requires Fresh(c) && InStep(early + late, 1)
    ensures ReceiveAll(Receive(ReceiveAll(c, early), Answer(Some(0))), late)
         == c.(awaited := false, promise := Resolved, decoder := Some(1 + |early| + |late|),
               queued := Updates(early + late))
  {
    hide ReceiveAll, Receive, InStep, Updates;
    InStepSplits(early, late, 1);
    AnswerHydrates(c, early);
    UpdatesConcat(early, late);
    var hydrated := c.(awaited := false, promise := Resolved, decoder := Some(1 + |early|), queued := Updates(early));
    DecodedOneByOne(hydrated, late, 1 + |early|);
  }

  lemma AnswerFirst(c: Client, wire: seq<Message>)
    requires Fresh(c) && InStep(wire, 1)
    ensures ReceiveAll(Receive(c, Answer(Some(0))), wire)
         == c.(awaited := false, promise := Resolved, decoder := Some(1 + |wire|), queued := Updates(wire))
  {
    var hydrated := c.(awaited := false, promise := Resolved, decoder := Some(1), queued := []);
    assert Receive(c, Answer(Some(0))) == hydrated;
    hide ReceiveAll, Receive, InStep, Updates;
    DecodedOneByOne(hydrated, wire, 1);
    assert [] + Updates(wire) == Updates(wire);
  }

  /** A client that gets some updates before the answer ends up exactly where it would have if the
      answer had come first. */
  lemma EarlyUpdatesWait(c: Client, early: seq<Message>, late: seq<Message>)
    requires Fresh(c) && InStep(early + late, 1)
    ensures ReceiveAll(Receive(ReceiveAll(c, early), Answer(Some(0))), late)
         == ReceiveAll(Receive(c, Answer(Some(0))), early + late)
         == c.(awaited := false, promise := Resolved, decoder := Some(1 + |early| + |late|),
               queued := Updates(early + late))
  {
    hide ReceiveAll, Receive, InStep, Updates, Fresh;
    AnswerInTheMiddle(c, early, late);
    AnswerFirst(c, early + late);
  }
}
