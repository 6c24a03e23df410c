/** What a consumer of a proxied reply is told, in terms of the lines that came. */
module ProxyHistory {
  import opened Wrappers
  import opened ProxyStream

  // ---- lines -----------------------------------------------------------------------------------

  /** Lines with a newline between each two. */
  function Unsplit(lines: seq<string>): string
    decreases |lines|
  {
    if lines == [] then ""
    else if |lines| == 1 then lines[0]
    else Unsplit(lines[..|lines| - 1]) + "\n" + lines[|lines| - 1]
  }

  predicate Unbroken(lines: seq<string>) {
    forall i :: 0 <= i < |lines| ==> '\n' !in lines[i]
  }

  lemma OneMoreCharacter(front: seq<string>, last: string, c: char)
    ensures var longer := if c == '\n' then front + [last] + [""] else front + [last + [c]];
            && Unsplit(longer) == Unsplit(front + [last]) + [c]
            && (Unbroken(front + [last]) ==> Unbroken(longer))
  {
    if c == '\n' {
      assert (front + [last] + [""])[..|front| + 1] == front + [last];
      assert Unsplit(front + [last]) + "\n" + "" == Unsplit(front + [last]) + [c];
    } else {
      UnsplitLonger(front, last, c);
      assert (front + [last])[|front|] == last;
      hide Unsplit;
      forall i | Unbroken(front + [last]) && 0 <= i < |front| + 1 ensures '\n' !in (front + [last + [c]])[i] {
        assert i < |front| ==> (front + [last + [c]])[i] == (front + [last])[i];
      }
    }
  }

  /** No line holds a newline, and putting them back between the lines gives the text. */
  lemma {:induction false} LinesOfAText(text: string)
    ensures Unsplit(Split(text)) == text && Unbroken(Split(text))
    decreases |text|
  {
    if text != "" {
      hide Unsplit, Unbroken;
      var t, c := text[..|text| - 1], text[|text| - 1];
      assert text == t + [c];
      LinesOfAText(t);
      SplitSnoc(t, c);
      SplitParts(t);
      hide Split;
      OneMoreCharacter(Complete(t), Rest(t), c);
    }
  }

  lemma UnsplitLonger(front: seq<string>, last: string, c: char)
    ensures Unsplit(front + [last + [c]]) == Unsplit(front + [last]) + [c]
  {
    assert (front + [last + [c]])[..|front|] == front && (front + [last])[..|front|] == front;
    if front != [] {
      assert Unsplit(front) + "\n" + (last + [c]) == Unsplit(front) + "\n" + last + [c];
    }
  }

  // ---- from lines to events --------------------------------------------------------------------

  /** The events of the lines, up to the first line that cannot be read. */
  function EventsOf(lines: seq<string>, parse: string -> Parsed): seq<ProxyEvent> {
    if lines == [] || parse(lines[0]).Unreadable? then []
    else (if parse(lines[0]).Event? then [parse(lines[0]).event] else []) + EventsOf(lines[1..], parse)
  }

  predicate AllReadable(lines: seq<string>, parse: string -> Parsed) {
    forall i :: 0 <= i < |lines| ==> !parse(lines[i]).Unreadable?
  }

  /** As `ProcessEvents`, from the first event on. */
  function Follow(s: State, events: seq<ProxyEvent>): State
    decreases |events|
  {
    if s.threw || events == [] then s else Follow(Process(s, events[0]), events[1..])
  }

  lemma {:induction false} FollowMore(s: State, events: seq<ProxyEvent>, e: ProxyEvent)
    ensures Follow(s, events + [e]) == var t := Follow(s, events); if t.threw then t else Process(t, e)
    decreases |events|
  {
    hide Process;
    if events == [] || s.threw {
      assert (events + [e])[1..] == if events == [] then [] else events[1..] + [e];
      if events == [] && !s.threw {
        assert Follow(Process(s, e), []) == Process(s, e);
      }
    } else {
      assert (events + [e])[1..] == events[1..] + [e];
      FollowMore(Process(s, events[0]), events[1..], e);
    }
  }

  lemma {:induction false} FollowsEvents(s: State, events: seq<ProxyEvent>)
    requires !s.threw
    ensures Follow(s, events) == ProcessEvents(s, events)
    decreases |events|
  {
    hide Process;
    if events != [] {
      var front, last := events[..|events| - 1], events[|events| - 1];
      assert events == front + [last];
      FollowsEvents(s, front);
      FollowMore(s, front, last);
    }
  }

  lemma {:induction false} LinesFollow(s: State, lines: seq<string>, parse: string -> Parsed)
    requires !s.threw
    ensures var t := Follow(s, EventsOf(lines, parse));
            ProcessLines(s, lines, parse) == if AllReadable(lines, parse) then t else t.(threw := true)
    decreases |lines|
  {
    hide Process;
    if lines != [] {
      var first, rest := lines[0], lines[1..];
      assert lines == [first] + rest;
      ProcessMoreLines(s, [first], rest, parse);
      assert ProcessLines(s, [], parse) == s;
      assert [first][..0] == [];
      assert ProcessLines(s, [first], parse) == ProcessLine(s, first, parse);
      assert AllReadable(lines, parse) <==> !parse(first).Unreadable? && AllReadable(rest, parse) by {
        if !parse(first).Unreadable? && AllReadable(rest, parse) {
          forall i | 0 <= i < |lines| ensures !parse(lines[i]).Unreadable? {
            if i > 0 { assert lines[i] == rest[i - 1]; }
          }
        }
        if AllReadable(lines, parse) {
          assert !parse(lines[0]).Unreadable?;
          forall i | 0 <= i < |rest| ensures !parse(rest[i]).Unreadable? {
            assert rest[i] == lines[i + 1];
          }
        }
      }
      var t := ProcessLine(s, first, parse);
      match parse(first) {
        case Unreadable => ThrownStays(t, rest, parse);
        case Ignored =>
          assert [] + EventsOf(rest, parse) == EventsOf(rest, parse);
          LinesFollow(s, rest, parse);
        case Event(e) =>
          assert ([e] + EventsOf(rest, parse))[1..] == EventsOf(rest, parse);
          if t.threw {
            ThrownStays(t, rest, parse);
          } else {
            LinesFollow(t, rest, parse);
          }
      }
    }
  }

  /** The lines of a reply do what their events do one after the other, up to the first that throws or the
      first line that cannot be read, which throws as well. */
  lemma LinesAreEvents(lines: seq<string>, parse: string -> Parsed)
    ensures var t := ProcessEvents(Initial(), EventsOf(lines, parse));
            ProcessLines(Initial(), lines, parse) == if AllReadable(lines, parse) then t else t.(threw := true)
  {
    LinesFollow(Initial(), lines, parse);
    FollowsEvents(Initial(), EventsOf(lines, parse));
  }

  // ---- what is told ----------------------------------------------------------------------------

  /** The event comes for a block whose latest start was not of its kind. */
  predicate Misplaced(before: seq<ProxyEvent>, e: ProxyEvent) {
    (e.BlockDelta? || e.BlockEnd?) && !HasStart(before, e.kind, e.index)
  }

  /** A misplaced event throws, but for the end of a tool call, which is passed over. */
  predicate Throws(before: seq<ProxyEvent>, e: ProxyEvent) {
    Misplaced(before, e) && !(e.BlockEnd? && e.kind.ToolCall?)
  }

  /** The events that were not misplaced, each as it is. */
  function Told(events: seq<ProxyEvent>): seq<Pushed>
    decreases |events|
  {
    if events == [] then []
    else
      var before, e := events[..|events| - 1], events[|events| - 1];
      Told(before) + if Misplaced(before, e) then [] else [Forwarded(e)]
  }

  predicate NoneThrows(events: seq<ProxyEvent>) {
    forall i :: 0 <= i < |events| ==> !Throws(events[..i], events[i])
  }

  lemma {:induction false} ToldUnlessThrown(events: seq<ProxyEvent>)
    requires NoneThrows(events)
    ensures var s := ProcessEvents(Initial(), events);
            && !s.threw && s.pushed == Told(events)
            && (s.sawTerminal <==> exists i :: 0 <= i < |s.pushed| && s.pushed[i].Terminal())
    decreases |events|
  {
    hide HasStart;
    if events != [] {
      var n := |events| - 1;
      var before, e := events[..n], events[n];
      assert events == before + [e];
      assert NoneThrows(before) by {
        forall i | 0 <= i < n ensures !Throws(before[..i], before[i]) {
          assert before[..i] == events[..i];
        }
      }
      ToldUnlessThrown(before);
      assert !Throws(events[..n], events[n]);
      ThrowsIff(before, e);
      var s, t := ProcessEvents(Initial(), before), ProcessEvents(Initial(), events);
      assert t == Process(s, e);
      if e.BlockDelta? || e.BlockEnd? {
        HeldIffStarted(before, e.kind, e.index);
      }
      TerminalNext(s, t, e);
    }
  }

  lemma TerminalNext(s: State, t: State, e: ProxyEvent)
    requires t == Process(s, e) && !t.threw
    requires s.sawTerminal <==> exists i :: 0 <= i < |s.pushed| && s.pushed[i].Terminal()
    ensures t.sawTerminal <==> exists i :: 0 <= i < |t.pushed| && t.pushed[i].Terminal()
  {
    if s.sawTerminal {
      var i :| 0 <= i < |s.pushed| && s.pushed[i].Terminal();
      assert t.pushed[i].Terminal();
    } else if t.sawTerminal {
      assert t.pushed[|t.pushed| - 1].Terminal();
    }
    if exists i :: 0 <= i < |t.pushed| && t.pushed[i].Terminal() {
      var i :| 0 <= i < |t.pushed| && t.pushed[i].Terminal();
      assert i < |s.pushed| ==> s.pushed[i] == t.pushed[i];
    }
  }

  lemma {:induction false} NothingAfterAThrow(events: seq<ProxyEvent>, k: nat)
    requires k < |events| && ProcessEvents(Initial(), events[..k + 1]).threw
    ensures ProcessEvents(Initial(), events) == ProcessEvents(Initial(), events[..k + 1])
    decreases |events|
  {
    hide Process;
    if k == |events| - 1 {
      assert events[..k + 1] == events;
    } else {
      var front := events[..|events| - 1];
      assert front[..k + 1] == events[..k + 1];
      NothingAfterAThrow(front, k);
    }
  }

  /** `k` is the number of events before the first that throws. */
  predicate FirstThrow(events: seq<ProxyEvent>, k: nat) {
    k <= |events| && NoneThrows(events[..k]) && (k < |events| ==> Throws(events[..k], events[k]))
  }

  lemma OneMoreThrowsNot(before: seq<ProxyEvent>, e: ProxyEvent)
    requires NoneThrows(before) && !Throws(before, e)
    ensures NoneThrows(before + [e])
  {
    hide Throws;
    var events := before + [e];
    forall i | 0 <= i < |events| ensures !Throws(events[..i], events[i]) {
      if i < |before| {
        assert before[..i] == events[..i];
      } else {
        assert events[..i] == before;
      }
    }
  }

  lemma FirstThrowExists(events: seq<ProxyEvent>) returns (k: nat)
    ensures FirstThrow(events, k)
  {
    k := 0;
    while k < |events| && !Throws(events[..k], events[k])
      invariant k <= |events| && NoneThrows(events[..k])
    {
      assert events[..k + 1] == events[..k] + [events[k]];
      OneMoreThrowsNot(events[..k], events[k]);
      k := k + 1;
    }
  }

  /** A run throws exactly if some event throws, and the consumer has been told everything before the first
      such event but misplaced ends of tool calls, in order, and nothing after it. */
  lemma ToldUntilFirstThrow(events: seq<ProxyEvent>, k: nat)
    requires FirstThrow(events, k)
    ensures var s := ProcessEvents(Initial(), events);
            && (s.threw <==> k < |events|) && s.pushed == Told(events[..k])
            && (s.sawTerminal <==> exists i :: 0 <= i < |s.pushed| && s.pushed[i].Terminal())
  {
    hide HasStart, Told;
    ToldUnlessThrown(events[..k]);
    if k == |events| {
      assert events[..k] == events;
    } else {
      assert events[..k + 1] == events[..k] + [events[k]];
      ThrowsIff(events[..k], events[k]);
      assert events[..k + 1][..k] == events[..k];
      NothingAfterAThrow(events, k);
    }
  }

  /** A reply read to its end: the consumer is told the events of its lines up to the first that throws,
      and an error follows exactly if one throws, a line cannot be read, or none of those told was the last
      of a reply. */
  lemma ReplyIsTold(lines: seq<string>, parse: string -> Parsed, k: nat)
    requires FirstThrow(EventsOf(lines, parse), k)
    ensures var told := Told(EventsOf(lines, parse)[..k]);
            Finish(ProcessLines(Initial(), lines, parse)).pushed
              == told + if k == |EventsOf(lines, parse)| && AllReadable(lines, parse)
                           && exists i :: 0 <= i < |told| && told[i].Terminal()
                        then [] else [Failed(false)]
  {
    hide ProcessLines, ProcessEvents, Throws, Told, EventsOf;
    LinesAreEvents(lines, parse);
    ToldUntilFirstThrow(EventsOf(lines, parse), k);
  }

  // ---- a tool call that goes on after its end --------------------------------------------------

  predicate HasDelta(events: seq<ProxyEvent>, index: nat) {
    exists i :: 0 <= i < |events| && events[i].BlockDelta? && events[i].index == index
  }

  /** Once a tool call has ended its JSON is gone; deltas that come nevertheless are added to the word for
      a missing value. */
  lemma {:induction false} JsonAfterItsEnd(events: seq<ProxyEvent>, end: nat, index: nat)
    requires end < |events| && events[end] == BlockEnd(ToolCall, index)
    requires HasStart(events[..end], ToolCall, index)
    requires forall i :: end < i < |events| ==> !Opens(events[i], index) && events[i] != BlockEnd(ToolCall, index)
    requires !ProcessEvents(Initial(), events).threw
    ensures var s := ProcessEvents(Initial(), events);
            var later := events[end + 1..];
            index in s.content
            && s.content[index] == Block(ToolCall, Resumed(later, index))
    decreases |events|
  {
    hide HasStart;
    var n := |events| - 1;
    var front, last := events[..n], events[n];
    var before := ProcessEvents(Initial(), front);
    assert ProcessEvents(Initial(), events) == Process(before, last);
    if end == n {
      assert events[..end] == front;
      HeldIffStarted(front, ToolCall, index);
      assert events[end + 1..] == [];
    } else {
      hide ProcessEvents, Process, Resumed;
      assert front[..end] == events[..end];
      assert forall i :: end < i < n ==> front[i] == events[i];
      JsonAfterItsEnd(front, end, index);
      assert events[end + 1..] == front[end + 1..] + [last];
      AfterEndStep(before, last, index, Resumed(front[end + 1..], index));
      ResumedNext(front[end + 1..], last, index);
    }
  }

  /** The JSON of a tool call after its end, if these events have come for it since. */
  function Resumed(events: seq<ProxyEvent>, index: nat): Option<string> {
    if HasDelta(events, index) then Some("undefined" + Deltas(events, index)) else None
  }

  lemma HasDeltaNext(events: seq<ProxyEvent>, last: ProxyEvent, index: nat)
    ensures HasDelta(events + [last], index) <==> HasDelta(events, index) || (last.BlockDelta? && last.index == index)
  {
    var later := events + [last];
    if HasDelta(events, index) {
      var i :| 0 <= i < |events| && events[i].BlockDelta? && events[i].index == index;
      assert later[i] == events[i];
    }
    if last.BlockDelta? && last.index == index {
      assert later[|events|] == last;
    }
    if HasDelta(later, index) {
      var i :| 0 <= i < |later| && later[i].BlockDelta? && later[i].index == index;
      assert i < |events| ==> later[i] == events[i];
    }
  }

  lemma MoreDeltas(events: seq<ProxyEvent>, last: ProxyEvent, index: nat)
    ensures Deltas(events + [last], index) == Deltas(events, index) + if last.BlockDelta? && last.index == index then last.delta else ""
  {
    assert (events + [last])[..|events|] == events;
  }

  lemma ResumedNext(events: seq<ProxyEvent>, last: ProxyEvent, index: nat)
    ensures Resumed(events + [last], index)
         == if last.BlockDelta? && last.index == index then
              Some((if Resumed(events, index).Some? then Resumed(events, index).value else "undefined") + last.delta)
            else Resumed(events, index)
  {
    hide HasDelta, Deltas;
    HasDeltaNext(events, last, index);
    MoreDeltas(events, last, index);
    if !HasDelta(events, index) {
      NoDeltas(events, index);
    }
    if last.BlockDelta? && last.index == index {
      assert "undefined" + (Deltas(events, index) + last.delta) == "undefined" + Deltas(events, index) + last.delta;
      assert "" + last.delta == last.delta;
    } else {
      assert Deltas(events, index) + "" == Deltas(events, index);
    }
  }

  lemma AfterEndStep(before: State, last: ProxyEvent, index: nat, text: Option<string>)
    requires !Opens(last, index) && last != BlockEnd(ToolCall, index) && !Process(before, last).threw
    requires index in before.content && before.content[index] == Block(ToolCall, text)
    ensures var s := Process(before, last);
            index in s.content
            && s.content[index] == Block(ToolCall, if last.BlockDelta? && last.index == index then
                                                     Some((if text.Some? then text.value else "undefined") + last.delta)
                                                   else text)
  {
  }

  lemma {:induction false} NoDeltas(events: seq<ProxyEvent>, index: nat)
    requires !HasDelta(events, index)
    ensures Deltas(events, index) == ""
    decreases |events|
  {
    if events != [] {
      var n := |events| - 1;
      assert events == events[..n] + [events[n]];
      HasDeltaNext(events[..n], events[n], index);
      hide HasDelta;
      NoDeltas(events[..n], index);
    }
  }
}
