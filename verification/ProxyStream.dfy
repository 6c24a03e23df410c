/** Reading a proxied reply: lines put together from chunks, and a message put together from deltas. */
module ProxyStream {
  import opened Wrappers

  // ---- lines -----------------------------------------------------------------------------------

  function Join(chunks: seq<string>): string
    decreases |chunks|
  {
    if chunks == [] then "" else Join(chunks[..|chunks| - 1]) + chunks[|chunks| - 1]
  }

  /** `text.split("\n")` */
  function Split(text: string): (lines: seq<string>)
    ensures lines != []
    decreases |text|
  {
    if text == "" then [""]
    else
      var before, c := Split(text[..|text| - 1]), text[|text| - 1];
      var last := |before| - 1;
      if c == '\n' then before + [""] else before[..last] + [before[last] + [c]]
  }

  /** The lines of a text that a newline ends. */
  function Complete(text: string): seq<string> {
    Split(text)[..|Split(text)| - 1]
  }

  /** What follows the last newline. */
  function Rest(text: string): string {
    Split(text)[|Split(text)| - 1]
  }

  /** The lines to process: those a newline ends, and what is left over unless it is empty. */
  function LinesOf(text: string): seq<string> {
    Complete(text) + if Rest(text) == "" then [] else [Rest(text)]
  }

  lemma SplitSnoc(t: string, c: char)
    ensures Split(t + [c]) == if c == '\n' then Split(t) + [""] else Complete(t) + [Rest(t) + [c]]
  {
    assert (t + [c])[..|t|] == t;
  }

  lemma SplitParts(t: string)
    ensures Split(t) == Complete(t) + [Rest(t)]
  {
  }

  /** Splitting what is left over together with what comes next continues the lines where they stopped. */
  lemma {:induction false} SplitContinues(a: string, b: string)
    ensures Split(a + b) == Complete(a) + Split(Rest(a) + b)
    decreases |b|
  {
    hide Split;
    if b == "" {
      assert a + b == a && Rest(a) + b == Rest(a);
      RestIsOneLine(a);
      SplitParts(a);
    } else {
      var front, c := b[..|b| - 1], b[|b| - 1];
      SplitContinues(a, front);
      assert a + b == a + front + [c] && Rest(a) + b == Rest(a) + front + [c];
      SplitSnoc(a + front, c);
      SplitSnoc(Rest(a) + front, c);
      var tail, whole := Split(Rest(a) + front), Split(a + front);
      assert whole[|whole| - 1] == tail[|tail| - 1];
      assert whole[..|whole| - 1] == Complete(a) + tail[..|tail| - 1];
    }
  }

  lemma {:induction false} RestIsOneLine(a: string)
    ensures Split(Rest(a)) == [Rest(a)]
    decreases |a|
  {
    if a != "" {
      var front, c := a[..|a| - 1], a[|a| - 1];
      RestIsOneLine(front);
      if c != '\n' {
        assert Rest(a) == Rest(front) + [c];
        assert Rest(a)[..|Rest(front)|] == Rest(front);
      } else {
        assert Rest(a) == "";
      }
    }
  }

  lemma NextChunk(a: string, b: string)
    ensures Complete(a + b) == Complete(a) + Complete(Rest(a) + b)
    ensures Rest(a + b) == Rest(Rest(a) + b)
  {
    SplitContinues(a, b);
  }

  // ---- events ----------------------------------------------------------------------------------

  datatype Kind = Text | Thinking | ToolCall

  datatype ProxyEvent =
    | Start
    | BlockStart(kind: Kind, index: nat)
    | BlockDelta(kind: Kind, index: nat, delta: string)
    | BlockEnd(kind: Kind, index: nat)
    | Done
    | Error
  {
    predicate Terminal() {
      Done? || Error?
    }
  }

  /** A block of the partial message; for a tool call, the JSON so far, None once it is complete. */
  datatype Block = Block(kind: Kind, text: Option<string>)

  /** What a line says: nothing, something unreadable, or an event. */
  datatype Parsed = Ignored | Unreadable | Event(event: ProxyEvent)

  /** An error that the reader itself adds says whether it was aborted. */
  datatype Pushed = Forwarded(event: ProxyEvent) | Failed(aborted: bool)
  {
    predicate Terminal() {
      Failed? || event.Terminal()
    }
  }

  datatype State = State(content: map<nat, Block>, pushed: seq<Pushed>, sawTerminal: bool, threw: bool)

  function Initial(): State {
    State(map[], [], false, false)
  }

  function Forward(s: State, e: ProxyEvent): State {
    s.(pushed := s.pushed + [Forwarded(e)], sawTerminal := s.sawTerminal || e.Terminal())
  }

  predicate Holds(s: State, index: nat, kind: Kind) {
    index in s.content && s.content[index].kind == kind
  }

  /** `processProxyEvent` and what `processLine` does with its result. A tool call whose JSON is gone
      continues from the word the language has for a missing value. */
  function Process(s: State, e: ProxyEvent): State {
    match e
    case BlockStart(kind, index) => Forward(s.(content := s.content[index := Block(kind, Some(""))]), e)
    case BlockDelta(kind, index, delta) =>
      if Holds(s, index, kind) then
        var before := if s.content[index].text.Some? then s.content[index].text.value else "undefined";
        Forward(s.(content := s.content[index := Block(kind, Some(before + delta))]), e)
      else s.(threw := true)
    case BlockEnd(kind, index) =>
      if Holds(s, index, kind) then
        Forward(if kind.ToolCall? then s.(content := s.content[index := Block(kind, None)]) else s, e)
      else if kind.ToolCall? then s
      else s.(threw := true)
    case _ => Forward(s, e)
  }

  function ProcessLine(s: State, line: string, parse: string -> Parsed): State {
    if s.threw then s
    else
      match parse(line)
      case Ignored => s
      case Unreadable => s.(threw := true)
      case Event(e) => Process(s, e)
  }

  function ProcessLines(s: State, lines: seq<string>, parse: string -> Parsed): State
    decreases |lines|
  {
    if lines == [] then s
    else ProcessLine(ProcessLines(s, lines[..|lines| - 1], parse), lines[|lines| - 1], parse)
  }

  /** The end of the stream: a failure, or a missing last event, is made an error. */
  function Finish(s: State): State {
    if s.threw || !s.sawTerminal then s.(pushed := s.pushed + [Failed(false)]) else s
  }

  lemma {:induction false} ProcessMoreLines(s: State, a: seq<string>, b: seq<string>, parse: string -> Parsed)
    ensures ProcessLines(s, a + b, parse) == ProcessLines(ProcessLines(s, a, parse), b, parse)
    decreases |b|
  {
    hide ProcessLine;
    if b == [] {
      assert a + b == a;
    } else {
      assert (a + b)[..|a + b| - 1] == a + b[..|b| - 1];
      ProcessMoreLines(s, a, b[..|b| - 1], parse);
    }
  }

  lemma {:induction false} ThrownStays(s: State, lines: seq<string>, parse: string -> Parsed)
    requires s.threw
    ensures ProcessLines(s, lines, parse) == s
    decreases |lines|
  {
    if lines != [] {
      ThrownStays(s, lines[..|lines| - 1], parse);
    }
  }

  lemma {:induction false} TerminalSeen(s: State, lines: seq<string>, parse: string -> Parsed)
    requires s.sawTerminal ==> exists i :: 0 <= i < |s.pushed| && s.pushed[i].Terminal()
    ensures var t := ProcessLines(s, lines, parse);
            t.sawTerminal ==> exists i :: 0 <= i < |t.pushed| && t.pushed[i].Terminal()
    decreases |lines|
  {
    if lines != [] {
      var t := ProcessLines(s, lines[..|lines| - 1], parse);
      TerminalSeen(s, lines[..|lines| - 1], parse);
      var u := ProcessLines(s, lines, parse);
      assert t.pushed <= u.pushed;
      if u.sawTerminal {
        if t.sawTerminal {
          var i :| 0 <= i < |t.pushed| && t.pushed[i].Terminal();
          assert u.pushed[i].Terminal();
        } else {
          assert u.pushed[|u.pushed| - 1].Terminal();
        }
      }
    }
  }

  // ---- reading ---------------------------------------------------------------------------------

  class Proxy {
    var content: map<nat, Block>
    var pushed: seq<Pushed>
    var sawTerminal: bool
    var threw: bool
    var buffer: string

    ghost function Model(): State
      reads this
    {
      State(content, pushed, sawTerminal, threw)
    }

    constructor ()
      ensures Model() == Initial() && buffer == ""
    {
      content, pushed, sawTerminal, threw, buffer := map[], [], false, false, "";
    }

    method Push(e: ProxyEvent)
      modifies this`pushed, this`sawTerminal
      ensures Model() == Forward(old(Model()), e)
    {
      if e.Done? || e.Error? {
        sawTerminal := true;
      }
      pushed := pushed + [Forwarded(e)];
    }

    method HandleEvent(e: ProxyEvent)
      modifies this`content, this`pushed, this`sawTerminal, this`threw
      ensures Model() == Process(old(Model()), e)
    {
      match e {
        case BlockStart(kind, index) =>
          content := content[index := Block(kind, Some(""))];
          Push(e);
        case BlockDelta(kind, index, delta) =>
          if index in content && content[index].kind == kind {
            var before := if content[index].text.Some? then content[index].text.value else "undefined";
            content := content[index := Block(kind, Some(before + delta))];
            Push(e);
          } else {
            threw := true;
          }
        case BlockEnd(kind, index) =>
          if index in content && content[index].kind == kind {
            if kind.ToolCall? {
              content := content[index := Block(kind, None)];
            }
            Push(e);
          } else if !kind.ToolCall? {
            threw := true;
          }
        case _ => Push(e);
      }
    }

    /** Processes lines until one throws. */
    method HandleLines(lines: seq<string>, parse: string -> Parsed)
      modifies this`content, this`pushed, this`sawTerminal, this`threw
      ensures Model() == ProcessLines(old(Model()), lines, parse)
    {
      hide Process, Forward;
      var i := 0;
      while i < |lines| && !threw
        invariant 0 <= i <= |lines| && Model() == ProcessLines(old(Model()), lines[..i], parse)
      {
        assert lines[..i + 1][..i] == lines[..i];
        match parse(lines[i]) {
          case Ignored =>
          case Unreadable => threw := true;
          case Event(e) => HandleEvent(e);
        }
        i := i + 1;
      }
      assert lines == lines[..i] + lines[i..];
      ProcessMoreLines(old(Model()), lines[..i], lines[i..], parse);
      if threw {
        ThrownStays(Model(), lines[i..], parse);
      } else {
        assert lines[i..] == [];
      }
    }

    /** Takes in chunks, processing every line as soon as it is complete, until one throws. `text` is what
        has been taken in. */
    method ReadChunks(chunks: seq<string>, parse: string -> Parsed) returns (k: nat, ghost text: string)
      requires Model() == Initial() && buffer == ""
      modifies this
      ensures k <= |chunks| && text == Join(chunks[..k]) && (!threw ==> k == |chunks|)
      ensures Model() == ProcessLines(Initial(), Complete(text), parse) && buffer == Rest(text)
    {
      hide Process, Forward, Split, ProcessLines, Complete, Rest;
      text := "";
      k := 0;
      SplitEmpty();
      NoLines(parse);
      while k < |chunks| && !threw
        invariant 0 <= k <= |chunks| && text == Join(chunks[..k])
        invariant Model() == ProcessLines(Initial(), Complete(text), parse)
        invariant buffer == Rest(text)
      {
        assert chunks[..k + 1][..k] == chunks[..k];
        NextChunk(text, chunks[k]);
        ProcessMoreLines(Initial(), Complete(text), Complete(buffer + chunks[k]), parse);
        buffer := buffer + chunks[k];
        var lines := Split(buffer);
        SplitParts(buffer);
        buffer := lines[|lines| - 1];
        HandleLines(lines[..|lines| - 1], parse);
        text := text + chunks[k];
        k := k + 1;
      }
    }

    /** Reads a reply to its end. However it is cut into chunks, the lines processed are those of the
        whole text, the last one included even without a newline; and consumers always get a terminal
        event. */
    method Stream(chunks: seq<string>, parse: string -> Parsed)
      requires Model() == Initial() && buffer == ""
      modifies this
      ensures Model() == Finish(ProcessLines(Initial(), LinesOf(Join(chunks)), parse))
      ensures exists i :: 0 <= i < |pushed| && pushed[i].Terminal()
    {
      hide Process, Forward, Split, ProcessLines, Complete, Rest;
      var k;
      ghost var text;
      k, text := ReadChunks(chunks, parse);
      WholeText(chunks, k, parse, Model());
      if !threw {
        assert LinesOf(text) == Complete(text) + if buffer == "" then [] else [buffer];
        if |buffer| > 0 {
          ProcessMoreLines(Initial(), Complete(text), [buffer], parse);
          HandleLines([buffer], parse);
        } else {
          assert LinesOf(text) == Complete(text);
        }
      }
      TerminalSeen(Initial(), LinesOf(Join(chunks)), parse);
      if threw || !sawTerminal {
        pushed := pushed + [Failed(false)];
        assert pushed[|pushed| - 1].Terminal();
      }
    }

    /** Reading is given up after some of the chunks, because of an abort or a failed connection: only
        complete lines have been processed, and an error event comes last. */
    method StreamUntilAbort(chunks: seq<string>, parse: string -> Parsed, aborted: bool)
      requires Model() == Initial() && buffer == ""
      modifies this
      ensures pushed == ProcessLines(Initial(), Complete(Join(chunks)), parse).pushed + [Failed(aborted)]
      ensures content == ProcessLines(Initial(), Complete(Join(chunks)), parse).content
    {
      hide Process, Forward, Split, ProcessLines, Complete, Rest;
      var k;
      ghost var text;
      k, text := ReadChunks(chunks, parse);
      LinesReadSoFar(chunks, k, parse, Model());
      pushed := pushed + [Failed(aborted)];
    }
  }

  lemma NoLines(parse: string -> Parsed)
    ensures ProcessLines(Initial(), [], parse) == Initial()
  {
  }

  lemma SplitEmpty()
    ensures Complete("") == [] && Rest("") == ""
  {
  }

  /** If reading stopped early because a line threw, the remaining text does not matter. */
  lemma WholeText(chunks: seq<string>, k: nat, parse: string -> Parsed, s: State)
    requires k <= |chunks| && s == ProcessLines(Initial(), Complete(Join(chunks[..k])), parse)
    requires s.threw || k == |chunks|
    ensures s.threw ==> ProcessLines(Initial(), LinesOf(Join(chunks)), parse) == s
    ensures k == |chunks| ==> chunks[..k] == chunks
  {
    hide ProcessLines, Complete, Rest, Join;
    if s.threw {
      JoinSplits(chunks, k);
      var text, more := Join(chunks[..k]), Join(chunks[k..]);
      NextChunk(text, more);
      var rest := Complete(Rest(text) + more) + if Rest(text + more) == "" then [] else [Rest(text + more)];
      assert LinesOf(text + more) == Complete(text) + rest;
      ProcessMoreLines(Initial(), Complete(text), rest, parse);
      ThrownStays(s, rest, parse);
    }
  }

  lemma LinesReadSoFar(chunks: seq<string>, k: nat, parse: string -> Parsed, s: State)
    requires k <= |chunks| && s == ProcessLines(Initial(), Complete(Join(chunks[..k])), parse)
    requires s.threw || k == |chunks|
    ensures ProcessLines(Initial(), Complete(Join(chunks)), parse) == s
  {
    hide ProcessLines, Complete, Rest, Join;
    if k == |chunks| {
      assert chunks[..k] == chunks;
    } else {
      JoinSplits(chunks, k);
      var text, more := Join(chunks[..k]), Join(chunks[k..]);
      NextChunk(text, more);
      ProcessMoreLines(Initial(), Complete(text), Complete(Rest(text) + more), parse);
      ThrownStays(s, Complete(Rest(text) + more), parse);
    }
  }

  lemma {:induction false} JoinSplits(chunks: seq<string>, k: nat)
    requires k <= |chunks|
    ensures Join(chunks) == Join(chunks[..k]) + Join(chunks[k..])
    decreases |chunks|
  {
    if k == |chunks| {
      assert chunks[..k] == chunks && chunks[k..] == [];
    } else {
      var front := chunks[..|chunks| - 1];
      JoinSplits(front, k);
      assert front[..k] == chunks[..k];
      assert chunks[k..][..|chunks[k..]| - 1] == front[k..];
    }
  }

  // ---- blocks ----------------------------------------------------------------------------------

  function ProcessEvents(s: State, events: seq<ProxyEvent>): State
    decreases |events|
  {
    if events == [] then s
    else
      var before := ProcessEvents(s, events[..|events| - 1]);
      if before.threw then before else Process(before, events[|events| - 1])
  }

  predicate Opens(e: ProxyEvent, index: nat) {
    e.BlockStart? && e.index == index
  }

  /** The deltas for one block, one after the other. */
  function Deltas(events: seq<ProxyEvent>, index: nat): string
    decreases |events|
  {
    if events == [] then ""
    else
      var last := events[|events| - 1];
      Deltas(events[..|events| - 1], index) + if last.BlockDelta? && last.index == index then last.delta else ""
  }

  /** One more event for other blocks, or one more delta for this one. */
  lemma DeltaStep(s: State, e: ProxyEvent, index: nat, kind: Kind, text: string)
    requires index in s.content && s.content[index] == Block(kind, Some(text))
    requires !Process(s, e).threw && !Opens(e, index) && (kind.ToolCall? ==> e != BlockEnd(ToolCall, index))
    ensures index in Process(s, e).content
    ensures Process(s, e).content[index]
         == Block(kind, Some(text + if e.BlockDelta? && e.index == index then e.delta else ""))
  {
    assert text + "" == text;
  }

  lemma DeltasNext(events: seq<ProxyEvent>, from: nat, index: nat)
    requires from < |events|
    ensures var last := events[|events| - 1];
            Deltas(events[from..], index)
              == Deltas(events[..|events| - 1][from..], index) + if last.BlockDelta? && last.index == index then last.delta else ""
  {
    var tail := events[from..];
    assert tail[..|tail| - 1] == events[..|events| - 1][from..];
  }

  /** In a run that does not throw, a block is the concatenation of the deltas for it since it was last
      started, whatever happened to other blocks in between; for a tool call, of its JSON until it ends. */
  lemma {:induction false} BlockIsItsDeltas(events: seq<ProxyEvent>, from: nat, index: nat)
    requires from < |events| && Opens(events[from], index)
    requires forall i :: from < i < |events| ==>
               !Opens(events[i], index) && (events[from].kind.ToolCall? ==> events[i] != BlockEnd(ToolCall, index))
    requires !ProcessEvents(Initial(), events).threw
    ensures var s := ProcessEvents(Initial(), events);
            index in s.content && s.content[index] == Block(events[from].kind, Some(Deltas(events[from + 1..], index)))
    decreases |events|
  {
    var n := |events| - 1;
    var front, last := events[..n], events[n];
    var before := ProcessEvents(Initial(), front);
    assert ProcessEvents(Initial(), events) == Process(before, last);
    if from == n {
      assert events[from + 1..] == [];
    } else {
      hide Process, Deltas, ProcessEvents;
      assert forall i :: from < i < n ==> front[i] == events[i];
      BlockIsItsDeltas(front, from, index);
      DeltasNext(events, from + 1, index);
      DeltaStep(before, last, index, events[from].kind, Deltas(front[from + 1..], index));
    }
  }

  predicate HasStart(events: seq<ProxyEvent>, kind: Kind, index: nat) {
    exists from :: 0 <= from < |events| && events[from] == BlockStart(kind, index)
                   && forall i :: from < i < |events| ==> !Opens(events[i], index)
  }

  /** An event makes the run throw exactly if it is a delta or, for text and thinking, an end for a block
      whose latest start was of another kind or that was never started. */
  lemma ThrowsIff(events: seq<ProxyEvent>, e: ProxyEvent)
    requires !ProcessEvents(Initial(), events).threw
    ensures ProcessEvents(Initial(), events + [e]).threw <==>
              || (e.BlockDelta? && !HasStart(events, e.kind, e.index))
              || (e.BlockEnd? && !e.kind.ToolCall? && !HasStart(events, e.kind, e.index))
  {
    assert (events + [e])[..|events|] == events;
    if e.BlockDelta? || e.BlockEnd? {
      HeldIffStarted(events, e.kind, e.index);
    }
  }

  lemma HasStartNext(front: seq<ProxyEvent>, last: ProxyEvent, kind: Kind, index: nat)
    ensures HasStart(front + [last], kind, index) <==>
              if Opens(last, index) then last.kind == kind else HasStart(front, kind, index)
  {
    var events := front + [last];
    if Opens(last, index) {
      assert events[|front|] == last;
      assert Opens(events[|front|], index);
    } else {
      if HasStart(front, kind, index) {
        var from :| 0 <= from < |front| && front[from] == BlockStart(kind, index)
                    && forall i :: from < i < |front| ==> !Opens(front[i], index);
        assert events[from] == BlockStart(kind, index);
      }
      if HasStart(events, kind, index) {
        var from :| 0 <= from < |events| && events[from] == BlockStart(kind, index)
                    && forall i :: from < i < |events| ==> !Opens(events[i], index);
        assert front[from] == BlockStart(kind, index);
        assert forall i :: from < i < |front| ==> front[i] == events[i];
      }
    }
  }

  lemma {:induction false} HeldIffStarted(events: seq<ProxyEvent>, kind: Kind, index: nat)
    requires !ProcessEvents(Initial(), events).threw
    ensures Holds(ProcessEvents(Initial(), events), index, kind) <==> HasStart(events, kind, index)
    decreases |events|
  {
    hide HasStart;
    if events != [] {
      var front, last := events[..|events| - 1], events[|events| - 1];
      assert events == front + [last];
      HeldIffStarted(front, kind, index);
      HasStartNext(front, last, kind, index);
    } else {
      NoStart(kind, index);
    }
  }

  lemma NoStart(kind: Kind, index: nat)
    ensures !HasStart([], kind, index)
  {
  }
}
