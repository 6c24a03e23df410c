/** Where everything in a formula stands: its lines one under the other, the parts of a line side by side in
    their order, and the parts of a node inside its box. */
module LatexGeometry {
  import opened Wrappers
  import opened LatexLayout

  // ---- the lines of a source -------------------------------------------------------------------

  const NewLine := Char('\n')

  function Unlines(lines: seq<Text>): Text
    decreases |lines|
  {
    if lines == [] then []
    else if |lines| == 1 then lines[0]
    else Unlines(lines[..|lines| - 1]) + [NewLine] + lines[|lines| - 1]
  }

  predicate Unbroken(t: Text) {
    NewLine !in t
  }

  lemma UnlinesLonger(front: seq<Text>, last: Text, item: Item)
    ensures Unlines(front + [last + [item]]) == Unlines(front + [last]) + [item]
  {
    assert (front + [last + [item]])[..|front|] == front && (front + [last])[..|front|] == front;
    if front != [] {
      assert Unlines(front) + [NewLine] + (last + [item]) == Unlines(front) + [NewLine] + last + [item];
    }
  }

  lemma LinesNext(t: Text, item: Item)
    ensures var before := Lines(t); var last := |before| - 1;
            Lines(t + [item]) == if item == NewLine then before + [[]] else before[..last] + [before[last] + [item]]
  {
    assert (t + [item])[..|t|] == t;
  }

  predicate AllUnbroken(lines: seq<Text>) {
    forall r {:trigger lines[r]} :: 0 <= r < |lines| ==> Unbroken(lines[r])
  }

  lemma UnlinesMore(lines: seq<Text>)
    requires lines != []
    ensures Unlines(lines + [[]]) == Unlines(lines) + [NewLine]
  {
    assert (lines + [[]])[..|lines|] == lines;
    assert Unlines(lines) + [NewLine] + [] == Unlines(lines) + [NewLine];
  }

  lemma OneItemLonger(before: seq<Text>, item: Item)
    requires before != []
    ensures var last := |before| - 1;
            var lines := if item == NewLine then before + [[]] else before[..last] + [before[last] + [item]];
            && Unlines(lines) == Unlines(before) + [item]
            && (AllUnbroken(before) ==> AllUnbroken(lines))
  {
    var last := |before| - 1;
    assert before == before[..last] + [before[last]];
    if item == NewLine {
      UnlinesMore(before);
    } else {
      UnlinesLonger(before[..last], before[last], item);
    }
  }

  /** No line holds a line break, and the lines with breaks between them are the text. */
  lemma {:induction false} LinesOfText(t: Text)
    ensures Unlines(Lines(t)) == t && AllUnbroken(Lines(t))
    decreases |t|
  {
    if t != [] {
      hide Unlines, AllUnbroken;
      var n := |t| - 1;
      LinesOfText(t[..n]);
      LinesNext(t[..n], t[n]);
      assert t == t[..n] + [t[n]];
      hide Lines;
      OneItemLonger(Lines(t[..n]), t[n]);
    }
  }

  // ---- the parts of a line ---------------------------------------------------------------------

  /** What is not white space. */
  function Inked(t: Text): Text
    decreases |t|
  {
    if t == [] then [] else (if IsBlank(t[0]) then [] else [t[0]]) + Inked(t[1..])
  }

  /** The parts as one text, each node as its marker. */
  function Flat(parts: seq<Part>): Text
    decreases |parts|
  {
    if parts == [] then []
    else (match parts[0] case Words(t) => t case NodeBox(i) => [Mark(i)]) + Flat(parts[1..])
  }

  lemma {:induction false} InkedSum(a: Text, b: Text)
    ensures Inked(a + b) == Inked(a) + Inked(b)
    decreases |a|
  {
    if a == [] {
      assert a + b == b;
    } else {
      assert (a + b)[1..] == a[1..] + b;
      InkedSum(a[1..], b);
    }
  }

  lemma {:induction false} TrimStartInked(t: Text)
    ensures Inked(TrimStart(t)) == Inked(t)
    decreases |t|
  {
    if t != [] && IsBlank(t[0]) {
      TrimStartInked(t[1..]);
    }
  }

  lemma {:induction false} TrimEndInked(t: Text)
    ensures Inked(TrimEnd(t)) == Inked(t)
    decreases |t|
  {
    if t != [] && IsBlank(t[|t| - 1]) {
      TrimEndInked(t[..|t| - 1]);
      assert t == t[..|t| - 1] + [t[|t| - 1]];
      InkedSum(t[..|t| - 1], [t[|t| - 1]]);
    }
  }

  lemma BlankInked()
    ensures Inked([]) == [] && Inked([Blank]) == []
  {
    assert [Blank][1..] == [];
  }

  lemma FramedInked(before: Text, text: Text, behind: Text)
    requires Inked(before) == [] && Inked(behind) == []
    ensures Inked(before + text + behind) == Inked(text)
  {
    InkedSum(before, text);
    InkedSum(before + text, behind);
    hide Inked;
    assert [] + Inked(text) + [] == Inked(text);
  }

  lemma BetweenInked(sliced: Text, previous: Option<Node>, next: Node)
    ensures Inked(Between(sliced, previous, next)) == Inked(sliced)
  {
    hide Inked, TrimEnd, TrimStart;
    var started := if previous.Some? then TrimStart(sliced) else sliced;
    var leading := previous.Some? && previous.value.Matrix? && sliced != [] && IsBlank(sliced[0]);
    var trailing := next.Matrix? && sliced != [] && IsBlank(sliced[|sliced| - 1]);
    TrimStartInked(sliced);
    TrimEndInked(started);
    BlankInked();
    FramedInked(if leading then [Blank] else [], TrimEnd(started), if trailing then [Blank] else []);
  }

  lemma AfterInked(sliced: Text, previous: Option<Node>)
    ensures Inked(After(sliced, previous)) == Inked(sliced)
  {
    TrimStartInked(sliced);
    var trimmed := if previous.Some? then TrimStart(sliced) else sliced;
    InkedSum([Blank], trimmed);
    assert Inked([Blank]) == [] by { assert [Blank][1..] == []; }
  }

  lemma {:induction false} FlatSum(a: seq<Part>, b: seq<Part>)
    ensures Flat(a + b) == Flat(a) + Flat(b)
    decreases |a|
  {
    if a == [] {
      assert a + b == b;
    } else {
      assert (a + b)[1..] == a[1..] + b;
      FlatSum(a[1..], b);
    }
  }

  /** A line up to and with its first marker, and the rest. */
  lemma HeadInOrder(line: Text, k: nat, words: Text, rest: seq<Part>)
    requires k < |line| && line[k].Mark? && Inked(words) == Inked(line[..k]) && Inked(Flat(rest)) == Inked(line[k + 1..])
    ensures Inked(Flat((if k == 0 then [] else [Words(words)]) + [NodeBox(line[k].node)] + rest)) == Inked(line)
  {
    hide Inked, Flat;
    var mark := [line[k]];
    var head := (if k == 0 then [] else [Words(words)]) + [NodeBox(line[k].node)];
    FlatSum(head, rest);
    HeadFlat(Words(words), k == 0, line[k].node);
    var front := if k == 0 then [] else words;
    NothingInked();
    assert k == 0 ==> line[..k] == [];
    InkedSum(front, mark);
    InkedSum(front + mark, Flat(rest));
    assert line == line[..k] + mark + line[k + 1..];
    InkedSum(line[..k], mark);
    InkedSum(line[..k] + mark, line[k + 1..]);
  }

  /** The words and nodes of a line are its text and its markers in their order; only white space differs. */
  lemma {:induction false} PartsInOrder(line: Text, previous: Option<Node>, nodes: seq<Node>)
    ensures Inked(Flat(Parts(line, previous, nodes))) == Inked(line)
    decreases |line|
  {
    hide Between, After, TrimEnd, TrimStart, Inked, Flat;
    var k := FirstMark(line, |nodes|);
    if k == |line| {
      if line != [] {
        AfterInked(line, previous);
        FlatOne(Words(After(line, previous)));
      } else {
        NothingFlat();
      }
    } else {
      var next := nodes[line[k].node];
      PartsInOrder(line[k + 1..], Some(next), nodes);
      BetweenInked(line[..k], previous, next);
      HeadInOrder(line, k, Between(line[..k], previous, next), Parts(line[k + 1..], Some(next), nodes));
    }
  }

  lemma NothingFlat()
    ensures Flat([]) == []
  {
  }

  lemma NothingInked()
    ensures Inked([]) == []
  {
  }

  lemma FlatOne(part: Part)
    ensures Flat([part]) == match part case Words(t) => t case NodeBox(i) => [Mark(i)]
  {
    assert [part][1..] == [];
    assert Flat([part]) == (match part case Words(t) => t case NodeBox(i) => [Mark(i)]) + Flat([]);
  }

  lemma HeadFlat(words: Part, empty: bool, i: nat)
    requires words.Words?
    ensures Flat((if empty then [] else [words]) + [NodeBox(i)]) == (if empty then [] else words.text) + [Mark(i)]
  {
    FlatOne(words);
    FlatOne(NodeBox(i));
    FlatSum([words], [NodeBox(i)]);
    assert [] + [NodeBox(i)] == [NodeBox(i)];
  }

  predicate AllBlank(t: Text) {
    forall i {:trigger t[i]} :: 0 <= i < |t| ==> IsBlank(t[i])
  }

  lemma {:induction false} TrimStartTakesBlanks(t: Text) returns (n: nat)
    ensures n <= |t| && TrimStart(t) == t[n..] && AllBlank(t[..n]) && (n < |t| ==> !IsBlank(t[n]))
    decreases |t|
  {
    if t != [] && IsBlank(t[0]) {
      n := TrimStartTakesBlanks(t[1..]);
      n := n + 1;
      assert t[1..][n - 1..] == t[n..];
      forall i {:trigger t[..n][i]} | 0 <= i < n ensures IsBlank(t[..n][i]) {
        assert i > 0 ==> t[..n][i] == t[1..][..n - 1][i - 1];
      }
    } else {
      n := 0;
    }
  }

  lemma {:induction false} TrimEndIsTight(t: Text)
    ensures TrimEnd(t) != [] ==> !IsBlank(TrimEnd(t)[|TrimEnd(t)| - 1])
    decreases |t|
  {
    if t != [] && IsBlank(t[|t| - 1]) {
      TrimEndIsTight(t[..|t| - 1]);
    }
  }

  /** Between two nodes, text stands without the white space at its ends, but for one blank where there was
      some next to a matrix. */
  lemma BetweenTrims(sliced: Text, previous: Option<Node>, next: Node) returns (a: nat, b: nat)
    ensures a <= b <= |sliced| && AllBlank(sliced[..a]) && AllBlank(sliced[b..])
    ensures a < b ==> !IsBlank(sliced[b - 1]) && (previous.Some? ==> !IsBlank(sliced[a]))
    ensures previous.None? ==> a == 0
    ensures var before := previous.Some? && previous.value.Matrix? && sliced != [] && IsBlank(sliced[0]);
            var behind := next.Matrix? && sliced != [] && IsBlank(sliced[|sliced| - 1]);
            Between(sliced, previous, next)
              == if a == b then (if before || behind then [Blank] else [])
                 else (if before then [Blank] else []) + sliced[a..b] + (if behind then [Blank] else [])
  {
    if previous.Some? {
      a := TrimStartTakesBlanks(sliced);
    } else {
      a := 0;
    }
    var started := sliced[a..];
    assert previous.None? ==> started == sliced;
    var n := TrimEndTakesFromEnd(started);
    b := a + n;
    hide TrimEnd, TrimStart;
    assert sliced[a..b] == started[..n] && sliced[b..] == started[n..];
    assert TrimEnd(started) == sliced[a..b];
  }

  lemma TrimEndTakesFromEnd(t: Text) returns (n: nat)
    ensures n <= |t| && TrimEnd(t) == t[..n] && AllBlank(t[n..]) && (n > 0 ==> !IsBlank(t[n - 1]))
  {
    TrimEndTakesBlanks(t);
    TrimEndIsTight(t);
    n := |TrimEnd(t)|;
  }

  /** After the last node, the same holds at the left end alone. */
  lemma AfterTrims(sliced: Text, previous: Option<Node>) returns (a: nat)
    ensures a <= |sliced| && AllBlank(sliced[..a])
    ensures if previous.None? then a == 0 else a < |sliced| ==> !IsBlank(sliced[a])
    ensures After(sliced, previous)
         == (if previous.Some? && previous.value.Matrix? && sliced != [] && IsBlank(sliced[0]) then [Blank] else []) + sliced[a..]
  {
    if previous.Some? {
      a := TrimStartTakesBlanks(sliced);
    } else {
      a := 0;
    }
    assert sliced[0..] == sliced && [] + sliced[a..] == sliced[a..];
  }

  // ---- joined boxes are tight ------------------------------------------------------------------

  lemma {:induction false} HighestBox(layouts: seq<Layout>) returns (i: nat)
    requires layouts != []
    ensures i < |layouts| && layouts[i].baseline == Baseline(layouts)
    decreases |layouts|
  {
    var n := |layouts| - 1;
    if n > 0 && Baseline(layouts[..n]) >= layouts[n].baseline {
      i := HighestBox(layouts[..n]);
    } else {
      i := n;
    }
  }

  lemma {:induction false} LowestBox(layouts: seq<Layout>) returns (i: nat)
    requires layouts != []
    ensures i < |layouts| && Under(layouts[i]) == Below(layouts)
    decreases |layouts|
  {
    var n := |layouts| - 1;
    if n > 0 && Below(layouts[..n]) >= Under(layouts[n]) {
      i := LowestBox(layouts[..n]);
    } else {
      i := n;
    }
  }

  /** Joined boxes have no row too many: some box reaches up to the first row and some box down to the last; and
      no row has white space at its end. */
  lemma JoinIsTight(layouts: seq<Layout>) returns (high: nat, low: nat)
    requires AllGood(layouts) && layouts != []
    ensures high < |layouts| && layouts[high].baseline == Join(layouts).baseline
    ensures low < |layouts| && |layouts[low].lines| - layouts[low].baseline == |Join(layouts).lines| - Join(layouts).baseline
    ensures forall r {:trigger Join(layouts).lines[r]} :: 0 <= r < |Join(layouts).lines| ==>
              var line := Join(layouts).lines[r]; line != [] ==> !IsBlank(line[|line| - 1])
  {
    high := HighestBox(layouts);
    low := LowestBox(layouts);
    assert Good(layouts[low]);
    forall r {:trigger Join(layouts).lines[r]} | 0 <= r < |Join(layouts).lines|
      ensures var line := Join(layouts).lines[r]; line != [] ==> !IsBlank(line[|line| - 1])
    {
      TrimEndIsTight(FullRow(layouts, r, Baseline(layouts)));
    }
  }

  // ---- rows of a source ------------------------------------------------------------------------

  lemma {:induction false} SomeLineIsLongest(lines: seq<Text>) returns (r: nat)
    requires lines != []
    ensures r < |lines| && |lines[r]| == Longest(lines)
    decreases |lines|
  {
    var n := |lines| - 1;
    if n > 0 && Longest(lines[..n]) >= |lines[n]| {
      r := SomeLineIsLongest(lines[..n]);
    } else {
      r := n;
    }
  }

  /** How many rows these lines take. */
  function Height(lines: seq<Text>, nodes: seq<Node>, bound: nat): nat
    requires Numbered(nodes) && AllMention(lines, |nodes|, bound)
    decreases |lines|
  {
    if lines == [] then 0
    else
      assert Mentions(lines[|lines| - 1], |nodes|, bound);
      Height(lines[..|lines| - 1], nodes, bound) + |LineLayout(lines[|lines| - 1], nodes, bound).lines|
  }

  lemma {:induction false} LinesStand(lines: seq<Text>, nodes: seq<Node>, bound: nat, r: nat, q: nat)
    requires Numbered(nodes) && AllMention(lines, |nodes|, bound) && r < |lines|
    requires Mentions(lines[r], |nodes|, bound) && q < |LineLayout(lines[r], nodes, bound).lines|
    ensures AllMention(lines[..r], |nodes|, bound) && |LinesLayout(lines, nodes, bound)| == Height(lines, nodes, bound)
    ensures Height(lines[..r], nodes, bound) + q < |LinesLayout(lines, nodes, bound)|
    ensures LinesLayout(lines, nodes, bound)[Height(lines[..r], nodes, bound) + q] == LineLayout(lines[r], nodes, bound).lines[q]
    decreases |lines|
  {
    hide LineLayout, Numbered, Mentions;
    var n := |lines| - 1;
    HeightIs(lines[..n], nodes, bound);
    if r < n {
      assert lines[..n][..r] == lines[..r];
      LinesStand(lines[..n], nodes, bound, r, q);
    }
  }

  lemma {:induction false} HeightIs(lines: seq<Text>, nodes: seq<Node>, bound: nat)
    requires Numbered(nodes) && AllMention(lines, |nodes|, bound)
    ensures |LinesLayout(lines, nodes, bound)| == Height(lines, nodes, bound)
    decreases |lines|
  {
    hide LineLayout, Numbered, Mentions;
    if lines != [] {
      HeightIs(lines[..|lines| - 1], nodes, bound);
    }
  }

  /** The text is seen from this column of the line on; of its white space, what the line still has. */
  predicate SeenAt(line: Text, column: nat, text: Text) {
    forall c {:trigger text[c]} :: 0 <= c < |text| ==>
      if column + c < |line| then line[column + c] == text[c] else IsBlank(text[c])
  }

  /** The boxes of a line. */
  function LineBoxes(line: Text, nodes: seq<Node>, bound: nat): (boxes: seq<Layout>)
    requires Numbered(nodes) && Mentions(line, |nodes|, bound)
    ensures AllGood(boxes) && |boxes| == |Parts(line, None, nodes)|
  {
    PartsAreBelow(line, None, nodes, bound);
    BoxesAreGood(Parts(line, None, nodes), nodes, bound);
    BoxesOf(Parts(line, None, nodes), nodes, bound)
  }

  lemma JoinShows(boxes: seq<Layout>, k: nat, q: nat)
    requires AllGood(boxes) && k < |boxes| && q < |boxes[k].lines|
    ensures SeenAt(Join(boxes).lines[JoinedRow(boxes, k, q)], Across(boxes[..k]), boxes[k].lines[q])
  {
    hide FullRow, JoinedRow, Join, Across;
    var x, text, row := Across(boxes[..k]), boxes[k].lines[q], JoinedRow(boxes, k, q);
    var line, full := Join(boxes).lines[row], FullRow(boxes, row, Join(boxes).baseline);
    JoinPlacesBoxes(boxes, k, q);
    assert Good(boxes[k]);
    var padded := PadLine(text, boxes[k].width, false);
    assert padded == Blanks(0) + text + Blanks(boxes[k].width - |text|);
    forall c {:trigger text[c]} | 0 <= c < |text|
      ensures if x + c < |line| then line[x + c] == text[c] else IsBlank(text[c])
    {
      assert full[x..x + boxes[k].width][c] == padded[c] == text[c];
      assert full[x + c] == text[c];
    }
  }

  /** A formula shows every row of every part of every line: lines one under the other, the parts of a line in
      the columns their widths give them, on rows that make their baselines meet. */
  lemma RenderShowsParts(source: Text, nodes: seq<Node>, bound: nat, r: nat, k: nat, q: nat)
    requires Numbered(nodes) && Mentions(source, |nodes|, bound) && r < |Lines(source)|
    requires AllMention(Lines(source), |nodes|, bound) && Mentions(Lines(source)[r], |nodes|, bound)
    requires var boxes := LineBoxes(Lines(source)[r], nodes, bound); k < |boxes| && q < |boxes[k].lines|
    ensures AllMention(Lines(source)[..r], |nodes|, bound)
    ensures var boxes, above := LineBoxes(Lines(source)[r], nodes, bound), Height(Lines(source)[..r], nodes, bound);
            var row := above + JoinedRow(boxes, k, q);
            && row < |Render(source, nodes, bound).lines|
            && SeenAt(Render(source, nodes, bound).lines[row], Across(boxes[..k]), boxes[k].lines[q])
  {
    hide Numbered, Mentions, AllMention, Lines, LinesLayout, Join, Across, SeenAt, BoxesOf, Parts, Good;
    var line := Lines(source)[r];
    var boxes := LineBoxes(line, nodes, bound);
    var row := JoinedRow(boxes, k, q);
    assert LineLayout(line, nodes, bound) == Join(boxes);
    LinesStand(Lines(source), nodes, bound, r, row);
    JoinShows(boxes, k, q);
  }

  /** Its baseline is the row where the baselines of all parts of its first line meet, and its width that of its
      longest row. */
  lemma RenderBaseline(source: Text, nodes: seq<Node>, bound: nat, k: nat) returns (longest: nat)
    requires Numbered(nodes) && Mentions(source, |nodes|, bound) && Mentions(Lines(source)[0], |nodes|, bound)
    requires k < |LineBoxes(Lines(source)[0], nodes, bound)|
    ensures var boxes := LineBoxes(Lines(source)[0], nodes, bound);
            boxes[k].baseline < |boxes[k].lines|
            && Render(source, nodes, bound).baseline == JoinedRow(boxes, k, boxes[k].baseline)
    ensures longest < |Render(source, nodes, bound).lines|
    ensures |Render(source, nodes, bound).lines[longest]| == Render(source, nodes, bound).width
  {
    hide Numbered, Mentions, AllMention, Lines, Join, Across, BoxesOf, Parts, LinesLayout;
    RenderIsGood(source, nodes, bound);
    var boxes := LineBoxes(Lines(source)[0], nodes, bound);
    assert Good(boxes[k]);
    assert LineLayout(Lines(source)[0], nodes, bound) == Join(boxes);
    longest := SomeLineIsLongest(Render(source, nodes, bound).lines);
  }

  // ---- inside a node ---------------------------------------------------------------------------

  predicate FractionStands(box: Layout, above: Layout, under: Layout) {
    && |box.lines| == |above.lines| + 1 + |under.lines| && box.baseline == |above.lines|
    && |box.lines[box.baseline]| == box.width
    && (forall c :: 0 <= c < box.width ==> box.lines[box.baseline][c] == if 0 < c < box.width - 1 then Bar else Blank)
    && (forall r {:trigger above.lines[r]} :: 0 <= r < |above.lines| ==>
          StandsAt(box.lines[r], Margin(above.lines[r], box.width), above.lines[r]))
    && (forall r {:trigger under.lines[r]} :: 0 <= r < |under.lines| ==>
          StandsAt(box.lines[box.baseline + 1 + r], Margin(under.lines[r], box.width), under.lines[r]))
  }

  predicate OperatorStands(box: Layout, operator: Text, lower: Option<Text>, upper: Option<Text>) {
    && |box.lines| == 1 + (if lower.Some? then 1 else 0) + (if upper.Some? then 1 else 0)
    && box.baseline == (if upper.Some? then 1 else 0) && box.width > 0
    && StandsAt(box.lines[box.baseline], Margin(operator, box.width - 1), operator)
    && (upper.Some? ==> StandsAt(box.lines[0], Margin(upper.value, box.width - 1), upper.value))
    && (lower.Some? ==> StandsAt(box.lines[box.baseline + 1], Margin(lower.value, box.width - 1), lower.value))
  }

  predicate MatrixStands(box: Layout, rows: seq<Text>) {
    && |box.lines| == |rows| && box.baseline == 0
    && (forall r {:trigger rows[r]} :: 0 <= r < |rows| ==> |box.lines[r]| == box.width && StandsAt(box.lines[r], 0, rows[r]))
    && exists r :: 0 <= r < |rows| && |rows[r]| == box.width
  }

  lemma StackStands(above: Layout, under: Layout)
    requires Good(above) && Good(under)
    ensures FractionStands(Stack(above, under), above, under)
  {
    StackPlacesParts(above, under);
    assert |Stack(above, under).lines[|above.lines|]| == Stack(above, under).width;
    hide Stack, StandsAt, Margin;
  }

  lemma LimitsStand(operator: Text, lower: Option<Text>, upper: Option<Text>)
    ensures OperatorStands(Limits(operator, lower, upper), operator, lower, upper)
  {
    LimitsPlaceParts(operator, lower, upper);
    hide StandsAt, Margin, PadLine;
  }

  lemma GridStands(rows: seq<Text>)
    requires rows != []
    ensures MatrixStands(Grid(rows), rows)
  {
    var longest := SomeLineIsLongest(rows);
    assert |rows[longest]| == Longest(rows);
    hide PadLine, StandsAt;
    forall r {:trigger rows[r]} | 0 <= r < |rows|
      ensures |PadLine(rows[r], Longest(rows), false)| == Longest(rows) && StandsAt(PadLine(rows[r], Longest(rows), false), 0, rows[r])
    {
      PaddedStandsAt(rows[r], Longest(rows), false);
    }
  }

  /** The parts of a node in its box: the numerator above the bar and the denominator below it, the upper limit
      above the operator and the lower one below it, the rows of a matrix from the top down. */
  ghost predicate PartsStand(nodes: seq<Node>, i: nat)
    requires Numbered(nodes) && i < |nodes|
  {
    assert NodeNumbered(nodes[i], i, |nodes|);
    match nodes[i]
    case Fraction(numerator, denominator) =>
      FractionStands(NodeLayout(nodes, i), Render(numerator, nodes, i), Render(denominator, nodes, i))
    case Operator(operator, lower, upper) => OperatorStands(NodeLayout(nodes, i), operator, lower, upper)
    case Matrix(rows) => MatrixStands(NodeLayout(nodes, i), rows)
  }

  lemma NodePartsStand(nodes: seq<Node>, i: nat)
    requires Numbered(nodes) && i < |nodes|
    ensures PartsStand(nodes, i)
  {
    assert NodeNumbered(nodes[i], i, |nodes|);
    hide Grid, Stack, Limits, Render, FractionStands, OperatorStands, MatrixStands;
    match nodes[i] {
      case Fraction(numerator, denominator) =>
        RenderIsGood(numerator, nodes, i);
        RenderIsGood(denominator, nodes, i);
        StackStands(Render(numerator, nodes, i), Render(denominator, nodes, i));
      case Operator(operator, lower, upper) => LimitsStand(operator, lower, upper);
      case Matrix(rows) => GridStands(rows);
    }
  }
}
