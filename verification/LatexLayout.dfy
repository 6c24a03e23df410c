/** Two-dimensional layout of formulas: boxes of text with a baseline, set side by side and stacked. */
module LatexLayout {
  import opened Wrappers

  /** A character, or a marker that stands for a layout node. */
  datatype Item = Char(c: char) | Mark(node: nat)

  /** Text, one column per item. */
  type Text = seq<Item>

  datatype Node =
    | Fraction(numerator: Text, denominator: Text)
    | Operator(operator: Text, lower: Option<Text>, upper: Option<Text>)
    | Matrix(rows: seq<Text>)

  datatype Layout = Layout(lines: seq<Text>, width: nat, baseline: nat)

  /** The baseline is one of the lines and no line is wider than the box. */
  predicate Good(l: Layout) {
    l.baseline < |l.lines| && forall r :: 0 <= r < |l.lines| ==> |l.lines[r]| <= l.width
  }

  const Blank := Char(' ')

  const Bar := Char('\U{2500}')

  predicate IsBlank(i: Item) {
    i.Char? && (i.c == ' ' || '\t' <= i.c <= '\r' || i.c == '\U{00A0}')
  }

  function Blanks(n: nat): (t: Text)
    ensures |t| == n
  {
    seq(n, i => Blank)
  }

  function TrimEnd(t: Text): Text
    decreases |t|
  {
    if t != [] && IsBlank(t[|t| - 1]) then TrimEnd(t[..|t| - 1]) else t
  }

  function TrimStart(t: Text): Text
    decreases |t|
  {
    if t != [] && IsBlank(t[0]) then TrimStart(t[1..]) else t
  }

  /** Trimming takes nothing but white space off the end. */
  lemma {:induction false} TrimEndTakesBlanks(t: Text)
    ensures TrimEnd(t) <= t
    ensures forall i :: |TrimEnd(t)| <= i < |t| ==> IsBlank(t[i])
    decreases |t|
  {
    if t != [] && IsBlank(t[|t| - 1]) {
      TrimEndTakesBlanks(t[..|t| - 1]);
    }
  }

  /** `padLayoutLine` */
  function PadLine(line: Text, width: nat, centered: bool): (t: Text)
    ensures |t| == if |line| <= width then width else |line|
  {
    var padding := if |line| <= width then width - |line| else 0;
    var left := if centered then padding / 2 else 0;
    Blanks(left) + line + Blanks(padding - left)
  }

  // ---- boxes side by side ----------------------------------------------------------------------

  function Max(a: nat, b: nat): nat {
    if a < b then b else a
  }

  function Baseline(layouts: seq<Layout>): nat
    decreases |layouts|
  {
    if layouts == [] then 0 else Max(Baseline(layouts[..|layouts| - 1]), layouts[|layouts| - 1].baseline)
  }

  /** Lines below the baseline of a box. */
  function Under(l: Layout): nat {
    if l.baseline < |l.lines| then |l.lines| - l.baseline - 1 else 0
  }

  function Below(layouts: seq<Layout>): nat
    decreases |layouts|
  {
    if layouts == [] then 0 else Max(Below(layouts[..|layouts| - 1]), Under(layouts[|layouts| - 1]))
  }

  /** Where the box after these begins. */
  function Across(layouts: seq<Layout>): nat
    decreases |layouts|
  {
    if layouts == [] then 0 else Across(layouts[..|layouts| - 1]) + layouts[|layouts| - 1].width
  }

  /** A row of a box, as wide as the box; blank outside it. */
  function RowOf(l: Layout, row: int): Text {
    if 0 <= row < |l.lines| then PadLine(l.lines[row], l.width, false) else Blanks(l.width)
  }

  function FullRow(layouts: seq<Layout>, row: int, baseline: nat): Text
    decreases |layouts|
  {
    if layouts == [] then []
    else
      var last := layouts[|layouts| - 1];
      FullRow(layouts[..|layouts| - 1], row, baseline) + RowOf(last, row - baseline + last.baseline)
  }

  /** The first `height` rows, without the white space at their ends. */
  function Rows(layouts: seq<Layout>, baseline: nat, height: nat): (rows: seq<Text>)
    ensures |rows| == height
    ensures forall r {:trigger rows[r]} :: 0 <= r < height ==> rows[r] == TrimEnd(FullRow(layouts, r, baseline))
  {
    if height == 0 then []
    else Rows(layouts, baseline, height - 1) + [TrimEnd(FullRow(layouts, height - 1, baseline))]
  }

  function Join(layouts: seq<Layout>): Layout {
    if layouts == [] then Layout([[]], 0, 0)
    else
      Layout(Rows(layouts, Baseline(layouts), Baseline(layouts) + Below(layouts) + 1), Across(layouts), Baseline(layouts))
  }

  predicate AllGood(layouts: seq<Layout>) {
    forall i {:trigger layouts[i]} :: 0 <= i < |layouts| ==> Good(layouts[i])
  }

  lemma {:induction false} FullRowWidth(layouts: seq<Layout>, row: int, baseline: nat)
    requires AllGood(layouts)
    ensures |FullRow(layouts, row, baseline)| == Across(layouts)
    decreases |layouts|
  {
    if layouts != [] {
      FullRowWidth(layouts[..|layouts| - 1], row, baseline);
    }
  }

  lemma SliceOfSum<T>(a: seq<T>, b: seq<T>, lo: nat, hi: nat)
    requires lo <= hi <= |a|
    ensures (a + b)[lo..hi] == a[lo..hi] && (a + b)[|a|..|a| + |b|] == b
  {
  }

  lemma FrontOfBoxes(layouts: seq<Layout>, i: nat)
    requires AllGood(layouts) && layouts != [] && i < |layouts|
    ensures AllGood(layouts[..|layouts| - 1])
    ensures i < |layouts| - 1 ==> layouts[..|layouts| - 1][..i] == layouts[..i]
  {
  }

  lemma RowWidth(l: Layout, row: int)
    requires Good(l)
    ensures |RowOf(l, row)| == l.width
  {
  }

  lemma {:induction false} BoxInRow(layouts: seq<Layout>, i: nat, row: int, baseline: nat)
    requires AllGood(layouts) && i < |layouts|
    ensures var x := Across(layouts[..i]);
            && x + layouts[i].width <= |FullRow(layouts, row, baseline)|
            && FullRow(layouts, row, baseline)[x..x + layouts[i].width]
               == RowOf(layouts[i], row - baseline + layouts[i].baseline)
    decreases |layouts|
  {
    hide RowOf, Good;
    var front, last := layouts[..|layouts| - 1], layouts[|layouts| - 1];
    var lastRow := RowOf(last, row - baseline + last.baseline);
    var frontRow := FullRow(front, row, baseline);
    assert FullRow(layouts, row, baseline) == frontRow + lastRow;
    FrontOfBoxes(layouts, i);
    FullRowWidth(front, row, baseline);
    RowWidth(last, row - baseline + last.baseline);
    hide FullRow;
    if i < |front| {
      BoxInRow(front, i, row, baseline);
      SliceOfSum(frontRow, lastRow, Across(layouts[..i]), Across(layouts[..i]) + layouts[i].width);
    } else {
      SliceOfSum(frontRow, lastRow, 0, 0);
    }
  }

  lemma {:induction false} BaselineBounds(layouts: seq<Layout>, i: nat)
    requires i < |layouts|
    ensures layouts[i].baseline <= Baseline(layouts) && Under(layouts[i]) <= Below(layouts)
    decreases |layouts|
  {
    if i < |layouts| - 1 {
      BaselineBounds(layouts[..|layouts| - 1], i);
    }
  }

  /** The joined row that holds row `r` of box `i`: the boxes' baselines fall on one row. */
  function JoinedRow(layouts: seq<Layout>, i: nat, r: nat): (row: nat)
    requires AllGood(layouts) && i < |layouts| && r < |layouts[i].lines|
    ensures row < |Join(layouts).lines| && row - Join(layouts).baseline == r - layouts[i].baseline
  {
    BaselineBounds(layouts, i);
    assert Good(layouts[i]);
    Baseline(layouts) - layouts[i].baseline + r
  }

  /** Joining aligns all baselines and sets every box down intact: each of its rows is found, padded to
      its width, at the sum of the widths before it, up to trailing white space of the joined row. */
  lemma JoinPlacesBoxes(layouts: seq<Layout>, i: nat, r: nat)
    requires AllGood(layouts) && i < |layouts| && r < |layouts[i].lines|
    ensures var row := JoinedRow(layouts, i, r);
            var full := FullRow(layouts, row, Join(layouts).baseline);
            var x := Across(layouts[..i]);
            && x + layouts[i].width <= |full| == Join(layouts).width
            && full[x..x + layouts[i].width] == PadLine(layouts[i].lines[r], layouts[i].width, false)
            && Join(layouts).lines[row] <= full
            && (forall c :: |Join(layouts).lines[row]| <= c < |full| ==> IsBlank(full[c]))
  {
    hide FullRow, PadLine, TrimEnd, Across;
    var row := JoinedRow(layouts, i, r);
    BoxInRow(layouts, i, row, Baseline(layouts));
    FullRowWidth(layouts, row, Baseline(layouts));
    TrimEndTakesBlanks(FullRow(layouts, row, Baseline(layouts)));
  }

  /** And outside its own rows a box leaves its columns blank. */
  lemma JoinLeavesRestBlank(layouts: seq<Layout>, i: nat, row: nat)
    requires AllGood(layouts) && i < |layouts| && row < |Join(layouts).lines|
    requires !(0 <= row - Join(layouts).baseline + layouts[i].baseline < |layouts[i].lines|)
    ensures var x := Across(layouts[..i]);
            var full := FullRow(layouts, row, Join(layouts).baseline);
            x + layouts[i].width <= |full| && full[x..x + layouts[i].width] == Blanks(layouts[i].width)
  {
    BoxInRow(layouts, i, row, Baseline(layouts));
  }

  lemma JoinIsGood(layouts: seq<Layout>)
    requires AllGood(layouts)
    ensures Good(Join(layouts))
  {
    if layouts != [] {
      forall row | 0 <= row < |Join(layouts).lines|
        ensures |Join(layouts).lines[row]| <= Join(layouts).width
      {
        FullRowWidth(layouts, row, Baseline(layouts));
        TrimEndTakesBlanks(FullRow(layouts, row, Baseline(layouts)));
      }
    }
  }

  /** `joinLayouts` */
  method JoinLayouts(layouts: seq<Layout>) returns (joined: Layout)
    ensures joined == Join(layouts)
  {
    if |layouts| == 0 {
      return Layout([[]], 0, 0);
    }
    hide FullRow, TrimEnd, Baseline, Below, Across;
    var baseline, below, width := Extents(layouts);
    var lines: seq<Text> := [];
    for row := 0 to baseline + below + 1
      invariant lines == Rows(layouts, baseline, row)
    {
      var line := JoinRow(layouts, row, baseline);
      lines := lines + [TrimEnd(line)];
    }
    joined := Layout(lines, width, baseline);
  }

  method Extents(layouts: seq<Layout>) returns (baseline: nat, below: nat, width: nat)
    ensures baseline == Baseline(layouts) && below == Below(layouts) && width == Across(layouts)
  {
    baseline, below, width := 0, 0, 0;
    for i := 0 to |layouts|
      invariant baseline == Baseline(layouts[..i]) && below == Below(layouts[..i]) && width == Across(layouts[..i])
    {
      assert layouts[..i + 1][..i] == layouts[..i];
      baseline := Max(baseline, layouts[i].baseline);
      below := Max(below, Under(layouts[i]));
      width := width + layouts[i].width;
    }
    assert layouts[..|layouts|] == layouts;
  }

  lemma OneMoreInRow(layouts: seq<Layout>, i: nat, row: nat, baseline: nat)
    requires i < |layouts|
    ensures FullRow(layouts[..i + 1], row, baseline)
         == FullRow(layouts[..i], row, baseline) + RowOf(layouts[i], row - baseline + layouts[i].baseline)
  {
    assert layouts[..i + 1][..i] == layouts[..i];
  }

  method JoinRow(layouts: seq<Layout>, row: nat, baseline: nat) returns (line: Text)
    ensures line == FullRow(layouts, row, baseline)
  {
    hide FullRow, PadLine, Blanks;
    line := [];
    NoRow(row, baseline);
    assert layouts[..0] == [];
    for i := 0 to |layouts|
      invariant line == FullRow(layouts[..i], row, baseline)
    {
      OneMoreInRow(layouts, i, row, baseline);
      var layout := layouts[i];
      var sourceRow := row - baseline + layout.baseline;
      if 0 <= sourceRow < |layout.lines| {
        line := line + PadLine(layout.lines[sourceRow], layout.width, false);
      } else {
        line := line + Blanks(layout.width);
      }
    }
    assert layouts[..|layouts|] == layouts;
  }

  lemma NoRow(row: nat, baseline: nat)
    ensures FullRow([], row, baseline) == []
  {
  }

  // ---- nodes -----------------------------------------------------------------------------------

  /** Markers of nodes that exist are below `bound`. */
  predicate Mentions(t: Text, nodes: nat, bound: nat) {
    forall i {:trigger t[i]} :: 0 <= i < |t| && t[i].Mark? && t[i].node < nodes ==> t[i].node < bound
  }

  /** The text of a fraction mentions only nodes that come before it. */
  predicate NodeNumbered(node: Node, i: nat, nodes: nat) {
    && (node.Fraction? ==> Mentions(node.numerator, nodes, i) && Mentions(node.denominator, nodes, i))
    && (node.Matrix? ==> node.rows != [])
  }

  predicate Numbered(nodes: seq<Node>) {
    forall i {:trigger nodes[i]} :: 0 <= i < |nodes| ==> NodeNumbered(nodes[i], i, |nodes|)
  }

  function Longest(lines: seq<Text>): (n: nat)
    ensures forall r :: 0 <= r < |lines| ==> |lines[r]| <= n
    decreases |lines|
  {
    if lines == [] then 0
    else
      var front := lines[..|lines| - 1];
      assert forall r :: 0 <= r < |front| ==> |front[r]| <= Longest(front) && front[r] == lines[r];
      Max(Longest(front), |lines[|lines| - 1]|)
  }

  function PadAll(lines: seq<Text>, width: nat, centered: bool): seq<Text> {
    seq(|lines|, r requires 0 <= r < |lines| => PadLine(lines[r], width, centered))
  }

  /** Numerator over bar over denominator; the bar is the baseline. */
  function Stack(numerator: Layout, denominator: Layout): Layout {
    var contentWidth := Max(Max(numerator.width, denominator.width), 1);
    var width := contentWidth + 2;
    Layout(PadAll(numerator.lines, width, true)
           + [[Blank] + seq(contentWidth, i => Bar) + [Blank]]
           + PadAll(denominator.lines, width, true),
           width, |numerator.lines|)
  }

  function Limits(operator: Text, lower: Option<Text>, upper: Option<Text>): Layout {
    var l, u := OrEmpty(lower), OrEmpty(upper);
    var contentWidth := Max(|operator|, Max(|l|, |u|));
    Layout((if upper.Some? then [PadLine(u, contentWidth, true) + [Blank]] else [])
           + [PadLine(operator, contentWidth, true) + [Blank]]
           + (if lower.Some? then [PadLine(l, contentWidth, true) + [Blank]] else []),
           contentWidth + 1, if upper.Some? then 1 else 0)
  }

  function Grid(rows: seq<Text>): Layout {
    Layout(PadAll(rows, Longest(rows), false), Longest(rows), 0)
  }

  /** The line begins in column `at` of the row, and the rest of the row is blank. */
  predicate StandsAt(row: Text, at: nat, line: Text) {
    && at + |line| <= |row| && row[at..at + |line|] == line
    && forall c :: 0 <= c < |row| && !(at <= c < at + |line|) ==> row[c] == Blank
  }

  /** A centred line has at its left as many columns as at its right, or one less. */
  function Margin(line: Text, width: nat): (at: nat)
    ensures |line| <= width ==> at + |line| + at <= width <= at + |line| + at + 1
  {
    if |line| <= width then (width - |line|) / 2 else 0
  }

  lemma PaddedStandsAt(line: Text, width: nat, centered: bool)
    requires |line| <= width
    ensures |PadLine(line, width, centered)| == width
    ensures StandsAt(PadLine(line, width, centered), if centered then Margin(line, width) else 0, line)
  {
    var at := if centered then Margin(line, width) else 0;
    var row := PadLine(line, width, centered);
    assert row == Blanks(at) + line + Blanks(width - |line| - at);
    assert forall c :: 0 <= c < at ==> row[c] == Blanks(at)[c];
    assert forall c :: at + |line| <= c < width ==> row[c] == Blanks(width - |line| - at)[c - at - |line|];
  }

  /** A stacked fraction has its bar as baseline, all across but for a column at either end, and every line of
      the two parts centred above and below it. */
  lemma StackPlacesParts(numerator: Layout, denominator: Layout)
    requires Good(numerator) && Good(denominator)
    ensures var s := Stack(numerator, denominator);
            && Good(s) && |s.lines| == |numerator.lines| + 1 + |denominator.lines| && s.baseline == |numerator.lines|
            && (forall r :: 0 <= r < |s.lines| ==> |s.lines[r]| == s.width)
            && s.lines[s.baseline][0] == Blank == s.lines[s.baseline][s.width - 1]
            && (forall c :: 0 < c < s.width - 1 ==> s.lines[s.baseline][c] == Bar)
            && (forall r {:trigger numerator.lines[r]} :: 0 <= r < |numerator.lines| ==>
                  StandsAt(s.lines[r], Margin(numerator.lines[r], s.width), numerator.lines[r]))
            && (forall r {:trigger denominator.lines[r]} :: 0 <= r < |denominator.lines| ==>
                  StandsAt(s.lines[s.baseline + 1 + r], Margin(denominator.lines[r], s.width), denominator.lines[r]))
  {
    var s := Stack(numerator, denominator);
    hide PadLine, StandsAt;
    forall r | 0 <= r < |numerator.lines|
      ensures StandsAt(s.lines[r], Margin(numerator.lines[r], s.width), numerator.lines[r])
    {
      PaddedStandsAt(numerator.lines[r], s.width, true);
    }
    forall r | 0 <= r < |denominator.lines|
      ensures StandsAt(s.lines[s.baseline + 1 + r], Margin(denominator.lines[r], s.width), denominator.lines[r])
    {
      PaddedStandsAt(denominator.lines[r], s.width, true);
    }
  }

  /** The limits of an operator are centred above and below it, and a blank column follows. */
  lemma LimitsPlaceParts(operator: Text, lower: Option<Text>, upper: Option<Text>)
    ensures var l := Limits(operator, lower, upper);
            && Good(l) && |l.lines| == 1 + (if lower.Some? then 1 else 0) + (if upper.Some? then 1 else 0)
            && StandsAt(l.lines[l.baseline], Margin(operator, l.width - 1), operator)
            && (upper.Some? ==> l.baseline == 1 && StandsAt(l.lines[0], Margin(upper.value, l.width - 1), upper.value))
            && (lower.Some? ==> StandsAt(l.lines[l.baseline + 1], Margin(lower.value, l.width - 1), lower.value))
            && forall r :: 0 <= r < |l.lines| ==> |l.lines[r]| == l.width && l.lines[r][l.width - 1] == Blank
  {
    hide PadLine, StandsAt, Margin;
    var width := Limits(operator, lower, upper).width - 1;
    CentredWithBlank(operator, width);
    if upper.Some? { CentredWithBlank(upper.value, width); }
    if lower.Some? { CentredWithBlank(lower.value, width); }
  }

  lemma CentredWithBlank(line: Text, width: nat)
    requires |line| <= width
    ensures var row := PadLine(line, width, true) + [Blank];
            |row| == width + 1 && row[width] == Blank && StandsAt(row, Margin(line, width), line)
  {
    PaddedStandsAt(line, width, true);
    var padded, row := PadLine(line, width, true), PadLine(line, width, true) + [Blank];
    hide PadLine;
    assert forall c :: 0 <= c < width ==> row[c] == padded[c];
    var at := Margin(line, width);
    assert row[at..at + |line|] == padded[at..at + |line|];
  }

  lemma GridIsGood(rows: seq<Text>)
    requires rows != []
    ensures Good(Grid(rows))
  {
  }

  // ---- ink -------------------------------------------------------------------------------------

  /** An item that is neither white space nor part of a bar. */
  predicate Visible(x: Item) {
    !IsBlank(x) && x != Bar
  }

  function Count(t: Text, x: Item): nat
    decreases |t|
  {
    if t == [] then 0 else Count(t[..|t| - 1], x) + if t[|t| - 1] == x then 1 else 0
  }

  function CountLines(lines: seq<Text>, x: Item): nat
    decreases |lines|
  {
    if lines == [] then 0 else CountLines(lines[..|lines| - 1], x) + Count(lines[|lines| - 1], x)
  }

  lemma {:induction false} CountSum(a: Text, b: Text, x: Item)
    ensures Count(a + b, x) == Count(a, x) + Count(b, x)
    decreases |b|
  {
    if b == [] {
      assert a + b == a;
    } else {
      assert (a + b)[..|a + b| - 1] == a + b[..|b| - 1];
      CountSum(a, b[..|b| - 1], x);
    }
  }

  lemma {:induction false} CountLinesSum(a: seq<Text>, b: seq<Text>, x: Item)
    ensures CountLines(a + b, x) == CountLines(a, x) + CountLines(b, x)
    decreases |b|
  {
    if b == [] {
      assert a + b == a;
    } else {
      assert (a + b)[..|a + b| - 1] == a + b[..|b| - 1];
      CountLinesSum(a, b[..|b| - 1], x);
    }
  }

  lemma {:induction false} CountBlank(t: Text, x: Item)
    requires forall i :: 0 <= i < |t| ==> t[i] != x
    ensures Count(t, x) == 0
    decreases |t|
  {
    if t != [] {
      CountBlank(t[..|t| - 1], x);
    }
  }

  lemma {:induction false} TrimKeepsInk(t: Text, x: Item)
    requires !IsBlank(x)
    ensures Count(TrimEnd(t), x) == Count(t, x) == Count(TrimStart(t), x)
    decreases |t|
  {
    if t != [] {
      if IsBlank(t[|t| - 1]) {
        TrimKeepsInk(t[..|t| - 1], x);
      }
      if IsBlank(t[0]) {
        TrimKeepsInk(t[1..], x);
        assert t == [t[0]] + t[1..];
        CountSum([t[0]], t[1..], x);
        CountBlank([t[0]], x);
      }
    }
  }

  lemma PadKeepsInk(line: Text, width: nat, centered: bool, x: Item)
    requires !IsBlank(x)
    ensures Count(PadLine(line, width, centered), x) == Count(line, x)
  {
    var padding := if |line| <= width then width - |line| else 0;
    var left := if centered then padding / 2 else 0;
    CountBlank(Blanks(left), x);
    CountBlank(Blanks(padding - left), x);
    CountSum(Blanks(left), line, x);
    CountSum(Blanks(left) + line, Blanks(padding - left), x);
  }

  lemma {:induction false} PadAllKeepsInk(lines: seq<Text>, width: nat, centered: bool, x: Item)
    requires !IsBlank(x)
    ensures CountLines(PadAll(lines, width, centered), x) == CountLines(lines, x)
    decreases |lines|
  {
    if lines != [] {
      PadAllKeepsInk(lines[..|lines| - 1], width, centered, x);
      var padded := PadAll(lines, width, centered);
      assert padded[..|padded| - 1] == PadAll(lines[..|lines| - 1], width, centered);
      PadKeepsInk(lines[|lines| - 1], width, centered, x);
    }
  }

  /** The ink of boxes. */
  function InkOf(layouts: seq<Layout>, x: Item): nat
    decreases |layouts|
  {
    if layouts == [] then 0 else InkOf(layouts[..|layouts| - 1], x) + CountLines(layouts[|layouts| - 1].lines, x)
  }

  /** The ink in the first `height` joined rows. */
  function RowsInk(layouts: seq<Layout>, baseline: nat, height: nat, x: Item): nat
    decreases height
  {
    if height == 0 then 0
    else RowsInk(layouts, baseline, height - 1, x) + Count(FullRow(layouts, height - 1, baseline), x)
  }

  /** The ink of one box in the first `height` rows, the box starting at row `shift`. */
  function BoxInk(l: Layout, shift: int, height: nat, x: Item): nat
    decreases height
  {
    if height == 0 then 0 else BoxInk(l, shift, height - 1, x) + Count(RowOf(l, height - 1 - shift), x)
  }

  lemma {:induction false} RowsInkSplits(layouts: seq<Layout>, baseline: nat, height: nat, x: Item)
    requires layouts != []
    ensures var last := layouts[|layouts| - 1];
            RowsInk(layouts, baseline, height, x)
              == RowsInk(layouts[..|layouts| - 1], baseline, height, x) + BoxInk(last, baseline - last.baseline, height, x)
    decreases height
  {
    hide Count, RowOf;
    if height > 0 {
      var last := layouts[|layouts| - 1];
      var lastRow := RowOf(last, height - 1 - baseline + last.baseline);
      assert FullRow(layouts, height - 1, baseline) == FullRow(layouts[..|layouts| - 1], height - 1, baseline) + lastRow;
      hide FullRow;
      RowsInkSplits(layouts, baseline, height - 1, x);
      CountSum(FullRow(layouts[..|layouts| - 1], height - 1, baseline), lastRow, x);
    }
  }

  /** How many of a box's lines are within the first `height` rows. */
  function Shown(l: Layout, shift: nat, height: nat): (n: nat)
    ensures n <= |l.lines|
  {
    if height <= shift then 0 else if height - shift <= |l.lines| then height - shift else |l.lines|
  }

  lemma RowInk(l: Layout, row: int, x: Item)
    requires !IsBlank(x)
    ensures Count(RowOf(l, row), x) == if 0 <= row < |l.lines| then Count(l.lines[row], x) else 0
  {
    hide Count, PadLine;
    if 0 <= row < |l.lines| {
      PadKeepsInk(l.lines[row], l.width, false, x);
    } else {
      CountBlank(Blanks(l.width), x);
    }
  }

  lemma NextLine(lines: seq<Text>, row: nat, x: Item)
    requires row < |lines|
    ensures CountLines(lines[..row + 1], x) == CountLines(lines[..row], x) + Count(lines[row], x)
  {
    assert lines[..row + 1][..row] == lines[..row];
  }

  lemma {:induction false} BoxInkIsAll(l: Layout, shift: nat, height: nat, x: Item)
    requires !IsBlank(x)
    ensures BoxInk(l, shift, height, x) == CountLines(l.lines[..Shown(l, shift, height)], x)
    decreases height
  {
    hide Count, RowOf;
    if height > 0 {
      BoxInkIsAll(l, shift, height - 1, x);
      var row := height - 1 - shift;
      RowInk(l, row, x);
      if 0 <= row < |l.lines| {
        NextLine(l.lines, row, x);
      }
    }
  }

  lemma {:induction false} RowsInkIsAll(layouts: seq<Layout>, baseline: nat, height: nat, x: Item)
    requires !IsBlank(x) && AllGood(layouts) && Baseline(layouts) <= baseline && baseline + Below(layouts) < height
    ensures RowsInk(layouts, baseline, height, x) == InkOf(layouts, x)
    decreases |layouts|
  {
    hide Count, RowsInk, BoxInk, FullRow, CountLines;
    if layouts == [] {
      NoBoxesNoInk(baseline, height, x);
    } else {
      var front, last := layouts[..|layouts| - 1], layouts[|layouts| - 1];
      FrontOfBoxes(layouts, 0);
      RowsInkIsAll(front, baseline, height, x);
      RowsInkSplits(layouts, baseline, height, x);
      BoxInkIsAll(last, baseline - last.baseline, height, x);
      assert Good(last) && Shown(last, baseline - last.baseline, height) == |last.lines|;
      assert last.lines[..|last.lines|] == last.lines;
    }
  }

  lemma {:induction false} NoBoxesNoInk(baseline: nat, height: nat, x: Item)
    ensures RowsInk([], baseline, height, x) == 0
    decreases height
  {
    if height > 0 {
      NoBoxesNoInk(baseline, height - 1, x);
    }
  }

  lemma {:induction false} JoinedRowsInk(layouts: seq<Layout>, baseline: nat, height: nat, x: Item)
    requires !IsBlank(x)
    ensures CountLines(Rows(layouts, baseline, height), x) == RowsInk(layouts, baseline, height, x)
    decreases height
  {
    hide Count, FullRow, TrimEnd;
    if height > 0 {
      JoinedRowsInk(layouts, baseline, height - 1, x);
      var rows := Rows(layouts, baseline, height);
      assert rows[..height - 1] == Rows(layouts, baseline, height - 1);
      TrimKeepsInk(FullRow(layouts, height - 1, baseline), x);
    }
  }

  /** Joining neither loses nor adds ink. */
  lemma JoinKeepsInk(layouts: seq<Layout>, x: Item)
    requires !IsBlank(x) && AllGood(layouts)
    ensures CountLines(Join(layouts).lines, x) == InkOf(layouts, x)
  {
    hide CountLines, InkOf, RowsInk, Rows, Baseline, Below;
    if layouts != [] {
      var height := Baseline(layouts) + Below(layouts) + 1;
      JoinedRowsInk(layouts, Baseline(layouts), height, x);
      RowsInkIsAll(layouts, Baseline(layouts), height, x);
    } else {
      NothingHasNoInk(x);
    }
  }

  lemma NothingHasNoInk(x: Item)
    ensures CountLines(Join([]).lines, x) == 0 && InkOf([], x) == 0
  {
    OneLine([], x);
  }

  /** How often an item is to be drawn for a text, its nodes included. */
  function Expanded(t: Text, nodes: seq<Node>, bound: nat, x: Item): nat
    requires Numbered(nodes) && Mentions(t, |nodes|, bound)
    decreases bound, 1, |t|
  {
    if t == [] then 0
    else
      var last := t[|t| - 1];
      Expanded(t[..|t| - 1], nodes, bound, x)
        + if last.Mark? && last.node < |nodes| then NodeInk(nodes, last.node, x) else if last == x then 1 else 0
  }

  function NodeInk(nodes: seq<Node>, i: nat, x: Item): nat
    requires Numbered(nodes) && i < |nodes|
    decreases i, 2, 0
  {
    assert NodeNumbered(nodes[i], i, |nodes|);
    match nodes[i]
    case Fraction(numerator, denominator) => Expanded(numerator, nodes, i, x) + Expanded(denominator, nodes, i, x)
    case Operator(operator, lower, upper) =>
      Count(operator, x) + Count(OrEmpty(lower), x) + Count(OrEmpty(upper), x)
    case Matrix(rows) => CountLines(rows, x)
  }

  function OrEmpty(t: Option<Text>): Text {
    if t.Some? then t.value else []
  }

  lemma StackKeepsInk(numerator: Layout, denominator: Layout, x: Item)
    requires !IsBlank(x) && x != Bar
    ensures CountLines(Stack(numerator, denominator).lines, x) == CountLines(numerator.lines, x) + CountLines(denominator.lines, x)
  {
    hide Count, CountLines, PadLine;
    var contentWidth := Max(Max(numerator.width, denominator.width), 1);
    var bar := [Blank] + seq(contentWidth, i => Bar) + [Blank];
    CountBlank(bar, x);
    hide PadAll;
    var above, under := PadAll(numerator.lines, contentWidth + 2, true), PadAll(denominator.lines, contentWidth + 2, true);
    PadAllKeepsInk(numerator.lines, contentWidth + 2, true, x);
    PadAllKeepsInk(denominator.lines, contentWidth + 2, true, x);
    CountLinesSum(above, [bar], x);
    CountLinesSum(above + [bar], under, x);
    OneLine(bar, x);
  }

  lemma OneLine(line: Text, x: Item)
    ensures CountLines([line], x) == Count(line, x)
  {
    assert [line][..0] == [];
  }

  lemma PaddedLineInk(t: Text, width: nat, x: Item)
    requires !IsBlank(x)
    ensures CountLines([PadLine(t, width, true) + [Blank]], x) == Count(t, x)
  {
    OneLine(PadLine(t, width, true) + [Blank], x);
    PadKeepsInk(t, width, true, x);
    CountSum(PadLine(t, width, true), [Blank], x);
    CountBlank([Blank], x);
  }

  lemma LimitsKeepInk(operator: Text, lower: Option<Text>, upper: Option<Text>, x: Item)
    requires !IsBlank(x)
    ensures CountLines(Limits(operator, lower, upper).lines, x)
         == Count(operator, x) + Count(OrEmpty(lower), x) + Count(OrEmpty(upper), x)
  {
    var l, u := OrEmpty(lower), OrEmpty(upper);
    var width := Max(|operator|, Max(|l|, |u|));
    var top := if upper.Some? then [PadLine(u, width, true) + [Blank]] else [];
    var middle := [PadLine(operator, width, true) + [Blank]];
    var bottom := if lower.Some? then [PadLine(l, width, true) + [Blank]] else [];
    PaddedLineInk(u, width, x);
    PaddedLineInk(operator, width, x);
    PaddedLineInk(l, width, x);
    CountLinesSum(top, middle, x);
    CountLinesSum(top + middle, bottom, x);
  }

  // ---- the parts of a line ---------------------------------------------------------------------

  function Box(t: Text): Layout {
    Layout([t], |t|, 0)
  }

  /** The text before a node, trimmed towards its neighbours; a blank next to a matrix stays. */
  function Between(sliced: Text, previous: Option<Node>, next: Node): Text {
    var trimmed := TrimEnd(if previous.Some? then TrimStart(sliced) else sliced);
    var leading := previous.Some? && previous.value.Matrix? && sliced != [] && IsBlank(sliced[0]);
    var trailing := next.Matrix? && sliced != [] && IsBlank(sliced[|sliced| - 1]);
    if trimmed != [] then (if leading then [Blank] else []) + trimmed + (if trailing then [Blank] else [])
    else if leading || trailing then [Blank] else []
  }

  function After(sliced: Text, previous: Option<Node>): Text {
    var trimmed := if previous.Some? then TrimStart(sliced) else sliced;
    if previous.Some? && previous.value.Matrix? && sliced != [] && IsBlank(sliced[0]) then [Blank] + trimmed else trimmed
  }

  datatype Part = Words(text: Text) | NodeBox(node: nat)

  predicate IsMark(item: Item, nodes: nat) {
    item.Mark? && item.node < nodes
  }

  function FirstMark(line: Text, nodes: nat): (k: nat)
    ensures k <= |line| && (k < |line| ==> IsMark(line[k], nodes))
    ensures forall i :: 0 <= i < k ==> !IsMark(line[i], nodes)
    decreases |line|
  {
    if line == [] || IsMark(line[0], nodes) then 0 else 1 + FirstMark(line[1..], nodes)
  }

  /** Text and nodes in the order in which they stand in the line. */
  function Parts(line: Text, previous: Option<Node>, nodes: seq<Node>): seq<Part>
    decreases |line|
  {
    var k := FirstMark(line, |nodes|);
    if k == |line| then
      if line == [] then [] else [Words(After(line, previous))]
    else
      var node := nodes[line[k].node];
      (if k == 0 then [] else [Words(Between(line[..k], previous, node))])
      + [NodeBox(line[k].node)]
      + Parts(line[k + 1..], Some(node), nodes)
  }

  predicate PartsBelow(parts: seq<Part>, nodes: nat, bound: nat) {
    forall k {:trigger parts[k]} :: 0 <= k < |parts| && parts[k].NodeBox? ==> parts[k].node < nodes && parts[k].node < bound
  }

  lemma SumsAreBelow(a: seq<Part>, b: seq<Part>, nodes: nat, bound: nat)
    requires PartsBelow(a, nodes, bound) && PartsBelow(b, nodes, bound)
    ensures PartsBelow(a + b, nodes, bound)
  {
  }

  lemma RestMentions(line: Text, k: nat, nodes: nat, bound: nat)
    requires Mentions(line, nodes, bound) && k < |line|
    ensures Mentions(line[k + 1..], nodes, bound) && (IsMark(line[k], nodes) ==> line[k].node < bound)
  {
    var rest := line[k + 1..];
    assert forall i :: 0 <= i < |rest| ==> rest[i] == line[k + 1 + i];
  }

  lemma HeadIsBelow(words: Text, some: bool, node: nat, nodes: nat, bound: nat)
    requires node < nodes && node < bound
    ensures PartsBelow((if some then [] else [Words(words)]) + [NodeBox(node)], nodes, bound)
  {
  }

  lemma {:induction false} PartsAreBelow(line: Text, previous: Option<Node>, nodes: seq<Node>, bound: nat)
    requires Mentions(line, |nodes|, bound)
    ensures PartsBelow(Parts(line, previous, nodes), |nodes|, bound)
    decreases |line|
  {
    var k := FirstMark(line, |nodes|);
    if k < |line| {
      hide Between, After, Mentions, PartsBelow;
      RestMentions(line, k, |nodes|, bound);
      var i := line[k].node;
      var words := Between(line[..k], previous, nodes[i]);
      HeadIsBelow(words, k == 0, i, |nodes|, bound);
      PartsAreBelow(line[k + 1..], Some(nodes[i]), nodes, bound);
      SumsAreBelow((if k == 0 then [] else [Words(words)]) + [NodeBox(i)], Parts(line[k + 1..], Some(nodes[i]), nodes),
                   |nodes|, bound);
    }
  }

  /** The lines of a text. */
  function Lines(t: Text): (lines: seq<Text>)
    ensures lines != []
    decreases |t|
  {
    if t == [] then [[]]
    else
      var before := Lines(t[..|t| - 1]);
      var last := |before| - 1;
      if t[|t| - 1] == Char('\n') then before + [[]]
      else before[last := before[last] + [t[|t| - 1]]]
  }

  predicate AllMention(lines: seq<Text>, nodes: nat, bound: nat) {
    forall r {:trigger lines[r]} :: 0 <= r < |lines| ==> Mentions(lines[r], nodes, bound)
  }

  lemma {:induction false} LinesMention(t: Text, nodes: nat, bound: nat)
    requires Mentions(t, nodes, bound)
    ensures AllMention(Lines(t), nodes, bound)
    decreases |t|
  {
    if t != [] {
      assert t[|t| - 1].Mark? && t[|t| - 1].node < nodes ==> t[|t| - 1].node < bound;
      LinesMention(t[..|t| - 1], nodes, bound);
    }
  }

  // ---- what a source looks like ----------------------------------------------------------------

  function BoxOf(part: Part, nodes: seq<Node>, bound: nat): Layout
    requires Numbered(nodes) && (part.NodeBox? ==> part.node < |nodes| && part.node < bound)
    decreases bound, 0, 0
  {
    match part
    case Words(text) => Box(text)
    case NodeBox(i) => NodeLayout(nodes, i)
  }

  function BoxesOf(parts: seq<Part>, nodes: seq<Node>, bound: nat): seq<Layout>
    requires Numbered(nodes) && PartsBelow(parts, |nodes|, bound)
    decreases bound, 1, |parts|
  {
    if parts == [] then []
    else BoxesOf(parts[..|parts| - 1], nodes, bound) + [BoxOf(parts[|parts| - 1], nodes, bound)]
  }

  /** A line is its parts side by side. */
  function LineLayout(line: Text, nodes: seq<Node>, bound: nat): Layout
    requires Numbered(nodes) && Mentions(line, |nodes|, bound)
    decreases bound, 2, 0
  {
    PartsAreBelow(line, None, nodes, bound);
    Join(BoxesOf(Parts(line, None, nodes), nodes, bound))
  }

  /** The rows of lines one under the other. */
  function LinesLayout(lines: seq<Text>, nodes: seq<Node>, bound: nat): seq<Text>
    requires Numbered(nodes) && AllMention(lines, |nodes|, bound)
    decreases bound, 3, |lines|
  {
    if lines == [] then []
    else
      assert Mentions(lines[|lines| - 1], |nodes|, bound);
      LinesLayout(lines[..|lines| - 1], nodes, bound) + LineLayout(lines[|lines| - 1], nodes, bound).lines
  }

  /** A source, with the baseline of its first line. Well defined because the nodes a line mentions are
      below `bound`, and the text of each mentions only nodes below itself. */
  function Render(source: Text, nodes: seq<Node>, bound: nat): Layout
    requires Numbered(nodes) && Mentions(source, |nodes|, bound)
    decreases bound, 4, 0
  {
    LinesMention(source, |nodes|, bound);
    assert Mentions(Lines(source)[0], |nodes|, bound);
    var rows := LinesLayout(Lines(source), nodes, bound);
    Layout(rows, Longest(rows), LineLayout(Lines(source)[0], nodes, bound).baseline)
  }

  function NodeLayout(nodes: seq<Node>, i: nat): Layout
    requires Numbered(nodes) && i < |nodes|
    decreases i, 5, 0
  {
    assert NodeNumbered(nodes[i], i, |nodes|);
    match nodes[i]
    case Fraction(numerator, denominator) => Stack(Render(numerator, nodes, i), Render(denominator, nodes, i))
    case Operator(operator, lower, upper) => Limits(operator, lower, upper)
    case Matrix(rows) => Grid(rows)
  }

  // ---- every box is good -----------------------------------------------------------------------

  lemma {:induction false} BoxesAreGood(parts: seq<Part>, nodes: seq<Node>, bound: nat)
    requires Numbered(nodes) && PartsBelow(parts, |nodes|, bound)
    ensures AllGood(BoxesOf(parts, nodes, bound)) && |BoxesOf(parts, nodes, bound)| == |parts|
    decreases bound, 1, |parts|
  {
    if parts != [] {
      BoxesAreGood(parts[..|parts| - 1], nodes, bound);
      if parts[|parts| - 1].NodeBox? {
        NodeIsGood(nodes, parts[|parts| - 1].node);
      }
    }
  }

  lemma LineIsGood(line: Text, nodes: seq<Node>, bound: nat)
    requires Numbered(nodes) && Mentions(line, |nodes|, bound)
    ensures Good(LineLayout(line, nodes, bound))
    decreases bound, 2, 0
  {
    PartsAreBelow(line, None, nodes, bound);
    BoxesAreGood(Parts(line, None, nodes), nodes, bound);
    JoinIsGood(BoxesOf(Parts(line, None, nodes), nodes, bound));
  }

  lemma {:induction false} FirstLineComesFirst(lines: seq<Text>, nodes: seq<Node>, bound: nat)
    requires Numbered(nodes) && AllMention(lines, |nodes|, bound) && lines != []
    ensures Mentions(lines[0], |nodes|, bound)
    ensures |LineLayout(lines[0], nodes, bound).lines| <= |LinesLayout(lines, nodes, bound)|
    decreases |lines|
  {
    hide LineLayout, Mentions;
    if |lines| > 1 {
      FirstLineComesFirst(lines[..|lines| - 1], nodes, bound);
    }
  }

  /** The baseline of what is rendered is one of its lines, and no line is wider than it. */
  lemma RenderIsGood(source: Text, nodes: seq<Node>, bound: nat)
    requires Numbered(nodes) && Mentions(source, |nodes|, bound)
    ensures Good(Render(source, nodes, bound))
    decreases bound, 4, 0
  {
    LinesMention(source, |nodes|, bound);
    var first := Lines(source)[0];
    assert Mentions(first, |nodes|, bound);
    LineIsGood(first, nodes, bound);
    FirstLineComesFirst(Lines(source), nodes, bound);
    hide LineLayout, LinesLayout;
  }

  lemma NodeIsGood(nodes: seq<Node>, i: nat)
    requires Numbered(nodes) && i < |nodes|
    ensures Good(NodeLayout(nodes, i))
    decreases i, 5, 0
  {
    assert NodeNumbered(nodes[i], i, |nodes|);
    match nodes[i] {
      case Fraction(numerator, denominator) =>
        RenderIsGood(numerator, nodes, i);
        RenderIsGood(denominator, nodes, i);
        StackPlacesParts(Render(numerator, nodes, i), Render(denominator, nodes, i));
      case Operator(operator, lower, upper) => LimitsPlaceParts(operator, lower, upper);
      case Matrix(rows) => GridIsGood(rows);
    }
  }

  // ---- nothing is lost or drawn twice ----------------------------------------------------------

  lemma NoInk(x: Item)
    ensures Count([], x) == 0
  {
  }

  lemma BetweenKeepsInk(sliced: Text, previous: Option<Node>, next: Node, x: Item)
    requires !IsBlank(x)
    ensures Count(Between(sliced, previous, next), x) == Count(sliced, x)
  {
    NoInk(x);
    CountBlank([Blank], x);
    hide Count, TrimEnd, TrimStart, IsBlank;
    var started := if previous.Some? then TrimStart(sliced) else sliced;
    TrimKeepsInk(sliced, x);
    TrimKeepsInk(started, x);
    var leading := previous.Some? && previous.value.Matrix? && sliced != [] && IsBlank(sliced[0]);
    var trailing := next.Matrix? && sliced != [] && IsBlank(sliced[|sliced| - 1]);
    var before, after := if leading then [Blank] else [], if trailing then [Blank] else [];
    CountSum(before, TrimEnd(started), x);
    CountSum(before + TrimEnd(started), after, x);
  }

  lemma AfterKeepsInk(sliced: Text, previous: Option<Node>, x: Item)
    requires !IsBlank(x)
    ensures Count(After(sliced, previous), x) == Count(sliced, x)
  {
    TrimKeepsInk(sliced, x);
    CountBlank([Blank], x);
    CountSum([Blank], TrimStart(sliced), x);
  }

  lemma GridKeepsInk(rows: seq<Text>, x: Item)
    requires !IsBlank(x)
    ensures CountLines(Grid(rows).lines, x) == CountLines(rows, x)
  {
    PadAllKeepsInk(rows, Longest(rows), false, x);
  }

  function PartInk(part: Part, nodes: seq<Node>, x: Item): nat
    requires Numbered(nodes) && (part.NodeBox? ==> part.node < |nodes|)
  {
    match part
    case Words(text) => Count(text, x)
    case NodeBox(i) => NodeInk(nodes, i, x)
  }

  function PartsInk(parts: seq<Part>, nodes: seq<Node>, x: Item): nat
    requires Numbered(nodes) && PartsBelow(parts, |nodes|, |nodes|)
    decreases |parts|
  {
    if parts == [] then 0
    else
      var last := parts[|parts| - 1];
      PartsInk(parts[..|parts| - 1], nodes, x)
        + PartInk(last, nodes, x)
  }

  lemma {:induction false} PartsInkSum(a: seq<Part>, b: seq<Part>, nodes: seq<Node>, x: Item)
    requires Numbered(nodes) && PartsBelow(a + b, |nodes|, |nodes|)
    ensures PartsBelow(a, |nodes|, |nodes|) && PartsBelow(b, |nodes|, |nodes|)
    ensures PartsInk(a + b, nodes, x) == PartsInk(a, nodes, x) + PartsInk(b, nodes, x)
    decreases |b|
  {
    assert forall k :: 0 <= k < |a| ==> (a + b)[k] == a[k];
    assert forall k :: 0 <= k < |b| ==> (a + b)[|a| + k] == b[k];
    if b == [] {
      assert a + b == a;
    } else {
      assert (a + b)[..|a + b| - 1] == a + b[..|b| - 1];
      PartsInkSum(a, b[..|b| - 1], nodes, x);
    }
  }

  function ExpandedLines(lines: seq<Text>, nodes: seq<Node>, bound: nat, x: Item): nat
    requires Numbered(nodes) && AllMention(lines, |nodes|, bound)
    decreases |lines|
  {
    if lines == [] then 0
    else
      assert Mentions(lines[|lines| - 1], |nodes|, bound);
      ExpandedLines(lines[..|lines| - 1], nodes, bound, x) + Expanded(lines[|lines| - 1], nodes, bound, x)
  }

  /** How the last item of a text changes its lines. */
  lemma LastLine(t: Text)
    requires t != []
    ensures var before, lines := Lines(t[..|t| - 1]), Lines(t);
            if t[|t| - 1] == Char('\n') then
              lines[..|lines| - 1] == before && lines[|lines| - 1] == []
            else
              |lines| == |before| && lines[..|lines| - 1] == before[..|before| - 1]
              && lines[|lines| - 1] == before[|before| - 1] + [t[|t| - 1]]
  {
  }

  lemma OneMoreItem(t: Text, item: Item, nodes: seq<Node>, bound: nat, x: Item)
    requires Numbered(nodes) && Mentions(t + [item], |nodes|, bound)
    ensures Mentions(t, |nodes|, bound)
    ensures Expanded(t + [item], nodes, bound, x) == Expanded(t, nodes, bound, x) + ItemInk(item, nodes, x)
  {
    assert forall k :: 0 <= k < |t| ==> (t + [item])[k] == t[k];
    assert (t + [item])[..|t|] == t;
  }

  function ItemInk(item: Item, nodes: seq<Node>, x: Item): nat
    requires Numbered(nodes)
  {
    if item.Mark? && item.node < |nodes| then NodeInk(nodes, item.node, x) else if item == x then 1 else 0
  }

  lemma LinesStepInk(before: seq<Text>, lines: seq<Text>, item: Item, nodes: seq<Node>, bound: nat, x: Item)
    requires Numbered(nodes) && AllMention(before, |nodes|, bound) && AllMention(lines, |nodes|, bound) && !IsBlank(x)
    requires before != [] && lines != []
    requires if item == Char('\n') then lines[..|lines| - 1] == before && lines[|lines| - 1] == []
             else |lines| == |before| && lines[..|lines| - 1] == before[..|before| - 1]
                  && lines[|lines| - 1] == before[|before| - 1] + [item]
    ensures ExpandedLines(lines, nodes, bound, x) == ExpandedLines(before, nodes, bound, x) + ItemInk(item, nodes, x)
  {
    assert Mentions(lines[|lines| - 1], |nodes|, bound) && Mentions(before[|before| - 1], |nodes|, bound);
    hide Mentions, Expanded;
    NoText(nodes, bound, x);
    if item != Char('\n') {
      OneMoreItem(before[|before| - 1], item, nodes, bound, x);
    }
  }

  lemma {:induction false} LinesKeepInk(t: Text, nodes: seq<Node>, bound: nat, x: Item)
    requires Numbered(nodes) && Mentions(t, |nodes|, bound) && !IsBlank(x)
    ensures AllMention(Lines(t), |nodes|, bound)
    ensures ExpandedLines(Lines(t), nodes, bound, x) == Expanded(t, nodes, bound, x)
    decreases |t|
  {
    LinesMention(t, |nodes|, bound);
    if t == [] {
      NoText(nodes, bound, x);
      assert Lines(t)[..0] == [];
    } else {
      var front, item := t[..|t| - 1], t[|t| - 1];
      LinesMention(front, |nodes|, bound);
      assert Mentions(front, |nodes|, bound) && t == front + [item];
      LastLine(t);
      hide Lines, AllMention, Mentions, Expanded, ExpandedLines;
      LinesKeepInk(front, nodes, bound, x);
      OneMoreItem(front, item, nodes, bound, x);
      LinesStepInk(Lines(front), Lines(t), item, nodes, bound, x);
    }
  }

  lemma {:induction false} ExpandedSum(a: Text, b: Text, nodes: seq<Node>, bound: nat, x: Item)
    requires Numbered(nodes) && Mentions(a + b, |nodes|, bound)
    ensures Mentions(a, |nodes|, bound) && Mentions(b, |nodes|, bound)
    ensures Expanded(a + b, nodes, bound, x) == Expanded(a, nodes, bound, x) + Expanded(b, nodes, bound, x)
    decreases |b|
  {
    assert forall k :: 0 <= k < |a| ==> (a + b)[k] == a[k];
    assert forall k :: 0 <= k < |b| ==> (a + b)[|a| + k] == b[k];
    if b == [] {
      assert a + b == a;
    } else {
      var front, last := b[..|b| - 1], b[|b| - 1];
      assert a + b == a + front + [last] && b == front + [last];
      OneMoreItem(a + front, last, nodes, bound, x);
      OneMoreItem(front, last, nodes, bound, x);
      hide Expanded;
      ExpandedSum(a, front, nodes, bound, x);
    }
  }

  /** Text without markers of existing nodes is drawn as it stands. */
  lemma {:induction false} PlainInk(t: Text, nodes: seq<Node>, bound: nat, x: Item)
    requires Numbered(nodes) && Mentions(t, |nodes|, bound)
    requires forall i :: 0 <= i < |t| ==> !IsMark(t[i], |nodes|)
    ensures Expanded(t, nodes, bound, x) == Count(t, x)
    decreases |t|
  {
    if t != [] {
      PlainInk(t[..|t| - 1], nodes, bound, x);
    }
  }

  lemma OnePartInk(part: Part, nodes: seq<Node>, x: Item)
    requires Numbered(nodes) && (part.NodeBox? ==> part.node < |nodes|)
    ensures PartsBelow([part], |nodes|, |nodes|)
    ensures PartsInk([part], nodes, x) == PartInk(part, nodes, x)
  {
    assert [part][..0] == [];
  }

  lemma NoPartsInk(nodes: seq<Node>, x: Item)
    requires Numbered(nodes)
    ensures PartsBelow([], |nodes|, |nodes|) && PartsInk([], nodes, x) == 0
  {
  }

  lemma NoText(nodes: seq<Node>, bound: nat, x: Item)
    requires Numbered(nodes)
    ensures Mentions([], |nodes|, bound) && Expanded([], nodes, bound, x) == 0
  {
  }

  /** A line up to and with its first marker. */
  lemma HeadInk(line: Text, k: nat, previous: Option<Node>, nodes: seq<Node>, bound: nat, x: Item)
    requires Numbered(nodes) && Mentions(line, |nodes|, bound) && k < |line| && IsMark(line[k], |nodes|)
    requires forall i :: 0 <= i < k ==> !IsMark(line[i], |nodes|)
    requires !IsBlank(x)
    ensures Mentions(line[k + 1..], |nodes|, bound)
    ensures var i := line[k].node;
            Expanded(line, nodes, bound, x)
              == Count(Between(line[..k], previous, nodes[i]), x) + NodeInk(nodes, i, x) + Expanded(line[k + 1..], nodes, bound, x)
  {
    hide Expanded, NodeInk, Count, Between, Numbered;
    var before, rest := line[..k], line[k + 1..];
    assert line == before + [line[k]] + rest;
    ExpandedSum(before + [line[k]], rest, nodes, bound, x);
    OneMoreItem(before, line[k], nodes, bound, x);
    PlainInk(before, nodes, bound, x);
    BetweenKeepsInk(before, previous, nodes[line[k].node], x);
  }

  lemma HeadPartsInk(words: Text, empty: bool, i: nat, rest: seq<Part>, nodes: seq<Node>, x: Item)
    requires Numbered(nodes) && i < |nodes| && PartsBelow(rest, |nodes|, |nodes|) && (empty ==> Count(words, x) == 0)
    ensures var parts := (if empty then [] else [Words(words)]) + [NodeBox(i)] + rest;
            PartsBelow(parts, |nodes|, |nodes|)
            && PartsInk(parts, nodes, x) == Count(words, x) + NodeInk(nodes, i, x) + PartsInk(rest, nodes, x)
  {
    hide NodeInk, Count, Numbered, PartsInk, PartsBelow;
    NoPartsInk(nodes, x);
    OnePartInk(Words(words), nodes, x);
    OnePartInk(NodeBox(i), nodes, x);
    var head := if empty then [] else [Words(words)];
    SumsAreBelow(head, [NodeBox(i)], |nodes|, |nodes|);
    SumsAreBelow(head + [NodeBox(i)], rest, |nodes|, |nodes|);
    PartsInkSum(head, [NodeBox(i)], nodes, x);
    PartsInkSum(head + [NodeBox(i)], rest, nodes, x);
  }

  lemma PartsWithoutMark(line: Text, previous: Option<Node>, nodes: seq<Node>)
    requires FirstMark(line, |nodes|) == |line|
    ensures Parts(line, previous, nodes) == if line == [] then [] else [Words(After(line, previous))]
  {
    hide After;
  }

  lemma PartsAtMark(line: Text, previous: Option<Node>, nodes: seq<Node>, k: nat)
    requires FirstMark(line, |nodes|) == k < |line|
    ensures IsMark(line[k], |nodes|) && forall i :: 0 <= i < k ==> !IsMark(line[i], |nodes|)
    ensures var i := line[k].node;
            Parts(line, previous, nodes)
              == (if k == 0 then [] else [Words(Between(line[..k], previous, nodes[i]))])
               + [NodeBox(i)] + Parts(line[k + 1..], Some(nodes[i]), nodes)
  {
    hide Between;
  }

  lemma {:induction false} PartsKeepInk(line: Text, previous: Option<Node>, nodes: seq<Node>, bound: nat, x: Item)
    requires Numbered(nodes) && Mentions(line, |nodes|, bound) && !IsBlank(x)
    ensures PartsBelow(Parts(line, previous, nodes), |nodes|, |nodes|)
    ensures PartsInk(Parts(line, previous, nodes), nodes, x) == Expanded(line, nodes, bound, x)
    decreases |line|
  {
    hide Expanded, NodeInk, Count, Between, After, Numbered, PartsInk, PartsBelow, Mentions, Parts, IsMark;
    var k := FirstMark(line, |nodes|);
    if k == |line| {
      PartsWithoutMark(line, previous, nodes);
      NoPartsInk(nodes, x);
      NoText(nodes, bound, x);
      PlainInk(line, nodes, bound, x);
      AfterKeepsInk(line, previous, x);
      OnePartInk(Words(After(line, previous)), nodes, x);
    } else {
      PartsAtMark(line, previous, nodes, k);
      MarkIsNode(line[k], |nodes|);
      hide FirstMark;
      var i := line[k].node;
      var words := Between(line[..k], previous, nodes[i]);
      HeadInk(line, k, previous, nodes, bound, x);
      PartsKeepInk(line[k + 1..], Some(nodes[i]), nodes, bound, x);
      if k == 0 {
        BetweenNothing(line[..k], previous, nodes[i], x);
      }
      HeadPartsInk(words, k == 0, i, Parts(line[k + 1..], Some(nodes[i]), nodes), nodes, x);
    }
  }

  lemma MarkIsNode(item: Item, nodes: nat)
    requires IsMark(item, nodes)
    ensures item.Mark? && item.node < nodes
  {
  }

  lemma BetweenNothing(sliced: Text, previous: Option<Node>, next: Node, x: Item)
    requires sliced == []
    ensures Count(Between(sliced, previous, next), x) == 0
  {
  }

  lemma {:induction false} BoxesKeepInk(parts: seq<Part>, nodes: seq<Node>, bound: nat, x: Item)
    requires Numbered(nodes) && PartsBelow(parts, |nodes|, bound) && Visible(x)
    ensures PartsBelow(parts, |nodes|, |nodes|)
    ensures InkOf(BoxesOf(parts, nodes, bound), x) == PartsInk(parts, nodes, x)
    decreases bound, 1, |parts|
  {
    hide CountLines, NodeInk, NodeLayout, Numbered;
    if parts != [] {
      var front, last := parts[..|parts| - 1], parts[|parts| - 1];
      BoxesKeepInk(front, nodes, bound, x);
      OneMoreBox(BoxesOf(front, nodes, bound), BoxOf(last, nodes, bound), x);
      if last.NodeBox? {
        NodeKeepsInk(nodes, last.node, x);
      } else {
        OneLine(last.text, x);
      }
    }
  }

  lemma OneMoreBox(layouts: seq<Layout>, box: Layout, x: Item)
    ensures InkOf(layouts + [box], x) == InkOf(layouts, x) + CountLines(box.lines, x)
  {
    assert (layouts + [box])[..|layouts|] == layouts;
  }

  lemma LineKeepsInk(line: Text, nodes: seq<Node>, bound: nat, x: Item)
    requires Numbered(nodes) && Mentions(line, |nodes|, bound) && Visible(x)
    ensures CountLines(LineLayout(line, nodes, bound).lines, x) == Expanded(line, nodes, bound, x)
    decreases bound, 2, 0
  {
    hide CountLines, Expanded, Numbered, Join, InkOf, BoxesOf, Parts, PartsInk;
    var parts := Parts(line, None, nodes);
    PartsAreBelow(line, None, nodes, bound);
    BoxesAreGood(parts, nodes, bound);
    BoxesKeepInk(parts, nodes, bound, x);
    PartsKeepInk(line, None, nodes, bound, x);
    JoinKeepsInk(BoxesOf(parts, nodes, bound), x);
  }

  lemma {:induction false} LinesLayoutKeepsInk(lines: seq<Text>, nodes: seq<Node>, bound: nat, x: Item)
    requires Numbered(nodes) && AllMention(lines, |nodes|, bound) && Visible(x)
    ensures CountLines(LinesLayout(lines, nodes, bound), x) == ExpandedLines(lines, nodes, bound, x)
    decreases bound, 3, |lines|
  {
    hide Expanded, Numbered, LineLayout, Mentions;
    if lines != [] {
      var front, last := lines[..|lines| - 1], lines[|lines| - 1];
      assert Mentions(last, |nodes|, bound);
      LinesLayoutKeepsInk(front, nodes, bound, x);
      LineKeepsInk(last, nodes, bound, x);
      CountLinesSum(LinesLayout(front, nodes, bound), LineLayout(last, nodes, bound).lines, x);
      hide CountLines;
    }
  }

  /** Whatever visible item is followed, it is drawn exactly as often as the source and, through their
      markers, the nodes it mentions contain it. */
  lemma RenderKeepsInk(source: Text, nodes: seq<Node>, bound: nat, x: Item)
    requires Numbered(nodes) && Mentions(source, |nodes|, bound) && Visible(x)
    ensures CountLines(Render(source, nodes, bound).lines, x) == Expanded(source, nodes, bound, x)
    decreases bound, 4, 0
  {
    LinesKeepInk(source, nodes, bound, x);
    hide CountLines, Expanded, Numbered, LinesLayout, ExpandedLines, LineLayout;
    LinesLayoutKeepsInk(Lines(source), nodes, bound, x);
  }

  lemma NodeKeepsInk(nodes: seq<Node>, i: nat, x: Item)
    requires Numbered(nodes) && i < |nodes| && Visible(x)
    ensures CountLines(NodeLayout(nodes, i).lines, x) == NodeInk(nodes, i, x)
    decreases i, 5, 0
  {
    assert NodeNumbered(nodes[i], i, |nodes|);
    hide CountLines, Expanded, Numbered, Stack, Limits, Grid, Count, Render;
    match nodes[i] {
      case Fraction(numerator, denominator) =>
        RenderKeepsInk(numerator, nodes, i, x);
        RenderKeepsInk(denominator, nodes, i, x);
        StackKeepsInk(Render(numerator, nodes, i), Render(denominator, nodes, i), x);
      case Operator(operator, lower, upper) => LimitsKeepInk(operator, lower, upper, x);
      case Matrix(rows) => GridKeepsInk(rows, x);
    }
  }

  // ---- markers that are drawn ------------------------------------------------------------------

  predicate HoldsMark(t: Text, nodes: nat) {
    exists k {:trigger t[k]} :: 0 <= k < |t| && IsMark(t[k], nodes)
  }

  /** Some text that is drawn as it stands, of an operator or a matrix that the text leads to, holds the
      marker of a node. */
  predicate Leaks(t: Text, nodes: seq<Node>, bound: nat)
    requires Numbered(nodes) && Mentions(t, |nodes|, bound)
    decreases bound, 1, |t|
  {
    t != [] && (Leaks(t[..|t| - 1], nodes, bound)
                || (IsMark(t[|t| - 1], |nodes|) && NodeLeaks(nodes, t[|t| - 1].node)))
  }

  predicate NodeLeaks(nodes: seq<Node>, i: nat)
    requires Numbered(nodes) && i < |nodes|
    decreases i, 2, 0
  {
    assert NodeNumbered(nodes[i], i, |nodes|);
    match nodes[i]
    case Fraction(numerator, denominator) => Leaks(numerator, nodes, i) || Leaks(denominator, nodes, i)
    case Operator(operator, lower, upper) =>
      HoldsMark(operator, |nodes|) || HoldsMark(OrEmpty(lower), |nodes|) || HoldsMark(OrEmpty(upper), |nodes|)
    case Matrix(rows) => exists r {:trigger rows[r]} :: 0 <= r < |rows| && HoldsMark(rows[r], |nodes|)
  }

  lemma {:induction false} CountFinds(t: Text, x: Item)
    ensures Count(t, x) > 0 <==> x in t
    decreases |t|
  {
    if t != [] {
      CountFinds(t[..|t| - 1], x);
      assert x in t <==> x in t[..|t| - 1] || t[|t| - 1] == x;
    }
  }

  lemma HeldMark(t: Text, nodes: nat) returns (n: nat)
    requires HoldsMark(t, nodes)
    ensures n < nodes && Count(t, Mark(n)) > 0
  {
    var k :| 0 <= k < |t| && IsMark(t[k], nodes);
    n := t[k].node;
    CountFinds(t, t[k]);
  }

  lemma NoHeldMark(t: Text, nodes: nat, n: nat)
    requires !HoldsMark(t, nodes) && n < nodes
    ensures Count(t, Mark(n)) == 0
  {
    forall k | 0 <= k < |t| ensures t[k] != Mark(n) {
      assert !IsMark(t[k], nodes);
    }
    CountBlank(t, Mark(n));
  }

  lemma {:induction false} RowInLines(rows: seq<Text>, r: nat, x: Item)
    requires r < |rows|
    ensures Count(rows[r], x) <= CountLines(rows, x)
    decreases |rows|
  {
    if r < |rows| - 1 {
      RowInLines(rows[..|rows| - 1], r, x);
    }
  }

  lemma {:induction false} NoHeldMarks(rows: seq<Text>, nodes: nat, n: nat)
    requires n < nodes && forall r {:trigger rows[r]} :: 0 <= r < |rows| ==> !HoldsMark(rows[r], nodes)
    ensures CountLines(rows, Mark(n)) == 0
    decreases |rows|
  {
    if rows != [] {
      NoHeldMarks(rows[..|rows| - 1], nodes, n);
      NoHeldMark(rows[|rows| - 1], nodes, n);
    }
  }

  lemma {:induction false} TightDrawsNoMark(t: Text, nodes: seq<Node>, bound: nat, n: nat)
    requires Numbered(nodes) && Mentions(t, |nodes|, bound) && !Leaks(t, nodes, bound) && n < |nodes|
    ensures Expanded(t, nodes, bound, Mark(n)) == 0
    decreases bound, 1, |t|
  {
    if t != [] {
      TightDrawsNoMark(t[..|t| - 1], nodes, bound, n);
      if IsMark(t[|t| - 1], |nodes|) {
        TightNodeDrawsNoMark(nodes, t[|t| - 1].node, n);
      }
    }
  }

  lemma TightNodeDrawsNoMark(nodes: seq<Node>, i: nat, n: nat)
    requires Numbered(nodes) && i < |nodes| && !NodeLeaks(nodes, i) && n < |nodes|
    ensures NodeInk(nodes, i, Mark(n)) == 0
    decreases i, 2, 0
  {
    assert NodeNumbered(nodes[i], i, |nodes|);
    hide HoldsMark;
    match nodes[i] {
      case Fraction(numerator, denominator) =>
        TightDrawsNoMark(numerator, nodes, i, n);
        TightDrawsNoMark(denominator, nodes, i, n);
      case Operator(operator, lower, upper) =>
        NoHeldMark(operator, |nodes|, n);
        NoHeldMark(OrEmpty(lower), |nodes|, n);
        NoHeldMark(OrEmpty(upper), |nodes|, n);
      case Matrix(rows) => NoHeldMarks(rows, |nodes|, n);
    }
  }

  lemma {:induction false} LeakDrawsAMark(t: Text, nodes: seq<Node>, bound: nat) returns (n: nat)
    requires Numbered(nodes) && Mentions(t, |nodes|, bound) && Leaks(t, nodes, bound)
    ensures n < |nodes| && Expanded(t, nodes, bound, Mark(n)) > 0
    decreases bound, 1, |t|
  {
    if Leaks(t[..|t| - 1], nodes, bound) {
      n := LeakDrawsAMark(t[..|t| - 1], nodes, bound);
    } else {
      n := LeakingNodeDrawsAMark(nodes, t[|t| - 1].node);
    }
  }

  lemma LeakingNodeDrawsAMark(nodes: seq<Node>, i: nat) returns (n: nat)
    requires Numbered(nodes) && i < |nodes| && NodeLeaks(nodes, i)
    ensures n < |nodes| && NodeInk(nodes, i, Mark(n)) > 0
    decreases i, 2, 0
  {
    assert NodeNumbered(nodes[i], i, |nodes|);
    hide HoldsMark;
    match nodes[i] {
      case Fraction(numerator, denominator) =>
        if Leaks(numerator, nodes, i) {
          n := LeakDrawsAMark(numerator, nodes, i);
        } else {
          n := LeakDrawsAMark(denominator, nodes, i);
        }
      case Operator(operator, lower, upper) =>
        n := HeldMark(if HoldsMark(operator, |nodes|) then operator
                      else if HoldsMark(OrEmpty(lower), |nodes|) then OrEmpty(lower) else OrEmpty(upper), |nodes|);
      case Matrix(rows) =>
        var r :| 0 <= r < |rows| && HoldsMark(rows[r], |nodes|);
        n := HeldMark(rows[r], |nodes|);
        RowInLines(rows, r, Mark(n));
    }
  }

  /** A formula is drawn without any marker of a node exactly if no operator and no matrix that is drawn
      holds one in its own text: those texts are drawn as they stand, unlike those of fractions. */
  lemma NoMarkIsDrawnIff(source: Text, nodes: seq<Node>, bound: nat)
    requires Numbered(nodes) && Mentions(source, |nodes|, bound)
    ensures (forall n :: 0 <= n < |nodes| ==> CountLines(Render(source, nodes, bound).lines, Mark(n)) == 0)
            <==> !Leaks(source, nodes, bound)
  {
    hide CountLines, Expanded, Numbered, Leaks, Render, Mentions;
    forall n | 0 <= n < |nodes|
      ensures CountLines(Render(source, nodes, bound).lines, Mark(n)) == Expanded(source, nodes, bound, Mark(n))
    {
      RenderKeepsInk(source, nodes, bound, Mark(n));
    }
    if Leaks(source, nodes, bound) {
      var n := LeakDrawsAMark(source, nodes, bound);
    } else {
      forall n | 0 <= n < |nodes| ensures Expanded(source, nodes, bound, Mark(n)) == 0 {
        TightDrawsNoMark(source, nodes, bound, n);
      }
    }
  }

  /** A matrix in the limit of a sum: its marker is drawn in its place. */
  lemma MatrixInALimitLeaks(rows: seq<Text>, sum: Text) returns (nodes: seq<Node>, source: Text)
    requires rows != []
    ensures nodes == [Matrix(rows), Operator(sum, Some([Mark(0)]), None)] && source == [Mark(1)]
    ensures Numbered(nodes) && Mentions(source, 2, 2) && Leaks(source, nodes, 2)
    ensures CountLines(Render(source, nodes, 2).lines, Mark(0)) > 0
  {
    nodes, source := [Matrix(rows), Operator(sum, Some([Mark(0)]), None)], [Mark(1)];
    assert IsMark([Mark(0)][0], 2) && HoldsMark([Mark(0)], 2);
    assert NodeLeaks(nodes, 1);
    hide CountLines, Render;
    RenderKeepsInk(source, nodes, 2, Mark(0));
    CountFinds([Mark(0)], Mark(0));
  }

  // ---- rendering as the program does it --------------------------------------------------------

  lemma FirstMarkAt(line: Text, position: nat, index: nat, nodes: nat)
    requires position <= index < |line| && IsMark(line[index], nodes)
    requires forall i :: position <= i < index ==> !IsMark(line[i], nodes)
    ensures FirstMark(line[position..], nodes) == index - position
  {
    var tail, k := line[position..], FirstMark(line[position..], nodes);
    assert tail[index - position] == line[index];
    assert k < |tail| ==> tail[k] == line[position + k];
  }

  /** The parts of what remains of a line from `position`, when the next marker is at `index`. */
  lemma NextParts(line: Text, position: nat, index: nat, previous: Option<Node>, nodes: seq<Node>)
    requires position <= index < |line| && IsMark(line[index], |nodes|)
    requires forall i :: position <= i < index ==> !IsMark(line[i], |nodes|)
    ensures var node := nodes[line[index].node];
            Parts(line[position..], previous, nodes)
              == (if index == position then [] else [Words(Between(line[position..index], previous, node))])
               + [NodeBox(line[index].node)] + Parts(line[index + 1..], Some(node), nodes)
  {
    var tail := line[position..];
    FirstMarkAt(line, position, index, |nodes|);
    assert tail[..index - position] == line[position..index] && tail[index - position + 1..] == line[index + 1..];
    assert tail[index - position] == line[index];
    hide Between, After, FirstMark;
  }

  lemma LastParts(line: Text, position: nat, previous: Option<Node>, nodes: seq<Node>)
    requires position <= |line| && forall i :: position <= i < |line| ==> !IsMark(line[i], |nodes|)
    ensures Parts(line[position..], previous, nodes)
         == if position == |line| then [] else [Words(After(line[position..], previous))]
  {
  }

  lemma OneMorePart(parts: seq<Part>, part: Part, nodes: seq<Node>, bound: nat)
    requires Numbered(nodes) && PartsBelow(parts, |nodes|, bound)
    requires part.NodeBox? ==> part.node < |nodes| && part.node < bound
    ensures PartsBelow(parts + [part], |nodes|, bound)
    ensures BoxesOf(parts + [part], nodes, bound) == BoxesOf(parts, nodes, bound) + [BoxOf(part, nodes, bound)]
  {
    assert (parts + [part])[..|parts|] == parts;
  }

  method RenderLine(line: Text, nodes: seq<Node>, ghost bound: nat) returns (layout: Layout)
    requires Numbered(nodes) && Mentions(line, |nodes|, bound)
    ensures layout == LineLayout(line, nodes, bound)
    decreases bound, 2
  {
    hide Numbered, Join, BoxesOf, Parts, NodeLayout, Between, After;
    var layouts: seq<Layout> := [];
    var position, index := 0, 0;
    var previous: Option<Node> := None;
    ghost var done: seq<Part> := [];
    assert line[0..] == line;
    NoBoxes(nodes, bound);
    while index < |line|
      invariant 0 <= position <= index <= |line|
      invariant forall i :: position <= i < index ==> !IsMark(line[i], |nodes|)
      invariant PartsBelow(done, |nodes|, bound) && layouts == BoxesOf(done, nodes, bound)
      invariant done + Parts(line[position..], previous, nodes) == Parts(line, None, nodes)
      decreases |line| - index
    {
      if line[index].Mark? && line[index].node < |nodes| {
        var i := line[index].node;
        NextParts(line, position, index, previous, nodes);
        if index > position {
          var words := Words(Between(line[position..index], previous, nodes[i]));
          OneMorePart(done, words, nodes, bound);
          layouts, done := layouts + [Box(words.text)], done + [words];
        }
        var box := RenderNode(i, nodes);
        OneMorePart(done, NodeBox(i), nodes, bound);
        layouts, done := layouts + [box], done + [NodeBox(i)];
        position, previous := index + 1, Some(nodes[i]);
      }
      index := index + 1;
    }
    LastParts(line, position, previous, nodes);
    if position < |line| {
      var words := Words(After(line[position..], previous));
      OneMorePart(done, words, nodes, bound);
      layouts, done := layouts + [Box(words.text)], done + [words];
    }
    assert done == Parts(line, None, nodes);
    layout := JoinLayouts(layouts);
  }

  lemma NoBoxes(nodes: seq<Node>, bound: nat)
    requires Numbered(nodes)
    ensures PartsBelow([], |nodes|, bound) && BoxesOf([], nodes, bound) == []
  {
  }

  method RenderNode(i: nat, nodes: seq<Node>) returns (layout: Layout)
    requires Numbered(nodes) && i < |nodes|
    ensures layout == NodeLayout(nodes, i)
    decreases i, 5
  {
    assert NodeNumbered(nodes[i], i, |nodes|);
    match nodes[i] {
      case Fraction(numerator, denominator) =>
        var above := RenderLayout(numerator, nodes, i);
        var under := RenderLayout(denominator, nodes, i);
        layout := Stack(above, under);
      case Operator(operator, lower, upper) =>
        layout := Limits(operator, lower, upper);
      case Matrix(rows) =>
        layout := Grid(rows);
    }
  }

  lemma OneMoreLine(lines: seq<Text>, row: nat, nodes: seq<Node>, bound: nat)
    requires Numbered(nodes) && AllMention(lines, |nodes|, bound) && row < |lines|
    ensures AllMention(lines[..row], |nodes|, bound) && AllMention(lines[..row + 1], |nodes|, bound)
    ensures Mentions(lines[row], |nodes|, bound)
    ensures LinesLayout(lines[..row + 1], nodes, bound)
         == LinesLayout(lines[..row], nodes, bound) + LineLayout(lines[row], nodes, bound).lines
  {
    hide Numbered, LineLayout, Mentions;
    assert lines[..row + 1][..row] == lines[..row];
    assert Mentions(lines[row], |nodes|, bound);
  }

  /** `renderLayout` */
  method RenderLayout(source: Text, nodes: seq<Node>, ghost bound: nat) returns (layout: Layout)
    requires Numbered(nodes) && Mentions(source, |nodes|, bound)
    ensures layout == Render(source, nodes, bound)
    decreases bound, 4
  {
    var sourceLines := Lines(source);
    LinesMention(source, |nodes|, bound);
    OneMoreLine(sourceLines, 0, nodes, bound);
    NoLines(nodes, bound);
    assert sourceLines[..0] == [] && sourceLines[..|sourceLines|] == sourceLines;
    hide Numbered, Lines, LineLayout, Mentions, AllMention, LinesLayout, Longest;
    var rendered: seq<Text> := [];
    var firstBaseline: nat := 0;
    for row := 0 to |sourceLines|
      invariant row > 0 ==> firstBaseline == LineLayout(sourceLines[0], nodes, bound).baseline
      invariant AllMention(sourceLines[..row], |nodes|, bound)
      invariant rendered == LinesLayout(sourceLines[..row], nodes, bound)
    {
      OneMoreLine(sourceLines, row, nodes, bound);
      var line := RenderLine(sourceLines[row], nodes, bound);
      if row == 0 {
        firstBaseline := line.baseline;
      }
      rendered := rendered + line.lines;
    }
    layout := Layout(rendered, Longest(rendered), firstBaseline);
  }

  lemma NoLines(nodes: seq<Node>, bound: nat)
    requires Numbered(nodes)
    ensures AllMention([], |nodes|, bound) && LinesLayout([], nodes, bound) == []
  {
  }
}
