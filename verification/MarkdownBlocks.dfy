/**
  The block level of the Markdown compiler of docs/build_docs.py: which lines make up which block.

  Spans says in one recursion where the blocks of a text lie; md_to_html finds them with a line index, a code
  buffer and a paragraph buffer.  The rendering of a line's inline markup is not modelled.
 */
module MarkdownBlocks {
  import opened ListOutline
  import opened ListRendering
  import opened MarkdownList
  import opened Text

  // Lines

  predicate Blank(line: string) {
    Strip(line) == ""
  }

  predicate Fence(line: string) {
    StartsWith(Strip(line), "```")
  }

  // At least three dashes and nothing else
  predicate HRule(line: string) {
    |Strip(line)| >= 3 && forall i :: 0 <= i < |Strip(line)| ==> Strip(line)[i] == '-'
  }

  predicate Hash(line: string) {
    StartsWith(StripLeft(line), "#")
  }

  // White space, a dash and white space
  predicate Bullet(line: string) {
    var k := Lead(line);
    k + 1 < |line| && line[k] == '-' && IsSpace(line[k + 1])
  }

  predicate Indented(line: string) {
    line != "" && IsSpace(line[0])
  }

  function HeadingLevel(line: string): nat {
    if StartsWith(line, "###### ") then 6
    else if StartsWith(line, "##### ") then 5
    else if StartsWith(line, "#### ") then 4
    else if StartsWith(line, "### ") then 3
    else if StartsWith(line, "## ") then 2
    else if StartsWith(line, "# ") then 1
    else 0
  }

  function Trims(cells: seq<string>): seq<string> {
    seq(|cells|, i requires 0 <= i < |cells| => Strip(cells[i]))
  }

  // s without a c at its beginning, if there is one
  function WithoutFirst(s: string, c: char): string {
    if s != "" && s[0] == c then s[1..] else s
  }

  function WithoutLast(s: string, c: char): string {
    if s != "" && s[|s| - 1] == c then s[..|s| - 1] else s
  }

  // split_table_row
  function SplitTableRow(row: string): seq<string> {
    Trims(Split(WithoutLast(WithoutFirst(Strip(row), '|'), '|'), '|'))
  }

  // At least three dashes, with or without a colon at either end
  predicate DashCell(cell: string) {
    var u := WithoutLast(WithoutFirst(cell, ':'), ':');
    |u| >= 3 && forall i :: 0 <= i < |u| ==> u[i] == '-'
  }

  predicate Separator(line: string) {
    var cells := SplitTableRow(line);
    |cells| >= 2 && forall i :: 0 <= i < |cells| ==> DashCell(cells[i])
  }

  predicate TableAt(lines: seq<string>, i: nat)
    requires i < |lines|
  {
    '|' in lines[i] && i + 1 < |lines| && Separator(lines[i + 1])
  }

  predicate EndsTable(line: string) {
    Blank(line) || '|' !in line || Fence(line) || HRule(line) || Hash(line)
  }

  predicate EndsList(line: string) {
    Blank(line) || Fence(line) || HRule(line) || Hash(line) || !(Bullet(line) || Indented(line))
  }

  // What begins at line i when no block is open; the first that fits
  datatype Kind = CodeStart | RuleLine | TableStart | BlankLine | HeadingLine | ListStart | TextLine

  function KindAt(lines: seq<string>, i: nat): Kind
    requires i < |lines|
  {
    if Fence(lines[i]) then CodeStart
    else if HRule(lines[i]) then RuleLine
    else if TableAt(lines, i) then TableStart
    else if Blank(lines[i]) then BlankLine
    else if HeadingLevel(lines[i]) > 0 then HeadingLine
    else if Bullet(lines[i]) then ListStart
    else TextLine
  }

  // Where a block ends

  function TableEnd(lines: seq<string>, j: nat): (e: nat)
    requires j <= |lines|
    ensures j <= e <= |lines|
    decreases |lines| - j
  {
    if j < |lines| && !EndsTable(lines[j]) then TableEnd(lines, j + 1) else j
  }

  function ListEnd(lines: seq<string>, j: nat): (e: nat)
    requires j <= |lines|
    ensures j <= e <= |lines|
    decreases |lines| - j
  {
    if j < |lines| && !EndsList(lines[j]) then ListEnd(lines, j + 1) else j
  }

  function TextEnd(lines: seq<string>, j: nat): (e: nat)
    requires j <= |lines|
    ensures j <= e <= |lines|
    decreases |lines| - j
  {
    if j < |lines| && KindAt(lines, j) == TextLine then TextEnd(lines, j + 1) else j
  }

  // The first fence from line j on
  function CodeEnd(lines: seq<string>, j: nat): (e: nat)
    requires j <= |lines|
    ensures j <= e <= |lines|
    ensures e < |lines| ==> Fence(lines[e])
    decreases |lines| - j
  {
    if j < |lines| && !Fence(lines[j]) then CodeEnd(lines, j + 1) else j
  }

  // The line after the block that begins at line i
  function After(lines: seq<string>, i: nat): (e: nat)
    requires i < |lines| && KindAt(lines, i) != BlankLine
    ensures i <= e <= |lines| + 1
  {
    match KindAt(lines, i)
    case CodeStart => CodeEnd(lines, i + 1) + 1
    case TableStart => TableEnd(lines, i + 2)
    case ListStart => ListEnd(lines, i)
    case TextLine => TextEnd(lines, i)
    case RuleLine => i + 1
    case HeadingLine => i + 1
  }

  lemma LeadIsStripLeft(s: string)
    ensures StripLeft(s) == s[Lead(s)..]
  {
    if s != "" && IsSpace(s[0]) {
      LeadIsStripLeft(s[1..]);
    }
  }

  // A line that begins a list does not end it.
  lemma ListHasItsFirstLine(lines: seq<string>, i: nat)
    requires i < |lines| && KindAt(lines, i) == ListStart
    ensures !EndsList(lines[i])
  {
    LeadIsStripLeft(lines[i]);
    hide StripLeft, Strip;
  }

  // Every block takes at least one line, so that the compiler always advances.
  lemma BlockAdvances(lines: seq<string>, i: nat)
    requires i < |lines| && KindAt(lines, i) != BlankLine
    ensures After(lines, i) > i
  {
    if KindAt(lines, i) == ListStart {
      ListHasItsFirstLine(lines, i);
    }
    hide KindAt, EndsList;
  }

  // Blocks

  datatype Span = Span(from: nat, to: nat)

  // The blocks from line i on; a code block without an end is lost, with all that follows.
  function Spans(lines: seq<string>, i: nat): seq<Span>
    requires i <= |lines|
    decreases |lines| - i
  {
    if i == |lines| then []
    else if KindAt(lines, i) == BlankLine then Spans(lines, i + 1)
    else
      BlockAdvances(lines, i);
      var e := After(lines, i);
      if e > |lines| then [] else [Span(i, e)] + Spans(lines, e)
  }

  datatype Block =
    | Heading(level: nat, text: string)
    | Rule
    | Table(header: seq<string>, rows: seq<seq<string>>)
    | Bullets(parts: seq<Part>)
    | Code(mermaid: bool, body: seq<string>)
    | Paragraph(text: string)

  function Rows(lines: seq<string>): seq<seq<string>> {
    if lines == [] then [] else Rows(lines[..|lines| - 1]) + [SplitTableRow(lines[|lines| - 1])]
  }

  predicate Mermaid(line: string)
    requires Fence(line)
  {
    Lower(Strip(Strip(line)[3..])) == "mermaid"
  }

  function BlockOf(lines: seq<string>, from: nat, to: nat): Block
    requires from < to <= |lines|
  {
    match KindAt(lines, from)
    case CodeStart => Code(Mermaid(lines[from]), if from + 1 < to then lines[from + 1..to - 1] else [])
    case RuleLine => Rule
    case TableStart => Table(SplitTableRow(lines[from]), if from + 2 <= to then Rows(lines[from + 2..to]) else [])
    case HeadingLine => HeadingOf(lines[from])
    case ListStart => Bullets(Rendered(Gather(lines[from..to]), ROOT))
    case _ => Paragraph(Join(lines[from..to], " "))
  }

  function HeadingOf(line: string): Block {
    var level := HeadingLevel(line);
    Heading(level, if level < |line| then line[level + 1..] else "")
  }

  function Blocks(lines: seq<string>, i: nat): seq<Block>
    requires i <= |lines|
    decreases |lines| - i
  {
    if i == |lines| then []
    else if KindAt(lines, i) == BlankLine then Blocks(lines, i + 1)
    else
      BlockAdvances(lines, i);
      var e := After(lines, i);
      if e > |lines| then [] else [BlockOf(lines, i, e)] + Blocks(lines, e)
  }

  lemma {:induction false} BlocksAreAtSpans(lines: seq<string>, i: nat)
    requires i <= |lines|
    ensures |Blocks(lines, i)| == |Spans(lines, i)|
    ensures forall k :: 0 <= k < |Spans(lines, i)| ==>
              var s := Spans(lines, i)[k]; s.from < s.to <= |lines| && Blocks(lines, i)[k] == BlockOf(lines, s.from, s.to)
    decreases |lines| - i
  {
    hide KindAt, BlockOf, After;
    if i < |lines| {
      if KindAt(lines, i) == BlankLine {
        BlocksAreAtSpans(lines, i + 1);
      } else {
        BlockAdvances(lines, i);
        if After(lines, i) <= |lines| {
          BlocksAreAtSpans(lines, After(lines, i));
        }
      }
    }
  }

  // Where the text is lost, from line i on: at a code block without an end, or nowhere
  function LostFrom(lines: seq<string>, i: nat): nat
    requires i <= |lines|
    decreases |lines| - i
  {
    if i == |lines| then i
    else if KindAt(lines, i) == BlankLine then LostFrom(lines, i + 1)
    else
      BlockAdvances(lines, i);
      var e := After(lines, i);
      if e > |lines| then i else LostFrom(lines, e)
  }

  predicate Covered(spans: seq<Span>, j: nat) {
    exists k :: 0 <= k < |spans| && spans[k].from <= j < spans[k].to
  }

  // One span after another
  predicate InOrder(spans: seq<Span>, lo: nat, hi: nat) {
    && (forall k :: 0 <= k < |spans| ==> lo <= spans[k].from < spans[k].to <= hi)
    && (forall k :: 0 < k < |spans| ==> spans[k - 1].to <= spans[k].from)
  }

  lemma InOrderMore(span: Span, rest: seq<Span>, hi: nat)
    requires span.from < span.to <= hi && InOrder(rest, span.to, hi)
    ensures InOrder([span] + rest, span.from, hi)
  {
    var all := [span] + rest;
    forall k | 0 < k < |all|
      ensures all[k - 1].to <= all[k].from && span.from <= all[k].from < all[k].to <= hi
    {
      assert all[k] == rest[k - 1];
    }
  }

  lemma CoveredMore(span: Span, rest: seq<Span>, j: nat)
    ensures Covered([span] + rest, j) <==> span.from <= j < span.to || Covered(rest, j)
  {
    var all := [span] + rest;
    if Covered(all, j) {
      var k :| 0 <= k < |all| && all[k].from <= j < all[k].to;
      if k > 0 {
        assert rest[k - 1] == all[k];
      }
    }
    if Covered(rest, j) {
      var k :| 0 <= k < |rest| && rest[k].from <= j < rest[k].to;
      assert all[k + 1] == rest[k];
    }
    if span.from <= j < span.to {
      assert all[0] == span;
    }
  }

  // The spans lie one after another, before the lost lines, and cover every line that is not blank.
  lemma {:induction false} SpansPartition(lines: seq<string>, i: nat)
    requires i <= |lines|
    ensures i <= LostFrom(lines, i) <= |lines|
    ensures InOrder(Spans(lines, i), i, LostFrom(lines, i))
    ensures forall j :: i <= j < LostFrom(lines, i) && !Blank(lines[j]) ==> Covered(Spans(lines, i), j)
    decreases |lines| - i
  {
    hide KindAt, After, Blank, Covered, InOrder;
    if i == |lines| {
      InOrderNone(i, i);
    } else if KindAt(lines, i) == BlankLine {
      SpansPartition(lines, i + 1);
      KindIsBlank(lines, i);
      InOrderLower(Spans(lines, i + 1), i, i + 1, LostFrom(lines, i + 1));
    } else {
      BlockAdvances(lines, i);
      var e := After(lines, i);
      if e > |lines| {
        InOrderNone(i, i);
      } else {
        SpansPartition(lines, e);
        InOrderMore(Span(i, e), Spans(lines, e), LostFrom(lines, e));
        forall j | i <= j < LostFrom(lines, i) && !Blank(lines[j])
          ensures Covered(Spans(lines, i), j)
        {
          CoveredMore(Span(i, e), Spans(lines, e), j);
        }
      }
    }
  }

  lemma InOrderNone(lo: nat, hi: nat)
    ensures InOrder([], lo, hi)
  {
  }

  lemma InOrderLower(spans: seq<Span>, lo: nat, mid: nat, hi: nat)
    requires lo <= mid && InOrder(spans, mid, hi)
    ensures InOrder(spans, lo, hi)
  {
  }

  lemma KindIsBlank(lines: seq<string>, i: nat)
    requires i < |lines| && KindAt(lines, i) == BlankLine
    ensures Blank(lines[i])
  {
  }

  lemma {:induction false} CodeEndIsFirst(lines: seq<string>, j: nat)
    requires j <= |lines|
    ensures forall k :: j <= k < CodeEnd(lines, j) ==> !Fence(lines[k])
    decreases |lines| - j
  {
    hide Fence;
    if j < |lines| && !Fence(lines[j]) {
      CodeEndIsFirst(lines, j + 1);
    }
  }

  // Lines are lost only from a code fence on that no later fence closes.
  lemma {:induction false} OnlyOpenCodeIsLost(lines: seq<string>, i: nat)
    requires i <= |lines|
    ensures var lost := LostFrom(lines, i);
      lost < |lines| ==> Fence(lines[lost]) && forall k :: lost < k < |lines| ==> !Fence(lines[k])
    decreases |lines| - i
  {
    hide KindAt, Fence;
    if i < |lines| {
      if KindAt(lines, i) == BlankLine {
        OnlyOpenCodeIsLost(lines, i + 1);
      } else {
        BlockAdvances(lines, i);
        var e := After(lines, i);
        if e > |lines| {
          CodeStartIsFence(lines, i);
          TableIsWithin(lines, i);
          CodeEndIsFirst(lines, i + 1);
        } else {
          OnlyOpenCodeIsLost(lines, e);
        }
      }
    }
  }

  lemma CodeStartIsFence(lines: seq<string>, i: nat)
    requires i < |lines|
    ensures KindAt(lines, i) == CodeStart <==> Fence(lines[i])
  {
    hide Fence, HRule, TableAt, Blank, Bullet, HeadingLevel;
  }

  lemma TableIsWithin(lines: seq<string>, i: nat)
    requires i < |lines|
    ensures KindAt(lines, i) == TableStart ==> TableAt(lines, i) && i + 2 <= |lines|
  {
    hide Fence, HRule, Blank, Bullet, HeadingLevel, Separator;
  }

  // No blank line is taken for anything but code.
  lemma {:induction false} SpansAreSolid(lines: seq<string>, i: nat, k: nat, j: nat)
    requires i <= |lines| && k < |Spans(lines, i)| && Spans(lines, i)[k].from <= j < Spans(lines, i)[k].to <= |lines|
    ensures Spans(lines, i)[k].from < |lines|
    ensures KindAt(lines, Spans(lines, i)[k].from) == CodeStart || !Blank(lines[j])
    decreases |lines| - i
  {
    hide KindAt, After, Blank;
    if KindAt(lines, i) == BlankLine {
      SpansAreSolid(lines, i + 1, k, j);
    } else {
      BlockAdvances(lines, i);
      var e := After(lines, i);
      if k > 0 {
        SpansAreSolid(lines, e, k - 1, j);
      } else if KindAt(lines, i) != CodeStart {
        BlockIsSolid(lines, i, j);
      }
    }
  }

  lemma BlockIsSolid(lines: seq<string>, i: nat, j: nat)
    requires i < |lines| && KindAt(lines, i) != BlankLine && KindAt(lines, i) != CodeStart
    requires i <= j < After(lines, i) && j < |lines|
    ensures !Blank(lines[j])
  {
    hide Blank, KindAt, TableEnd, ListEnd, TextEnd;
    KindIsSolid(lines, i);
    match KindAt(lines, i)
    case TableStart =>
      TableIsWithin(lines, i);
      if j == i + 1 {
        SeparatorIsSolid(lines[j]);
      } else if j > i + 1 {
        TableIsSolid(lines, i + 2, j);
      }
    case ListStart => ListIsSolid(lines, i, j);
    case TextLine => TextIsSolid(lines, i, j);
    case _ =>
  }

  lemma KindIsSolid(lines: seq<string>, i: nat)
    requires i < |lines| && KindAt(lines, i) != BlankLine
    ensures !Blank(lines[i])
  {
    hide HeadingLevel, Bullet, Separator;
    if Blank(lines[i]) {
      StripKeeps(lines[i]);
    }
  }

  predicate AllSpace(s: string) {
    forall i :: 0 <= i < |s| ==> IsSpace(s[i])
  }

  lemma StripKeeps(line: string)
    requires Strip(line) == ""
    ensures AllSpace(line)
  {
    StripRightKeeps(StripLeft(line));
    StripLeftKeeps(line);
  }

  lemma {:induction false} StripRightKeeps(s: string)
    ensures StripRight(s) == "" ==> AllSpace(s)
  {
    if s != "" && IsSpace(s[|s| - 1]) {
      StripRightKeeps(s[..|s| - 1]);
    }
  }

  lemma {:induction false} StripLeftKeeps(s: string)
    ensures AllSpace(StripLeft(s)) ==> AllSpace(s)
  {
    if s != "" && IsSpace(s[0]) {
      StripLeftKeeps(s[1..]);
      assert forall i :: 1 <= i < |s| ==> s[i] == s[1..][i - 1];
    }
  }

  lemma SeparatorIsSolid(line: string)
    ensures Blank(line) ==> !Separator(line)
  {
    hide DashCell, Strip, Split;
    if Blank(line) {
      assert |Split("", '|')| == 1 by {
        NothingToSplit('|');
      }
    }
  }

  lemma NothingToSplit(c: char)
    ensures |Split("", c)| == 1
  {
  }

  lemma {:induction false} TableIsSolid(lines: seq<string>, i: nat, j: nat)
    requires i <= j && i <= |lines| && j < TableEnd(lines, i)
    ensures !Blank(lines[j])
    decreases |lines| - i
  {
    hide Blank, Fence, HRule, Hash;
    if i < j {
      TableIsSolid(lines, i + 1, j);
    }
  }

  lemma {:induction false} ListIsSolid(lines: seq<string>, i: nat, j: nat)
    requires i <= j && i <= |lines| && j < ListEnd(lines, i)
    ensures !Blank(lines[j])
    decreases |lines| - i
  {
    hide Blank, Fence, HRule, Hash, Bullet, Indented;
    if i < j {
      ListIsSolid(lines, i + 1, j);
    }
  }

  lemma {:induction false} TextIsSolid(lines: seq<string>, i: nat, j: nat)
    requires i <= j && i <= |lines| && j < TextEnd(lines, i)
    ensures !Blank(lines[j])
    decreases |lines| - i
  {
    hide Blank, KindAt;
    KindIsSolid(lines, i);
    if i < j {
      TextIsSolid(lines, i + 1, j);
    }
  }

  // A list block keeps the text of all its lines, unless its first line is a dash with one white space and
  // nothing more: that line begins a list but no item, and its text is dropped.
  lemma ListKeepsItsText(lines: seq<string>, from: nat)
    requires from < |lines| && KindAt(lines, from) == ListStart
    ensures var block := lines[from..After(lines, from)];
      TextOf(Gather(block)) == AllText(block) <==> |lines[from]| != Lead(lines[from]) + 2
  {
    hide KindAt, Gather, TextOf, AllText, Strip, EndsList;
    BlockAdvances(lines, from);
    var block := lines[from..After(lines, from)];
    KindIsSolid(lines, from);
    TextIsKeptIff(block);
    ListIsBullet(lines, from);
  }

  lemma ListIsBullet(lines: seq<string>, from: nat)
    requires from < |lines| && KindAt(lines, from) == ListStart
    ensures ItemOf(lines[from]).Some? <==> |lines[from]| != Lead(lines[from]) + 2
  {
    hide Strip;
  }

  const DROPPED := ["- ", "  foo"]

  // A list whose first line is a dash and one white space: neither line's text is kept.
  lemma DashAloneDropsText()
    ensures KindAt(DROPPED, 0) == ListStart && After(DROPPED, 0) == 2
    ensures Gather(DROPPED) == [] && AllText(DROPPED) == " - foo"
  {
    DroppedStrips();
    DroppedKinds();
    DroppedItems();
    hide KindAt, ItemOf, EndsList, Strip;
    assert DROPPED[..1] == ["- "] && DROPPED[..1][..0] == [] && DROPPED[..2] == DROPPED;
    assert Gather(DROPPED[..1]) == [];
    assert AllText(DROPPED[..1]) == " -";
  }

  lemma DroppedStrips()
    ensures Strip("- ") == "-" && Strip("  foo") == "foo"
  {
    assert "- "[..1] == "-";
    assert "  foo"[1..] == " foo" && " foo"[1..] == "foo";
  }

  lemma DroppedItems()
    ensures ItemOf("- ").None? && ItemOf("  foo").None?
  {
    assert "  foo"[1..] == " foo" && " foo"[1..] == "foo";
    assert Lead("  foo") == 2 && "  foo"[2..] == "foo";
  }

  lemma DroppedKinds()
    ensures KindAt(DROPPED, 0) == ListStart && !EndsList("- ") && !EndsList("  foo")
  {
    DroppedStrips();
    assert "  foo"[1..] == " foo" && " foo"[1..] == "foo";
    assert StripLeft("  foo") == "foo" && StripLeft("- ") == "- ";
    hide Strip, StripLeft;
    assert !StartsWith("-", "```") && !StartsWith("foo", "```") && !StartsWith("- ", "#") && !StartsWith("foo", "#");
  }
}
