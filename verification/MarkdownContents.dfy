/**
  What the blocks of docs/build_docs.py hold, and which lines begin which, told by the shape of the lines.
 */
module MarkdownContents {
  import opened ListOutline
  import opened ListRendering
  import opened MarkdownBlocks
  import opened MarkdownList
  import opened Options
  import opened Text

  // Shapes of lines

  function Repeated(c: char, n: nat): (s: string)
    ensures |s| == n && forall i :: 0 <= i < n ==> s[i] == c
  {
    seq(n, _ => c)
  }

  lemma {:induction false} LeadIs(line: string, k: nat)
    requires k <= |line| && AllSpace(line[..k]) && (k < |line| ==> !IsSpace(line[k]))
    ensures Lead(line) == k && StripLeft(line) == line[k..]
  {
    if k > 0 {
      assert line[..k][0] == line[0];
      assert line[1..][..k - 1] == line[..k][1..];
      LeadIs(line[1..], k - 1);
    }
  }

  lemma {:induction false} LeadSpaces(line: string)
    ensures AllSpace(line[..Lead(line)]) && (Lead(line) < |line| ==> !IsSpace(line[Lead(line)]))
  {
    if line != "" && IsSpace(line[0]) {
      LeadSpaces(line[1..]);
      var k := Lead(line);
      assert forall i :: 1 <= i < k ==> line[..k][i] == line[1..][..k - 1][i - 1];
    }
  }

  lemma {:induction false} StripRightIs(s: string, n: nat)
    requires n <= |s| && AllSpace(s[n..]) && (n > 0 ==> !IsSpace(s[n - 1]))
    ensures StripRight(s) == s[..n]
  {
    if n < |s| {
      assert s[n..][|s| - 1 - n] == s[|s| - 1];
      assert s[..|s| - 1][n..] == s[n..][..|s| - 1 - n];
      StripRightIs(s[..|s| - 1], n);
      assert s[..|s| - 1][..n] == s[..n];
    }
  }

  // Trimming takes white space off both ends, and nothing else.
  lemma StripIs(before: string, s: string, after: string)
    requires AllSpace(before) && AllSpace(after) && Trimmed(s) && s != ""
    ensures Strip(before + s + after) == s
  {
    var line := before + s + after;
    assert line[..|before|] == before && line[|before|] == s[0];
    LeadIs(line, |before|);
    assert line[|before|..] == s + after;
    assert (s + after)[|s|..] == after && (s + after)[|s| - 1] == s[|s| - 1];
    StripRightIs(s + after, |s|);
    assert (s + after)[..|s|] == s;
  }

  // Every line is its trimmed text between white space.
  lemma StripParts(line: string) returns (before: string, after: string)
    ensures line == before + Strip(line) + after && AllSpace(before) && AllSpace(after)
  {
    LeadSpaces(line);
    before := line[..Lead(line)];
    LeadIs(line, Lead(line));
    after := StripRightParts(StripLeft(line));
    assert line == before + StripLeft(line);
  }

  lemma {:induction false} StripRightParts(s: string) returns (after: string)
    ensures s == StripRight(s) + after && AllSpace(after)
  {
    if s != "" && IsSpace(s[|s| - 1]) {
      var rest := StripRightParts(s[..|s| - 1]);
      after := rest + [s[|s| - 1]];
      assert s == s[..|s| - 1] + [s[|s| - 1]];
    } else {
      after := "";
      assert s == s + "";
    }
  }

  // Headings

  // A line of one to six hashes, a space and a text is the heading of that level and text.
  lemma HeadingReads(n: nat, text: string)
    requires 1 <= n <= 6
    ensures HeadingOf(Repeated('#', n) + " " + text) == Heading(n, text)
    ensures HeadingLevel(Repeated('#', n) + " " + text) == n
  {
    var line := Repeated('#', n) + " " + text;
    HashPrefix(line, n);
    assert line[n + 1..] == text;
  }

  lemma HashPrefix(line: string, n: nat)
    requires n < |line| && line[n] == ' ' && forall i :: 0 <= i < n ==> line[i] == '#'
    ensures 1 <= n <= 6 ==> HeadingLevel(line) == n
  {
    if 1 <= n <= 6 {
      assert n == 1 ==> line[..2] == "# ";
      assert n == 2 ==> line[..3] == "## ";
      assert n == 3 ==> line[..4] == "### ";
      assert n == 4 ==> line[..5] == "#### ";
      assert n == 5 ==> line[..6] == "##### ";
      assert n == 6 ==> line[..7] == "###### ";
      assert "###### "[6] == "##### "[5] == "#### "[4] == "### "[3] == "## "[2] == "# "[1] == ' ';
    }
  }

  // There are no other headings.
  lemma HeadingsOnly(line: string)
    requires HeadingLevel(line) > 0
    ensures var n := HeadingLevel(line);
      1 <= n <= 6 && n < |line| && line == Repeated('#', n) + " " + line[n + 1..]
  {
    var n := HeadingLevel(line);
    var prefix := Repeated('#', n) + " ";
    assert prefix == match n
      case 1 => "# "
      case 2 => "## "
      case 3 => "### "
      case 4 => "#### "
      case 5 => "##### "
      case _ => "###### ";
    assert prefix <= line;
    assert line == prefix + line[n + 1..];
  }

  // Other lines

  lemma BlankIff(line: string)
    ensures Blank(line) <==> AllSpace(line)
  {
    if Blank(line) {
      StripKeeps(line);
    }
    if AllSpace(line) {
      assert line[..|line|] == line;
      LeadIs(line, |line|);
    }
  }

  // A fence: white space and three back quotes
  lemma FenceIff(line: string)
    ensures Fence(line) <==> exists k :: 0 <= k <= |line| && AllSpace(line[..k]) && "```" <= line[k..]
  {
    if Fence(line) {
      FenceHasQuotes(line);
    }
    if k :| 0 <= k <= |line| && AllSpace(line[..k]) && "```" <= line[k..] {
      QuotesAreFence(line, k);
    }
  }

  lemma FenceHasQuotes(line: string)
    requires Fence(line)
    ensures exists k :: 0 <= k <= |line| && AllSpace(line[..k]) && "```" <= line[k..]
  {
    hide Strip, AllSpace;
    var before, after := StripParts(line);
    assert line[..|before|] == before && line[|before|..] == Strip(line) + after;
  }

  lemma QuotesAreFence(line: string, k: nat)
    requires k <= |line| && AllSpace(line[..k]) && "```" <= line[k..]
    ensures Fence(line)
  {
    assert line[k] == line[k..][0] == '`' && line[k + 2] == line[k..][2] == '`';
    LeadIs(line, k);
    StripRightKeepsFront(line[k..], 3);
  }

  // Trimming the end does not reach into a front that ends in no white space.
  lemma {:induction false} StripRightKeepsFront(s: string, n: nat)
    requires 0 < n <= |s| && !IsSpace(s[n - 1])
    ensures |StripRight(s)| >= n && StripRight(s)[..n] == s[..n]
  {
    if IsSpace(s[|s| - 1]) {
      StripRightKeepsFront(s[..|s| - 1], n);
      assert s[..|s| - 1][..n] == s[..n];
    }
  }

  // A rule: at least three dashes between white space
  lemma RuleIff(line: string)
    ensures HRule(line) <==>
              exists n, before, after :: n >= 3 && Framed(line, before, Repeated('-', n), after)
  {
    if HRule(line) {
      var before, after := StripParts(line);
      assert Strip(line) == Repeated('-', |Strip(line)|);
      assert Framed(line, before, Repeated('-', |Strip(line)|), after);
    }
    if n: nat, before, after :| n >= 3 && Framed(line, before, Repeated('-', n), after) {
      StripIs(before, Repeated('-', n), after);
    }
  }

  // The line is s between white space.
  predicate Framed(line: string, before: string, s: string, after: string) {
    AllSpace(before) && AllSpace(after) && line == before + s + after
  }

  // A bullet: white space, a dash and a white-space character
  lemma BulletIff(line: string)
    ensures Bullet(line) <==>
              exists k :: 0 <= k && k + 1 < |line| && AllSpace(line[..k]) && line[k] == '-' && IsSpace(line[k + 1])
  {
    LeadSpaces(line);
    if Bullet(line) {
      var k := Lead(line);
      assert AllSpace(line[..k]) && line[k] == '-' && IsSpace(line[k + 1]);
    }
    if k :| 0 <= k && k + 1 < |line| && AllSpace(line[..k]) && line[k] == '-' && IsSpace(line[k + 1]) {
      LeadIs(line, k);
    }
  }

  // Only a table takes precedence over another kind of line that its first line is: the others exclude each other.
  lemma KindIff(lines: seq<string>, i: nat)
    requires i < |lines|
    ensures KindAt(lines, i) == CodeStart <==> Fence(lines[i])
    ensures KindAt(lines, i) == RuleLine <==> HRule(lines[i])
    ensures KindAt(lines, i) == BlankLine <==> Blank(lines[i])
    ensures KindAt(lines, i) == TableStart <==> TableAt(lines, i) && !Fence(lines[i])
    ensures KindAt(lines, i) == HeadingLine <==> HeadingLevel(lines[i]) > 0 && !TableAt(lines, i)
    ensures KindAt(lines, i) == ListStart <==> Bullet(lines[i]) && !TableAt(lines, i)
  {
    hide HRule, Fence, Bullet, HeadingLevel, Separator, Strip;
    LinesDiffer(lines[i]);
  }

  lemma LinesDiffer(line: string)
    ensures Fence(line) ==> !HRule(line) && !Blank(line) && HeadingLevel(line) == 0 && !Bullet(line)
    ensures HRule(line) ==> '|' !in line && !Blank(line) && HeadingLevel(line) == 0 && !Bullet(line)
    ensures Blank(line) ==> '|' !in line && HeadingLevel(line) == 0 && !Bullet(line)
    ensures HeadingLevel(line) > 0 ==> !Bullet(line)
  {
    hide Fence, HRule, Blank, Bullet, HeadingLevel;
    var before, after := StripParts(line);
    FenceStarts(line);
    RuleStarts(line, before, after);
    BlankHas(line);
    BulletStarts(line);
    HeadingStarts(line);
  }

  // What the first character that is no white space says
  predicate Starts(line: string, c: char) {
    Lead(line) < |line| && line[Lead(line)] == c
  }

  lemma FenceStarts(line: string)
    ensures Fence(line) ==> Starts(line, '`') && !Blank(line) && !HRule(line)
  {
    LeadSpaces(line);
    FenceIff(line);
    if Fence(line) {
      var k :| 0 <= k <= |line| && AllSpace(line[..k]) && "```" <= line[k..];
      assert line[k] == line[k..][0] == '`';
      LeadIs(line, k);
    }
  }

  lemma RuleStarts(line: string, before: string, after: string)
    requires line == before + Strip(line) + after && AllSpace(before) && AllSpace(after)
    ensures HRule(line) ==> '|' !in line && Starts(line, '-') && !Blank(line)
    ensures HRule(line) ==> line[Lead(line) + 1..] != "" && line[Lead(line) + 1] == '-'
  {
    if HRule(line) {
      assert line[..|before|] == before && line[|before|] == Strip(line)[0] && line[|before| + 1] == Strip(line)[1];
      LeadIs(line, |before|);
    }
  }

  lemma BlankHas(line: string)
    ensures Blank(line) ==> '|' !in line && Lead(line) == |line|
  {
    BlankIff(line);
    if Blank(line) {
      assert line[..|line|] == line;
      LeadIs(line, |line|);
    }
  }

  lemma BulletStarts(line: string)
    ensures Bullet(line) ==> Starts(line, '-') && IsSpace(line[Lead(line) + 1])
  {
  }

  lemma HeadingStarts(line: string)
    ensures HeadingLevel(line) > 0 ==> Starts(line, '#')
  {
    if HeadingLevel(line) > 0 {
      HeadingsOnly(line);
      assert line[0] == '#';
    }
  }

  // Items

  // A line of white space, a dash, white space and more begins an item; each tab before the dash counts twice.
  lemma ItemReads(before: string, gap: char, rest: string)
    requires AllSpace(before) && IsSpace(gap) && rest != ""
    ensures ItemOf(before + "-" + [gap] + rest) == Some(Item(|before| + multiset(before)['\t'], Strip(rest)))
  {
    hide Strip, StripLeft, Width, Lead;
    var line := before + "-" + [gap] + rest;
    assert line[..|before|] == before && line[|before|] == '-';
    LeadIs(line, |before|);
    assert line[|before|..] == "-" + [gap] + rest;
    assert ("-" + [gap] + rest)[1..] == [gap] + rest;
    StripGap(gap, rest);
    WidthCounts(before);
  }

  lemma StripGap(gap: char, rest: string)
    requires IsSpace(gap)
    ensures Strip([gap] + rest) == Strip(rest)
  {
    hide StripRight;
    assert ([gap] + rest)[1..] == rest;
  }

  lemma {:induction false} WidthCounts(s: string)
    ensures Width(s) == |s| + multiset(s)['\t']
  {
    if s != "" {
      WidthCounts(s[1..]);
      assert s == [s[0]] + s[1..];
    }
  }

  // There are no other items.
  lemma ItemsOnly(line: string)
    requires ItemOf(line).Some?
    ensures exists k :: 0 <= k && k + 2 < |line| && AllSpace(line[..k]) && line[k] == '-' && IsSpace(line[k + 1])
  {
    LeadSpaces(line);
    assert line[Lead(line)..][1] == line[Lead(line) + 1];
  }

  // Tables

  lemma {:induction false} JoinCons(first: string, rest: seq<string>, between: string)
    requires rest != []
    ensures Join([first] + rest, between) == first + between + Join(rest, between)
  {
    var all := [first] + rest;
    if |rest| == 1 {
      assert all[..1] == [first];
    } else {
      JoinCons(first, rest[..|rest| - 1], between);
      assert all[..|all| - 1] == [first] + rest[..|rest| - 1];
      var head, last := Join(rest[..|rest| - 1], between), rest[|rest| - 1];
      assert (first + between + head) + between + last == first + between + (head + between + last);
    }
  }

  lemma JoinLonger(x: char, parts: seq<string>, between: string)
    requires parts != []
    ensures Join([[x] + parts[0]] + parts[1..], between) == [x] + Join(parts, between)
  {
    if |parts| == 1 {
      assert [[x] + parts[0]] + parts[1..] == [[x] + parts[0]];
    } else {
      hide Join;
      JoinCons(parts[0], parts[1..], between);
      JoinCons([x] + parts[0], parts[1..], between);
      assert parts == [parts[0]] + parts[1..];
      assert ([x] + parts[0]) + between + Join(parts[1..], between) == [x] + (parts[0] + between + Join(parts[1..], between));
    }
  }

  // Splitting at a character: the parts do not hold it, and joined by it they are the text again.
  lemma {:induction false} SplitJoins(s: string, c: char)
    ensures Join(Split(s, c), [c]) == s
    ensures forall i :: 0 <= i < |Split(s, c)| ==> c !in Split(s, c)[i]
  {
    if s != "" {
      SplitJoins(s[1..], c);
      var rest := Split(s[1..], c);
      assert s == [s[0]] + s[1..];
      hide Join;
      if s[0] == c {
        JoinCons("", rest, [c]);
        assert "" + [c] + s[1..] == s;
      } else {
        JoinLonger(s[0], rest, [c]);
      }
    }
  }

  // A bar at an end of a row, or none
  predicate Bar(s: string) {
    s == "" || s == "|"
  }

  // The raw cells of a trimmed row: joined by bars they give back the row, with or without a bar at either end.
  ghost predicate RawCells(row: string, raw: seq<string>, left: string, right: string) {
    && Bar(left) && Bar(right) && Strip(row) == left + Join(raw, "|") + right
    && (left == "" ==> Strip(row) == "" || Strip(row)[0] != '|')
    && (right == "" ==> Join(raw, "|") == "" || Join(raw, "|")[|Join(raw, "|")| - 1] != '|')
    && raw != [] && forall i :: 0 <= i < |raw| ==> '|' !in raw[i]
  }

  lemma FirstPart(s: string, c: char) returns (left: string)
    ensures (left == "" || left == [c]) && s == left + WithoutFirst(s, c)
    ensures left == "" ==> s == "" || s[0] != c
  {
    left := if s != "" && s[0] == c then [c] else "";
  }

  lemma LastPart(s: string, c: char) returns (right: string)
    ensures (right == "" || right == [c]) && s == WithoutLast(s, c) + right
    ensures right == "" ==> WithoutLast(s, c) == "" || WithoutLast(s, c)[|WithoutLast(s, c)| - 1] != c
  {
    right := if s != "" && s[|s| - 1] == c then [c] else "";
  }

  // A row's cells are its raw cells, trimmed.
  lemma CellsOfRow(row: string) returns (raw: seq<string>, left: string, right: string)
    ensures RawCells(row, raw, left, right)
    ensures |SplitTableRow(row)| == |raw| && forall i :: 0 <= i < |raw| ==> SplitTableRow(row)[i] == Strip(raw[i])
  {
    hide Strip, Split, WithoutFirst, WithoutLast;
    var s := Strip(row);
    left := FirstPart(s, '|');
    var t := WithoutFirst(s, '|');
    right := LastPart(t, '|');
    var u := WithoutLast(t, '|');
    assert left + u + right == left + (u + right);
    raw := Split(u, '|');
    SplitJoins(u, '|');
  }

  // A cell of the line under a table's header: at least three dashes, perhaps a colon at either end
  lemma DashCellIff(cell: string)
    ensures DashCell(cell) <==> exists n, left, right :: n >= 3 && IsDashCell(cell, left, n, right)
  {
    hide DashCell, IsDashCell;
    if DashCell(cell) {
      DashCellParts(cell);
    }
    if n: nat, left, right :| n >= 3 && IsDashCell(cell, left, n, right) {
      PartsAreDashCell(cell, left, n, right);
    }
  }

  lemma DashesOnly(u: string)
    requires forall i :: 0 <= i < |u| ==> u[i] == '-'
    ensures u == Repeated('-', |u|)
  {
  }

  lemma DashCellParts(cell: string)
    requires DashCell(cell)
    ensures exists n, left, right :: n >= 3 && IsDashCell(cell, left, n, right)
  {
    hide WithoutFirst, WithoutLast;
    var left := FirstPart(cell, ':');
    var t := WithoutFirst(cell, ':');
    var right := LastPart(t, ':');
    var u := WithoutLast(t, ':');
    DashesOnly(u);
    assert left + u + right == left + (u + right);
    assert IsDashCell(cell, left, |u|, right);
  }

  lemma PartsAreDashCell(cell: string, left: string, n: nat, right: string)
    requires n >= 3 && IsDashCell(cell, left, n, right)
    ensures DashCell(cell)
  {
    var u := Repeated('-', n);
    var t := WithoutFirst(cell, ':');
    assert cell[0] == if left == "" then '-' else ':';
    assert t == u + right;
    assert right == ":" ==> (u + right)[..n] == u && t[|t| - 1] == ':';
    assert right == "" ==> u + right == u && t[|t| - 1] == '-';
  }

  predicate IsDashCell(cell: string, left: string, n: nat, right: string) {
    (left == "" || left == ":") && (right == "" || right == ":") && cell == left + Repeated('-', n) + right
  }

  lemma {:induction false} RowsAre(lines: seq<string>)
    ensures |Rows(lines)| == |lines| && forall i :: 0 <= i < |lines| ==> Rows(lines)[i] == SplitTableRow(lines[i])
  {
    hide SplitTableRow;
    if lines != [] {
      RowsAre(lines[..|lines| - 1]);
    }
  }

  // Blocks

  // What the k-th block holds: a heading the level and the text of its line, a code block the lines strictly between
  // its two fences, a table the cells of its first line and of those after the second, a paragraph its lines.
  ghost predicate Holds(lines: seq<string>, span: Span, block: Block) {
    && span.from < span.to <= |lines|
    && match KindAt(lines, span.from)
       case HeadingLine =>
         && span.to == span.from + 1 && block.Heading? && 1 <= block.level <= 6
         && lines[span.from] == Repeated('#', block.level) + " " + block.text
       case CodeStart =>
         && block.Code? && span.from + 2 <= span.to
         && Fence(lines[span.from]) && Fence(lines[span.to - 1])
         && (forall j :: span.from < j < span.to - 1 ==> !Fence(lines[j]))
         && block.body == lines[span.from + 1..span.to - 1]
         && block.mermaid == (Lower(Strip(Strip(lines[span.from])[3..])) == "mermaid")
       case TableStart =>
         && block.Table? && span.from + 2 <= span.to && Separator(lines[span.from + 1])
         && block.header == SplitTableRow(lines[span.from])
         && |block.rows| == span.to - span.from - 2
         && forall j :: 0 <= j < |block.rows| ==> block.rows[j] == SplitTableRow(lines[span.from + 2 + j])
       case RuleLine => span.to == span.from + 1 && block == Rule
       case ListStart => block == Bullets(Rendered(Gather(lines[span.from..span.to]), ROOT))
       case TextLine =>
         && block == Paragraph(Join(lines[span.from..span.to], " "))
         && forall j :: span.from <= j < span.to ==> KindAt(lines, j) == TextLine
       case BlankLine => false
  }

  lemma {:induction false} SpanIsBlock(lines: seq<string>, i: nat, k: nat)
    requires i <= |lines| && k < |Spans(lines, i)|
    ensures var s := Spans(lines, i)[k];
      s.from < |lines| && KindAt(lines, s.from) != BlankLine && s.to == After(lines, s.from) <= |lines|
    decreases |lines| - i
  {
    hide KindAt, After;
    if KindAt(lines, i) == BlankLine {
      SpanIsBlock(lines, i + 1, k);
    } else {
      BlockAdvances(lines, i);
      if k > 0 {
        SpanIsBlock(lines, After(lines, i), k - 1);
      }
    }
  }

  lemma HeadingHolds(lines: seq<string>, i: nat)
    requires i < |lines| && KindAt(lines, i) == HeadingLine
    ensures Holds(lines, Span(i, i + 1), HeadingOf(lines[i]))
  {
    hide Fence, HRule, TableAt, Blank, Bullet;
    HeadingsOnly(lines[i]);
  }

  lemma CodeHolds(lines: seq<string>, i: nat)
    requires i < |lines| && KindAt(lines, i) == CodeStart && CodeEnd(lines, i + 1) < |lines|
    ensures var e := CodeEnd(lines, i + 1); Holds(lines, Span(i, e + 1), Code(Mermaid(lines[i]), lines[i + 1..e]))
  {
    hide Fence, KindAt, Strip, Lower;
    CodeStartIsFence(lines, i);
    CodeEndIsFirst(lines, i + 1);
  }

  lemma TableHolds(lines: seq<string>, i: nat, e: nat)
    requires i < |lines| && KindAt(lines, i) == TableStart && i + 2 <= e <= |lines|
    ensures Holds(lines, Span(i, e), Table(SplitTableRow(lines[i]), Rows(lines[i + 2..e])))
  {
    hide KindAt, SplitTableRow, Separator, Rows;
    TableIsWithin(lines, i);
    RowsAre(lines[i + 2..e]);
  }

  lemma TextHolds(lines: seq<string>, i: nat)
    requires i < |lines| && KindAt(lines, i) == TextLine && i < TextEnd(lines, i)
    ensures var e := TextEnd(lines, i); Holds(lines, Span(i, e), Paragraph(Join(lines[i..e], " ")))
  {
    hide KindAt, Join;
    ParagraphGoesOn(lines, i);
  }

  lemma OtherHolds(lines: seq<string>, i: nat)
    requires i < |lines| && (KindAt(lines, i) == RuleLine || KindAt(lines, i) == ListStart)
    requires i < After(lines, i) <= |lines|
    ensures Holds(lines, Span(i, After(lines, i)), BlockOf(lines, i, After(lines, i)))
  {
    hide KindAt, ListEnd, Rendered, Gather;
  }

  lemma BlockHolds(lines: seq<string>, i: nat)
    requires i < |lines| && KindAt(lines, i) != BlankLine && i < After(lines, i) <= |lines|
    ensures Holds(lines, Span(i, After(lines, i)), BlockOf(lines, i, After(lines, i)))
  {
    hide KindAt, Holds, HeadingOf, CodeEnd, Mermaid, TableEnd, SplitTableRow, Rows, TextEnd, Join, ListEnd, Rendered, Gather;
    match KindAt(lines, i)
    case HeadingLine => HeadingHolds(lines, i);
    case CodeStart => CodeHolds(lines, i);
    case TableStart =>
      TableIsWithin(lines, i);
      TableHolds(lines, i, After(lines, i));
    case TextLine => TextHolds(lines, i);
    case _ => OtherHolds(lines, i);
  }

  // The k-th block that the compiler puts out holds what the lines of the k-th span say.
  lemma BlocksHold(lines: seq<string>, k: nat)
    requires k < |Blocks(lines, 0)|
    ensures |Blocks(lines, 0)| == |Spans(lines, 0)| && Holds(lines, Spans(lines, 0)[k], Blocks(lines, 0)[k])
  {
    hide Blocks, Spans, KindAt, After, BlockOf, Holds;
    BlocksAreAtSpans(lines, 0);
    SpanIsBlock(lines, 0, k);
    BlockHolds(lines, Spans(lines, 0)[k].from);
  }

  lemma AllBlocksHold(lines: seq<string>)
    ensures |Blocks(lines, 0)| == |Spans(lines, 0)|
    ensures forall k :: 0 <= k < |Blocks(lines, 0)| ==> Holds(lines, Spans(lines, 0)[k], Blocks(lines, 0)[k])
  {
    hide Blocks, Spans, Holds;
    BlocksAreAtSpans(lines, 0);
    forall k | 0 <= k < |Blocks(lines, 0)|
      ensures Holds(lines, Spans(lines, 0)[k], Blocks(lines, 0)[k])
    {
      BlocksHold(lines, k);
    }
  }

  // A line of hashes, a space and a text that begins a block puts out exactly that heading.
  lemma HeadingIsPutOut(lines: seq<string>, k: nat, n: nat, text: string)
    requires k < |Spans(lines, 0)| && Spans(lines, 0)[k].from < |lines| && 1 <= n <= 6
    requires lines[Spans(lines, 0)[k].from] == Repeated('#', n) + " " + text
    requires KindAt(lines, Spans(lines, 0)[k].from) == HeadingLine
    ensures k < |Blocks(lines, 0)| && Blocks(lines, 0)[k] == Heading(n, text)
  {
    hide Blocks, Spans, KindAt, HeadingOf;
    BlocksAreAtSpans(lines, 0);
    HeadingReads(n, text);
  }

  // How far blocks go

  // A row of a table: not blank, no fence, no rule, no hash in front, and a bar somewhere
  predicate RowLine(line: string) {
    !Blank(line) && !Fence(line) && !HRule(line) && !Hash(line) && '|' in line
  }

  // A line of a list: not blank, no fence, no rule, no hash in front, and a bullet or white space in front
  predicate ListLine(line: string) {
    !Blank(line) && !Fence(line) && !HRule(line) && !Hash(line) && (Bullet(line) || (line != "" && IsSpace(line[0])))
  }

  // A hash in front: white space and a hash
  lemma HashIff(line: string)
    ensures Hash(line) <==> exists k :: 0 <= k < |line| && AllSpace(line[..k]) && line[k] == '#'
  {
    LeadSpaces(line);
    LeadIs(line, Lead(line));
    if Hash(line) {
      assert line[Lead(line)] == line[Lead(line)..][0];
    }
    if k :| 0 <= k < |line| && AllSpace(line[..k]) && line[k] == '#' {
      LeadIs(line, k);
      assert line[k..][0] == '#';
    }
  }

  // Tables, lists and paragraphs take as many lines as they can.
  ghost predicate Maximal(lines: seq<string>, span: Span) {
    && span.from < span.to <= |lines|
    && match KindAt(lines, span.from)
       case TableStart =>
         && (forall j :: span.from + 2 <= j < span.to ==> RowLine(lines[j]))
         && (span.to < |lines| ==> !RowLine(lines[span.to]))
       case ListStart =>
         && (forall j :: span.from <= j < span.to ==> ListLine(lines[j]))
         && (span.to < |lines| ==> !ListLine(lines[span.to]))
       case TextLine =>
         && (forall j :: span.from <= j < span.to ==> KindAt(lines, j) == TextLine)
         && (span.to < |lines| ==> KindAt(lines, span.to) != TextLine)
       case _ => true
  }

  lemma {:induction false} TableGoesOn(lines: seq<string>, i: nat)
    requires i <= |lines|
    ensures forall j :: i <= j < TableEnd(lines, i) ==> RowLine(lines[j])
    ensures TableEnd(lines, i) < |lines| ==> !RowLine(lines[TableEnd(lines, i)])
    decreases |lines| - i
  {
    hide Blank, Fence, HRule, Hash;
    if i < |lines| && !EndsTable(lines[i]) {
      TableGoesOn(lines, i + 1);
    }
  }

  lemma {:induction false} ListGoesOn(lines: seq<string>, i: nat)
    requires i <= |lines|
    ensures forall j :: i <= j < ListEnd(lines, i) ==> ListLine(lines[j])
    ensures ListEnd(lines, i) < |lines| ==> !ListLine(lines[ListEnd(lines, i)])
    decreases |lines| - i
  {
    hide Blank, Fence, HRule, Hash, Bullet;
    if i < |lines| && !EndsList(lines[i]) {
      ListGoesOn(lines, i + 1);
    }
  }

  lemma {:induction false} ParagraphGoesOn(lines: seq<string>, i: nat)
    requires i <= |lines|
    ensures forall j :: i <= j < TextEnd(lines, i) ==> KindAt(lines, j) == TextLine
    ensures TextEnd(lines, i) < |lines| ==> KindAt(lines, TextEnd(lines, i)) != TextLine
    decreases |lines| - i
  {
    hide KindAt;
    if i < |lines| && KindAt(lines, i) == TextLine {
      ParagraphGoesOn(lines, i + 1);
    }
  }

  lemma SpansAreMaximal(lines: seq<string>, k: nat)
    requires k < |Spans(lines, 0)|
    ensures Maximal(lines, Spans(lines, 0)[k])
  {
    hide Spans, KindAt, TableEnd, ListEnd, TextEnd, RowLine, ListLine;
    SpanIsBlock(lines, 0, k);
    var i := Spans(lines, 0)[k].from;
    BlockAdvances(lines, i);
    TableIsWithin(lines, i);
    if i + 2 <= |lines| {
      TableGoesOn(lines, i + 2);
    }
    ListGoesOn(lines, i);
    ParagraphGoesOn(lines, i);
  }
}
