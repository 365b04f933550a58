/**
  md_to_html of docs/build_docs.py: one pass over the lines with a code buffer and a paragraph buffer, which
  finds exactly the blocks of MarkdownBlocks.
 */
module MarkdownCompiler {
  import opened ListOutline
  import opened ListRendering
  import opened MarkdownBlocks
  import opened MarkdownContents
  import opened MarkdownList
  import opened Text

  // flush_paragraph
  function Flushed(buf: seq<string>): seq<Block> {
    if buf == [] then [] else [Paragraph(Join(buf, " "))]
  }

  // What the buffers hold: the lines from s on, of a code block or of a paragraph.
  ghost predicate Pending(lines: seq<string>, s: nat, i: nat, inCode: bool, mermaid: bool, code: seq<string>,
                          para: seq<string>) {
    && s <= i <= |lines|
    && if inCode then
         && s < i && Fence(lines[s]) && mermaid == Mermaid(lines[s])
         && code == lines[s + 1..i] && para == []
         && CodeEnd(lines, s + 1) == CodeEnd(lines, i)
       else
         && para == lines[s..i]
         && (s < i ==> KindAt(lines, s) == TextLine && TextEnd(lines, s) == TextEnd(lines, i))
  }

  // The blocks are those put out and those from line s on.
  ghost predicate Made(lines: seq<string>, out: seq<Block>, s: nat) {
    s <= |lines| && Blocks(lines, 0) == out + Blocks(lines, s)
  }

  lemma MadeBlock(lines: seq<string>, out: seq<Block>, i: nat)
    requires i < |lines| && KindAt(lines, i) != BlankLine && After(lines, i) <= |lines|
    requires Made(lines, out, i)
    ensures i < After(lines, i) && Made(lines, out + [BlockOf(lines, i, After(lines, i))], After(lines, i))
  {
    hide KindAt, After, BlockOf;
    BlockAdvances(lines, i);
    var e := After(lines, i);
    assert out + ([BlockOf(lines, i, e)] + Blocks(lines, e)) == (out + [BlockOf(lines, i, e)]) + Blocks(lines, e);
  }

  lemma MadeBlank(lines: seq<string>, out: seq<Block>, i: nat)
    requires i < |lines| && KindAt(lines, i) == BlankLine && Made(lines, out, i)
    ensures Made(lines, out, i + 1)
  {
    hide KindAt, After, BlockOf;
  }

  // A paragraph ends at a line that is not plain text.
  lemma MadeParagraph(lines: seq<string>, out: seq<Block>, s: nat, i: nat, mermaid: bool, code: seq<string>, para: seq<string>)
    requires Pending(lines, s, i, false, mermaid, code, para) && Made(lines, out, s)
    requires i < |lines| ==> KindAt(lines, i) != TextLine
    ensures Made(lines, out + Flushed(para), i)
  {
    hide KindAt, Made, Join;
    if s == i {
      assert out + [] == out;
    } else {
      MadeBlock(lines, out, s);
    }
  }

  lemma TextGrows(lines: seq<string>, s: nat, i: nat, mermaid: bool, code: seq<string>, para: seq<string>)
    requires Pending(lines, s, i, false, mermaid, code, para)
    requires i < |lines| && KindAt(lines, i) == TextLine
    ensures Pending(lines, s, i + 1, false, mermaid, code, para + [lines[i]])
  {
    hide KindAt, Mermaid;
  }

  lemma CodeGrows(lines: seq<string>, s: nat, i: nat, mermaid: bool, code: seq<string>, para: seq<string>)
    requires Pending(lines, s, i, true, mermaid, code, para) && i < |lines| && !Fence(lines[i])
    ensures Pending(lines, s, i + 1, true, mermaid, code + [lines[i]], para)
  {
    hide Fence, Mermaid, KindAt;
  }

  lemma CodeCloses(lines: seq<string>, out: seq<Block>, s: nat, i: nat, mermaid: bool, code: seq<string>, para: seq<string>)
    requires Pending(lines, s, i, true, mermaid, code, para) && Made(lines, out, s)
    requires i < |lines| && Fence(lines[i])
    ensures Made(lines, out + [Code(mermaid, code)], i + 1)
  {
    hide Fence, Mermaid, KindAt, Made;
    CodeStartIsFence(lines, s);
    MadeBlock(lines, out, s);
  }

  lemma CodeOpens(lines: seq<string>, i: nat)
    requires i < |lines| && Fence(lines[i])
    ensures Pending(lines, i, i + 1, true, Mermaid(lines[i]), [], [])
  {
    hide Fence, Mermaid, KindAt;
  }

  lemma Idle(lines: seq<string>, i: nat, mermaid: bool, code: seq<string>)
    requires i <= |lines|
    ensures Pending(lines, i, i, false, mermaid, code, [])
  {
    hide Fence, Mermaid, KindAt;
  }

  // A code block that is still open at the end puts nothing out.
  lemma CodeIsLost(lines: seq<string>, out: seq<Block>, s: nat, mermaid: bool, code: seq<string>, para: seq<string>)
    requires Pending(lines, s, |lines|, true, mermaid, code, para) && Made(lines, out, s)
    ensures Blocks(lines, 0) == out
  {
    hide Fence, Mermaid, KindAt;
    CodeStartIsFence(lines, s);
  }

  lemma NothingMade(lines: seq<string>)
    ensures Made(lines, [], 0)
  {
    assert [] + Blocks(lines, 0) == Blocks(lines, 0);
    hide Blocks;
  }

  lemma NothingIsLeft(lines: seq<string>, out: seq<Block>)
    requires Made(lines, out, |lines|)
    ensures Blocks(lines, 0) == out
  {
    assert Blocks(lines, |lines|) == [];
    hide Blocks;
  }

  lemma NothingToFlush(lines: seq<string>, out: seq<Block>, s: nat, mermaid: bool, code: seq<string>, para: seq<string>)
    requires Pending(lines, s, |lines|, true, mermaid, code, para)
    ensures out + Flushed(para) == out
  {
    hide Fence, Mermaid, KindAt;
  }

  // A rule or a heading is a block of its own.
  lemma MadeLine(lines: seq<string>, out: seq<Block>, i: nat)
    requires i < |lines| && Made(lines, out, i)
    ensures KindAt(lines, i) == RuleLine ==> Made(lines, out + [Rule], i + 1)
    ensures KindAt(lines, i) == HeadingLine ==> Made(lines, out + [HeadingOf(lines[i])], i + 1)
  {
    hide KindAt, Made, HeadingOf;
    if KindAt(lines, i) == RuleLine || KindAt(lines, i) == HeadingLine {
      MadeBlock(lines, out, i);
    }
  }

  // The rows of a table
  method TakeTable(lines: seq<string>, start: nat) returns (block: Block, i: nat)
    requires start < |lines| && KindAt(lines, start) == TableStart
    ensures i == After(lines, start) <= |lines| && start < i && block == BlockOf(lines, start, i)
  {
    hide KindAt, EndsTable, SplitTableRow;
    TableIsWithin(lines, start);
    var header := SplitTableRow(lines[start]);
    var rows: seq<seq<string>> := [];
    i := start + 2;
    while i < |lines|
      invariant start + 2 <= i <= |lines| && TableEnd(lines, i) == TableEnd(lines, start + 2)
      invariant rows == Rows(lines[start + 2..i])
    {
      if EndsTable(lines[i]) {
        break;
      }
      assert lines[start + 2..i + 1][..i - start - 2] == lines[start + 2..i];
      rows := rows + [SplitTableRow(lines[i])];
      i := i + 1;
    }
    block := Table(header, rows);
  }

  // The lines of a list
  method TakeList(lines: seq<string>, start: nat) returns (block: Block, i: nat)
    requires start < |lines| && KindAt(lines, start) == ListStart
    ensures i == After(lines, start) <= |lines| && start < i && block == BlockOf(lines, start, i)
  {
    hide *;
    ListHasItsFirstLine(lines, start);
    var listLines: seq<string> := [];
    i := start;
    while i < |lines|
      invariant start <= i <= |lines| && ListEnd(lines, i) == ListEnd(lines, start)
      invariant listLines == lines[start..i]
    {
      ListEndHere(lines, i);
      if EndsList(lines[i]) {
        break;
      }
      listLines := listLines + [lines[i]];
      i := i + 1;
    }
    ListEndHere(lines, i);
    ListIsBlock(lines, start, i);
    var parts := RenderListBlock(listLines);
    block := Bullets(parts);
  }

  lemma ListEndHere(lines: seq<string>, i: nat)
    requires i <= |lines|
    ensures i == |lines| || EndsList(lines[i]) ==> ListEnd(lines, i) == i
    ensures i < |lines| && !EndsList(lines[i]) ==> ListEnd(lines, i) == ListEnd(lines, i + 1)
  {
    hide EndsList;
  }

  lemma ListIsBlock(lines: seq<string>, start: nat, i: nat)
    requires start < |lines| && KindAt(lines, start) == ListStart
    ensures After(lines, start) == ListEnd(lines, start)
    ensures start < i <= |lines| ==> BlockOf(lines, start, i) == Bullets(Rendered(Gather(lines[start..i]), ROOT))
  {
    hide KindAt, ListEnd, Rendered, Gather;
  }

  // A line outside code that is no fence: all but a line of plain text end the paragraph, and all but that and
  // a blank line begin a block.
  method TakeBlock(lines: seq<string>, i: nat, flushed: seq<Block>) returns (out: seq<Block>, next: nat)
    requires i < |lines| && KindAt(lines, i) != TextLine && KindAt(lines, i) != CodeStart && Made(lines, flushed, i)
    ensures i < next <= |lines| && Made(lines, out, next)
  {
    hide Made, Fence, HRule, TableAt, Blank, HeadingLevel, Bullet, After, BlockOf, HeadingOf, SplitTableRow;
    var line := lines[i];
    out := flushed;
    if HRule(line) {
      MadeLine(lines, out, i);
      out := out + [Rule];
      return out, i + 1;
    }
    if TableAt(lines, i) {
      var table;
      table, next := TakeTable(lines, i);
      MadeBlock(lines, out, i);
      out := out + [table];
      return;
    }
    if Blank(line) {
      MadeBlank(lines, out, i);
      return out, i + 1;
    }
    if HeadingLevel(line) > 0 {
      MadeLine(lines, out, i);
      out := out + [HeadingOf(line)];
      return out, i + 1;
    }
    var list;
    list, next := TakeList(lines, i);
    MadeBlock(lines, out, i);
    out := out + [list];
  }

  // md_to_html
  method MdToHtml(lines: seq<string>) returns (out: seq<Block>)
    ensures out == Blocks(lines, 0)
    ensures |out| == |Spans(lines, 0)| && forall k :: 0 <= k < |out| ==> Holds(lines, Spans(lines, 0)[k], out[k])
  {
    hide Holds, Spans, Blocks, Made, Pending, Fence, HRule, TableAt, Blank, HeadingLevel, Bullet, Mermaid, Flushed, After, BlockOf,
      TextEnd, CodeEnd;
    out := [];
    var inCode, mermaid := false, false;
    var code: seq<string>, para: seq<string> := [], [];
    var i := 0;
    ghost var s := 0;
    Idle(lines, 0, mermaid, code);
    NothingMade(lines);
    while i < |lines|
      invariant 0 <= s <= i <= |lines|
      invariant Pending(lines, s, i, inCode, mermaid, code, para)
      invariant Made(lines, out, s)
      decreases |lines| - i
    {
      var line := lines[i];
      if inCode {
        if Fence(line) {
          CodeCloses(lines, out, s, i, mermaid, code, para);
          out := out + [Code(mermaid, code)];
          inCode, mermaid, code, para := false, false, [], [];
          s := i + 1;
          Idle(lines, i + 1, mermaid, code);
        } else {
          CodeGrows(lines, s, i, mermaid, code, para);
          code := code + [line];
        }
        i := i + 1;
        continue;
      }
      if !(Fence(line) || HRule(line) || TableAt(lines, i) || Blank(line) || HeadingLevel(line) > 0 || Bullet(line)) {
        TextGrows(lines, s, i, mermaid, code, para);
        para := para + [line];
        i := i + 1;
        continue;
      }
      MadeParagraph(lines, out, s, i, mermaid, code, para);
      out, para := out + Flushed(para), [];
      s := i;
      if Fence(line) {
        CodeOpens(lines, i);
        inCode, mermaid, code := true, Mermaid(line), [];
        i := i + 1;
      } else {
        out, i := TakeBlock(lines, i, out);
        s := i;
        Idle(lines, i, mermaid, code);
      }
    }
    if inCode {
      NothingToFlush(lines, out, s, mermaid, code, para);
      CodeIsLost(lines, out, s, mermaid, code, para);
    } else {
      MadeParagraph(lines, out, s, i, mermaid, code, para);
      NothingIsLeft(lines, out + Flushed(para));
    }
    out := out + Flushed(para);
    AllBlocksHold(lines);
  }
}
