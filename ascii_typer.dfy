/**
 * The ASCII typer page: a list of text lines edited like the transcript
 * editor's, and the preview that renders every non-blank line, upper-cased,
 * as ASCII art with an empty line after each block except those whose text
 * equals the last one. The art generator is a parameter.
 */
module AsciiTyper {
  import opened Text
  import opened Lists

  datatype TextLine = TextLine(id: string, text: string)

  /** The page opens with one line. */
  const InitialTextLines: seq<TextLine> := [TextLine("1", "Gradient Text")]

  /** What an all-blank page previews: six empty rows. */
  const BlankPreview: seq<string> := ["", "", "", "", "", ""]

  /** `addNewLine`: an empty line whose id is the clock reading in decimal. */
  function NewTextLine(now: nat): TextLine {
    TextLine(Decimal(now), "")
  }

  /** `updateLineText`: only lines with that id change, and only in their text. */
  function WithText(lines: seq<TextLine>, id: string, text: string): (r: seq<TextLine>)
    ensures |r| == |lines|
    ensures forall i :: 0 <= i < |lines| ==> r[i].id == lines[i].id
    ensures forall i :: 0 <= i < |lines| ==> r[i].text == if lines[i].id == id then text else lines[i].text
  {
    seq(|lines|, i requires 0 <= i < |lines| => if lines[i].id == id then lines[i].(text := text) else lines[i])
  }

  /** The filter inside `removeLine`. */
  function WithoutTextLine(lines: seq<TextLine>, id: string): (r: seq<TextLine>)
    ensures |r| <= |lines|
    ensures forall i :: 0 <= i < |r| ==> r[i].id != id && r[i] in lines
    ensures forall i :: 0 <= i < |lines| && lines[i].id != id ==> lines[i] in r
  {
    Filter(lines, (l: TextLine) => l.id != id)
  }

  predicate DistinctIds(lines: seq<TextLine>) {
    forall i, j :: 0 <= i < j < |lines| ==> lines[i].id != lines[j].id
  }

  /** With distinct ids, removing from two or more lines leaves at least one. */
  lemma RemoveKeepsOne(lines: seq<TextLine>, id: string)
    requires DistinctIds(lines) && |lines| > 1
    ensures |WithoutTextLine(lines, id)| >= 1
  {
    FilterDropsAtMostOne(lines, (l: TextLine) => l.id != id);
  }

  /** `lines.every(line => line.text.trim() === '')`. */
  predicate AllBlank(lines: seq<TextLine>) {
    forall i :: 0 <= i < |lines| ==> IsBlank(lines[i].text)
  }

  /** A line takes part in the preview when its text is not blank. */
  predicate Shown(l: TextLine)
  {
    !IsBlank(l.text)
  }

  /** The non-blank texts, in order, upper-cased. */
  function NonBlankTexts(lines: seq<TextLine>): (r: seq<string>)
    ensures r == [] <==> AllBlank(lines)
    ensures |r| <= |lines|
  {
    var kept := Filter(lines, Shown);
    assert kept != [] ==> kept[0] in lines;
    seq(|kept|, i requires 0 <= i < |kept| => Upper(kept[i].text))
  }

  /** Every previewed text is some non-blank line upper-cased, and every non-blank line is previewed. */
  lemma NonBlankTextsContents(lines: seq<TextLine>)
    ensures forall i :: 0 <= i < |NonBlankTexts(lines)| ==>
      exists j :: 0 <= j < |lines| && !IsBlank(lines[j].text) && NonBlankTexts(lines)[i] == Upper(lines[j].text)
    ensures forall j :: 0 <= j < |lines| && !IsBlank(lines[j].text) ==> Upper(lines[j].text) in NonBlankTexts(lines)
  {
    var kept := Filter(lines, Shown);
    var r := NonBlankTexts(lines);
    forall i | 0 <= i < |r|
      ensures exists j :: 0 <= j < |lines| && !IsBlank(lines[j].text) && r[i] == Upper(lines[j].text)
    {
      var j :| 0 <= j < |lines| && lines[j] == kept[i];
      assert r[i] == Upper(lines[j].text);
    }
    forall j | 0 <= j < |lines| && !IsBlank(lines[j].text)
      ensures Upper(lines[j].text) in r
    {
      var k :| 0 <= k < |kept| && kept[k] == lines[j];
      assert r[k] == Upper(lines[j].text);
    }
  }

  /** The texts of two runs of lines are the texts of the first run followed by those of the second. */
  lemma NonBlankTextsConcat(a: seq<TextLine>, b: seq<TextLine>)
    ensures NonBlankTexts(a + b) == NonBlankTexts(a) + NonBlankTexts(b)
  {
    FilterConcat(a, b, Shown);
    var ka, kb := Filter(a, Shown), Filter(b, Shown);
    var r := NonBlankTexts(a + b);
    assert |r| == |ka| + |kb|;
    forall i | 0 <= i < |r|
      ensures r[i] == (NonBlankTexts(a) + NonBlankTexts(b))[i]
    {
      if i < |ka| {
        assert (ka + kb)[i] == ka[i];
      } else {
        assert (ka + kb)[i] == kb[i - |ka|];
      }
    }
  }

  /** One line contributes its upper-cased text when it is not blank and nothing otherwise. */
  lemma NonBlankTextsSingle(l: TextLine)
    ensures NonBlankTexts([l]) == (if IsBlank(l.text) then [] else [Upper(l.text)])
  {
    assert [l][1..] == [];
    assert Filter([l], Shown) == (if Shown(l) then [l] else []);
  }

  /**
   * What the preview loop has produced after the texts `done`: each text's
   * art, followed by an empty row unless the text equals `last`.
   */
  function Assembled(done: seq<string>, last: string, art: string -> seq<string>): seq<string>
    decreases |done|
  {
    if done == [] then []
    else
      var t := done[|done| - 1];
      Assembled(done[..|done| - 1], last, art) + art(t) + (if t != last then [""] else [])
  }

  /** `generatePreview`: six empty rows for an all-blank page; otherwise the blocks end with the last text's art, never with a separator. */
  function Preview(lines: seq<TextLine>, art: string -> seq<string>): (r: seq<string>)
    ensures AllBlank(lines) ==> r == BlankPreview
    ensures !AllBlank(lines) ==>
      var texts := NonBlankTexts(lines);
      var n := |texts|;
      n > 0 && r == Assembled(texts[..n - 1], texts[n - 1], art) + art(texts[n - 1])
  {
    if AllBlank(lines) then BlankPreview
    else
      var texts := NonBlankTexts(lines);
      var n := |texts|;
      assert texts[..n][..n - 1] == texts[..n - 1];
      assert texts[..n] == texts;
      Assembled(texts, texts[n - 1], art)
  }

  /** The loop of `generatePreview`. */
  method GeneratePreview(lines: seq<TextLine>, art: string -> seq<string>) returns (result: seq<string>)
    ensures result == Preview(lines, art)
  {
    if AllBlank(lines) {
      return BlankPreview;
    }
    var textLines := NonBlankTexts(lines);
    var last := textLines[|textLines| - 1];
    result := [];
    var i := 0;
    while i < |textLines|
      invariant 0 <= i <= |textLines|
      invariant result == Assembled(textLines[..i], last, art)
    {
      var textLine := textLines[i];
      AssembledStep(textLines, i, last, art);
      result := result + art(textLine);
      if textLine != last {
        result := result + [""];
      }
      i := i + 1;
    }
    assert textLines[..i] == textLines;
  }

  /** One more loop iteration: the next text's art, then its separator unless it equals the last text. */
  lemma AssembledStep(texts: seq<string>, i: nat, last: string, art: string -> seq<string>)
    requires i < |texts|
    ensures Assembled(texts[..i + 1], last, art)
      == Assembled(texts[..i], last, art) + art(texts[i]) + (if texts[i] != last then [""] else [])
  {
    assert texts[..i + 1][..i] == texts[..i];
  }

  /** The intended layout: the blocks with exactly one empty row between neighbours. */
  function Intercalated(texts: seq<string>, art: string -> seq<string>): seq<string>
    decreases |texts|
  {
    if texts == [] then []
    else if |texts| == 1 then art(texts[0])
    else Intercalated(texts[..|texts| - 1], art) + [""] + art(texts[|texts| - 1])
  }

  /** Texts that all differ from `last` are each followed by a separator. */
  lemma {:induction false} AssembledBeforeLast(done: seq<string>, last: string, art: string -> seq<string>)
    requires done != []
    requires forall i :: 0 <= i < |done| ==> done[i] != last
    ensures Assembled(done, last, art) == Intercalated(done, art) + [""]
    decreases |done|
  {
    var n := |done|;
    if n > 1 {
      AssembledBeforeLast(done[..n - 1], last, art);
    } else {
      assert done[..n - 1] == [];
    }
  }

  /** When no earlier line repeats the last text, the preview is the blocks with one empty row between neighbours. */
  lemma PreviewIntercalates(lines: seq<TextLine>, art: string -> seq<string>)
    requires !AllBlank(lines)
    requires var texts := NonBlankTexts(lines);
      forall i :: 0 <= i < |texts| - 1 ==> texts[i] != texts[|texts| - 1]
    ensures Preview(lines, art) == Intercalated(NonBlankTexts(lines), art)
  {
    var texts := NonBlankTexts(lines);
    var n := |texts|;
    if n > 1 {
      AssembledBeforeLast(texts[..n - 1], texts[n - 1], art);
    } else {
      assert texts[..n - 1] == [];
    }
  }

  /** A copy of the last text earlier on loses its separator: `a, b, a` renders with no empty row after the first `a`. */
  lemma DuplicateOfLastLosesSeparator(a: string, b: string, art: string -> seq<string>)
    requires a != b
    ensures Assembled([a, b, a], a, art) == art(a) + art(b) + [""] + art(a)
    ensures Intercalated([a, b, a], art) == art(a) + [""] + art(b) + [""] + art(a)
  {
    assert [a, b, a][..2] == [a, b] && [a, b][..1] == [a] && [a][..0] == [];
    assert Assembled([a], a, art) == art(a);
    assert Assembled([a, b], a, art) == art(a) + art(b) + [""];
    assert Assembled([a, b, a], a, art) == (art(a) + art(b) + [""]) + art(a) + [];
    assert Intercalated([a, b], art) == art(a) + [""] + art(b);
    assert Intercalated([a, b, a], art) == (art(a) + [""] + art(b)) + [""] + art(a);
  }

  /** The page's line state. */
  class TyperLines {
    var lines: seq<TextLine>

    constructor ()
      ensures lines == InitialTextLines
    {
      lines := InitialTextLines;
    }

    /** `addNewLine`. */
    method AddNewLine(now: nat)
      modifies this
      ensures lines == old(lines) + [NewTextLine(now)]
    {
      lines := lines + [NewTextLine(now)];
    }

    /** `updateLineText`. */
    method UpdateLineText(id: string, text: string)
      modifies this
      ensures lines == WithText(old(lines), id, text)
    {
      lines := WithText(lines, id, text);
    }

    /** `removeLine`: refuses while only one line is left. */
    method RemoveLine(id: string)
      modifies this
      ensures |old(lines)| <= 1 ==> lines == old(lines)
      ensures |old(lines)| > 1 ==> lines == WithoutTextLine(old(lines), id)
      ensures old(lines) != [] && DistinctIds(old(lines)) ==> lines != []
    {
      if |lines| > 1 {
        if DistinctIds(lines) {
          RemoveKeepsOne(lines, id);
        }
        lines := WithoutTextLine(lines, id);
      }
    }
  }
}
