/**
 * The custom terminal editor: a list of editable lines, seeded from the
 * transcript being edited (or two sample lines), with add, remove and
 * update, a save that turns every line into a transcript line with a
 * fixed 100 ms delay, and the colour swatch lookup.
 */
module TerminalEditor {
  import opened Wrappers
  import opened Text
  import opened Lists
  import opened TerminalData

  /** One editor row; `kind` is the line type (`command`, `output`, ...). */
  datatype CustomLine = CustomLine(id: string, text: string, color: string, kind: string)

  /** The field an edit names. */
  datatype Field = IdField | TextField | ColorField | KindField

  /** `line-<n>`. */
  function LineId(n: nat): string {
    "line-" + Decimal(n)
  }

  /** `line.color || 'primary'`: a missing or empty colour falls back to `primary`. */
  function ColorOrPrimary(color: Option<string>): (r: string)
    ensures color.Some? && color.value != "" ==> r == color.value
    ensures color.None? || color.value == "" ==> r == "primary"
  {
    match color
    case Some(c) => if c == "" then "primary" else c
    case None => "primary"
  }

  /** The two sample lines an editor opened on an empty transcript starts with. */
  const DefaultEditorLines: seq<CustomLine> := [
    CustomLine("line-1", "user@localhost:~$ ", "command", "command"),
    CustomLine("line-2", "Welcome to my custom terminal!", "success", "output")
  ]

  /** The initial editor state: one row per transcript line, or the samples when there are none. */
  function InitialLines(initial: seq<TerminalLine>): (r: seq<CustomLine>)
    ensures initial == [] ==> r == DefaultEditorLines
    ensures initial != [] ==> |r| == |initial|
    ensures initial != [] ==> forall i :: 0 <= i < |initial| ==>
      r[i] == CustomLine(LineId(i), initial[i].text, ColorOrPrimary(initial[i].color), "output")
    ensures r != []
  {
    if initial == [] then DefaultEditorLines
    else seq(|initial|, i requires 0 <= i < |initial| => CustomLine(LineId(i), initial[i].text, ColorOrPrimary(initial[i].color), "output"))
  }

  /** The ids `line-<i>` the editor hands out on opening are pairwise distinct. */
  lemma InitialIdsDistinct(initial: seq<TerminalLine>)
    ensures DistinctIds(InitialLines(initial))
  {
    var r := InitialLines(initial);
    if initial != [] {
      forall i, j | 0 <= i < j < |r|
        ensures r[i].id != r[j].id
      {
        assert r[i].id[5..] == Decimal(i) && r[j].id[5..] == Decimal(j);
        DecimalInjective(i, j);
      }
    } else {
      assert DefaultEditorLines[0].id != DefaultEditorLines[1].id;
    }
  }

  predicate DistinctIds(lines: seq<CustomLine>) {
    forall i, j :: 0 <= i < j < |lines| ==> lines[i].id != lines[j].id
  }

  /** The row `addLine` appends: empty text, colour `primary`, type `output`. */
  function BlankLine(now: nat): CustomLine {
    CustomLine(LineId(now), "", "primary", "output")
  }

  /** The filter inside `removeLine`: every row with that id goes. */
  function WithoutLine(lines: seq<CustomLine>, id: string): (r: seq<CustomLine>)
    ensures |r| <= |lines|
    ensures forall i :: 0 <= i < |r| ==> r[i].id != id && r[i] in lines
    ensures forall i :: 0 <= i < |lines| && lines[i].id != id ==> lines[i] in r
  {
    Filter(lines, (l: CustomLine) => l.id != id)
  }

  /** With distinct ids, removing one id drops at most one row. */
  lemma WithoutLineDropsAtMostOne(lines: seq<CustomLine>, id: string)
    requires DistinctIds(lines)
    ensures |WithoutLine(lines, id)| >= |lines| - 1
  {
    FilterDropsAtMostOne(lines, (l: CustomLine) => l.id != id);
  }

  /** Rows that all share the id all go: with two or more such rows the length guard does not keep the list non-empty. */
  lemma {:induction false} SharedIdEmptiesList(lines: seq<CustomLine>, id: string)
    requires forall i :: 0 <= i < |lines| ==> lines[i].id == id
    ensures WithoutLine(lines, id) == []
    decreases |lines|
  {
    if lines != [] {
      SharedIdEmptiesList(lines[1..], id);
    }
  }

  /** The row after `{ ...line, [field]: value }`. */
  function SetField(l: CustomLine, field: Field, value: string): (r: CustomLine)
    ensures field == IdField ==> r == l.(id := value)
    ensures field == TextField ==> r == l.(text := value)
    ensures field == ColorField ==> r == l.(color := value)
    ensures field == KindField ==> r == l.(kind := value)
  {
    match field
    case IdField => l.(id := value)
    case TextField => l.(text := value)
    case ColorField => l.(color := value)
    case KindField => l.(kind := value)
  }

  /** `updateLine`: only rows with that id change, and only in the named field. */
  function UpdatedLines(lines: seq<CustomLine>, id: string, field: Field, value: string): (r: seq<CustomLine>)
    ensures |r| == |lines|
    ensures forall i :: 0 <= i < |lines| && lines[i].id != id ==> r[i] == lines[i]
    ensures forall i :: 0 <= i < |lines| && lines[i].id == id ==> r[i] == SetField(lines[i], field, value)
  {
    seq(|lines|, i requires 0 <= i < |lines| => if lines[i].id == id then SetField(lines[i], field, value) else lines[i])
  }

  /** Editing any field but the id keeps the ids, so distinct ids stay distinct. */
  lemma UpdateKeepsIds(lines: seq<CustomLine>, id: string, field: Field, value: string)
    requires field != IdField
    ensures forall i :: 0 <= i < |lines| ==> UpdatedLines(lines, id, field, value)[i].id == lines[i].id
    ensures DistinctIds(lines) ==> DistinctIds(UpdatedLines(lines, id, field, value))
  {
    var r := UpdatedLines(lines, id, field, value);
    forall i | 0 <= i < |lines|
      ensures r[i].id == lines[i].id
    {
      if lines[i].id == id {
        assert r[i] == SetField(lines[i], field, value);
      }
    }
  }

  /** `handleSave`: one transcript line per row, in order, with the row's text and colour and a 100 ms delay. */
  function Saved(lines: seq<CustomLine>): (r: seq<TerminalLine>)
    ensures |r| == |lines|
    ensures forall i :: 0 <= i < |lines| ==>
      r[i].text == lines[i].text && r[i].color == Some(lines[i].color) && r[i].delay == Some(100)
      && r[i].colorRole.None? && r[i].bold.None?
  {
    seq(|lines|, i requires 0 <= i < |lines| => TerminalLine(lines[i].text, Some(lines[i].color), None, None, Some(100)))
  }

  /** The start-up mapping inverts the save mapping: text and (non-empty) colour are kept in order, ids are renumbered and the type becomes `output`. */
  lemma SaveThenReopen(lines: seq<CustomLine>)
    requires lines != []
    requires forall i :: 0 <= i < |lines| ==> lines[i].color != ""
    ensures |InitialLines(Saved(lines))| == |lines|
    ensures forall i :: 0 <= i < |lines| ==>
      InitialLines(Saved(lines))[i] == CustomLine(LineId(i), lines[i].text, lines[i].color, "output")
  {
    var s := Saved(lines);
    assert s != [] by {
      assert |s| == |lines|;
    }
  }

  /** The colour swatches: value, label, hex colour. */
  const ColorOptions: seq<(string, string, string)> := [
    ("primary", "Primary", "#ffffff"),
    ("success", "Success", "#10b981"),
    ("error", "Error", "#ef4444"),
    ("warning", "Warning", "#f59e0b"),
    ("info", "Info", "#3b82f6"),
    ("accent", "Accent", "#8b5cf6"),
    ("muted", "Muted", "#6b7280"),
    ("command", "Command", "#06b6d4")
  ]

  const FallbackColor := "#ffffff"

  /** `getColorPreview`: the first option with that value gives its colour; anything else shows white. */
  function ColorPreview(value: string): (r: string)
    ensures (forall i :: 0 <= i < |ColorOptions| ==> ColorOptions[i].0 != value) ==> r == FallbackColor
  {
    match FirstWhere(ColorOptions, (o: (string, string, string)) => o.0 == value)
    case Some(i) => if ColorOptions[i].2 == "" then FallbackColor else ColorOptions[i].2
    case None => FallbackColor
  }

  /** The position of each option, by the first letter of its value. */
  const ColorSlot: map<char, nat> := map['p' := 0, 's' := 1, 'e' := 2, 'w' := 3, 'i' := 4, 'a' := 5, 'm' := 6, 'c' := 7]

  /** The option values start with different letters, so no two are equal. */
  lemma ColorValuesDistinct()
    ensures forall i, j :: 0 <= i < j < |ColorOptions| ==> ColorOptions[i].0 != ColorOptions[j].0
  {
    assert forall i :: 0 <= i < |ColorOptions| ==>
      ColorOptions[i].0 != "" && ColorOptions[i].0[0] in ColorSlot && ColorSlot[ColorOptions[i].0[0]] == i;
  }

  /** Every option's value previews as that option's colour. */
  lemma ColorPreviewOfOption(i: nat)
    requires i < |ColorOptions|
    ensures ColorPreview(ColorOptions[i].0) == ColorOptions[i].2
  {
    ColorValuesDistinct();
    var value := ColorOptions[i].0;
    var k := FirstWhere(ColorOptions, (o: (string, string, string)) => o.0 == value);
    assert k == Some(i);
    ColorsAreHex();
  }

  lemma ColorsAreHex()
    ensures forall i :: 0 <= i < |ColorOptions| ==> |ColorOptions[i].2| == 7 && ColorOptions[i].2[0] == '#'
  {
  }

  /**
   * The editor's line state. Ids come from the clock (`now`), so the
   * never-empty guarantee of `removeLine` rests on the ids being distinct.
   */
  class LineEditor {
    var lines: seq<CustomLine>

    /** Opening the editor on `initial` (the empty list when none is given). */
    constructor (initial: seq<TerminalLine>)
      ensures lines == InitialLines(initial)
      ensures lines != [] && DistinctIds(lines)
    {
      lines := InitialLines(initial);
      InitialIdsDistinct(initial);
    }

    /** `addLine`. */
    method AddLine(now: nat)
      modifies this
      ensures lines == old(lines) + [BlankLine(now)]
    {
      lines := lines + [BlankLine(now)];
    }

    /** `removeLine`: refuses while only one row is left. */
    method RemoveLine(id: string)
      modifies this
      ensures |old(lines)| <= 1 ==> lines == old(lines)
      ensures |old(lines)| > 1 ==> lines == WithoutLine(old(lines), id)
      ensures old(lines) != [] && DistinctIds(old(lines)) ==> lines != []
    {
      if |lines| > 1 {
        if DistinctIds(lines) {
          WithoutLineDropsAtMostOne(lines, id);
        }
        lines := WithoutLine(lines, id);
      }
    }

    /** `updateLine`. */
    method UpdateLine(id: string, field: Field, value: string)
      modifies this
      ensures lines == UpdatedLines(old(lines), id, field, value)
    {
      lines := UpdatedLines(lines, id, field, value);
    }
  }
}
