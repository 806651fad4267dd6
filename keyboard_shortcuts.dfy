/**
 * Keyboard shortcut dispatch and display. A key press runs the action of
 * the first registered shortcut whose key matches case-insensitively and
 * whose four modifier flags (a missing flag reads as false) equal the
 * event's; nothing runs when the hook is disabled or the press happened in
 * a text field. The formatter spells a binding as `Ctrl + Alt + Shift +
 * Cmd + <key>` with only the flags that are set.
 */
module KeyboardShortcuts {
  import opened Wrappers
  import opened Text
  import opened Lists

  /** Key and modifier part of a shortcut (the shape of a `CommonShortcuts` entry). */
  datatype Binding = Binding(
    key: string,
    ctrlKey: Option<bool>,
    altKey: Option<bool>,
    shiftKey: Option<bool>,
    metaKey: Option<bool>)

  /** A registered shortcut; the action callback is the opaque value `action`. */
  datatype Shortcut<A> = Shortcut(binding: Binding, action: A, description: string, preventDefault: Option<bool>)

  /** The element a key press came from. */
  datatype Target = Target(tagName: string, contentEditable: string)

  datatype KeyEvent = KeyEvent(key: string, ctrlKey: bool, altKey: bool, shiftKey: bool, metaKey: bool, target: Target)

  /** What the handler does with one event. */
  datatype Dispatch<A> = Ignored | NoMatch | Run(index: nat, action: A, preventDefault: bool)

  /** `flag || false`. */
  function Flag(b: Option<bool>): bool {
    b == Some(true)
  }

  /** Presses inside inputs, text areas and editable elements are left alone. */
  predicate IsTextEntry(t: Target) {
    t.tagName == "INPUT" || t.tagName == "TEXTAREA" || t.contentEditable == "true"
  }

  /** The key and flags a binding matches, normalised: key lower-cased, missing flags false. */
  function Combo(b: Binding): (string, bool, bool, bool, bool) {
    (Lower(b.key), Flag(b.ctrlKey), Flag(b.altKey), Flag(b.shiftKey), Flag(b.metaKey))
  }

  function EventCombo(e: KeyEvent): (string, bool, bool, bool, bool) {
    (Lower(e.key), e.ctrlKey, e.altKey, e.shiftKey, e.metaKey)
  }

  predicate Matches(b: Binding, e: KeyEvent) {
    && Lower(b.key) == Lower(e.key)
    && Flag(b.ctrlKey) == e.ctrlKey
    && Flag(b.altKey) == e.altKey
    && Flag(b.shiftKey) == e.shiftKey
    && Flag(b.metaKey) == e.metaKey
  }

  /** A binding matches an event exactly when their normalised combinations are equal. */
  lemma MatchesIsComboEquality(b: Binding, e: KeyEvent)
    ensures Matches(b, e) <==> Combo(b) == EventCombo(e)
  {
  }

  /** The key-down handler: at most one action runs, the first match in list order. */
  function HandleKeyDown<A>(shortcuts: seq<Shortcut<A>>, enabled: bool, e: KeyEvent): (r: Dispatch<A>)
    ensures r.Ignored? <==> !enabled || IsTextEntry(e.target)
    ensures r.NoMatch? <==>
      enabled && !IsTextEntry(e.target) && forall i :: 0 <= i < |shortcuts| ==> !Matches(shortcuts[i].binding, e)
    ensures r.Run? ==> r.index < |shortcuts| && Matches(shortcuts[r.index].binding, e)
    ensures r.Run? ==> forall i :: 0 <= i < r.index ==> !Matches(shortcuts[i].binding, e)
    ensures r.Run? ==> r.action == shortcuts[r.index].action
    ensures r.Run? ==> (r.preventDefault <==> shortcuts[r.index].preventDefault != Some(false))
  {
    if !enabled || IsTextEntry(e.target) then Ignored
    else match FirstWhere(shortcuts, (s: Shortcut<A>) => Matches(s.binding, e))
      case None => NoMatch
      case Some(i) => Run(i, shortcuts[i].action, shortcuts[i].preventDefault != Some(false))
  }

  // ---------------------------------------------------------------------
  // Display
  // ---------------------------------------------------------------------

  /** The fixed display names of special keys. */
  const KeyMap: map<string, string> := map[
    " " := "Space",
    "ArrowUp" := "\U{2191}",
    "ArrowDown" := "\U{2193}",
    "ArrowLeft" := "\U{2190}",
    "ArrowRight" := "\U{2192}",
    "Enter" := "Enter",
    "Escape" := "Esc",
    "Backspace" := "Backspace",
    "Delete" := "Del",
    "Tab" := "Tab"
  ]

  /** The table's name for a special key, otherwise the key upper-cased. */
  function KeyName(key: string): string {
    if key in KeyMap then KeyMap[key] else Upper(key)
  }

  /** A one-element list when `present`, else the empty list. */
  function Opt(present: bool, name: string): seq<string> {
    if present then [name] else []
  }

  /** `name + sep` when `present`, else the empty string. */
  function OptText(present: bool, name: string, sep: string): string {
    if present then name + sep else ""
  }

  /** The special keys display through the table. */
  lemma KeyNameTable()
    ensures KeyName(" ") == "Space" && KeyName("Escape") == "Esc" && KeyName("Delete") == "Del"
    ensures KeyName("ArrowUp") == "\U{2191}" && KeyName("ArrowDown") == "\U{2193}"
    ensures KeyName("ArrowLeft") == "\U{2190}" && KeyName("ArrowRight") == "\U{2192}"
  {
  }

  /** Any other key is upper-cased: a lower-case letter shows as its capital. */
  lemma KeyNameOfLetter(c: char)
    requires 'a' <= c <= 'z'
    ensures KeyName([c]) == [(c as int - 32) as char]
  {
    KeyMapKeys();
    assert [c] !in KeyMap;
    assert Upper([c]) == [UpperChar(c)];
  }

  /** The only one-character key of the table is the space bar. */
  lemma KeyMapKeys()
    ensures forall k :: k in KeyMap ==> k == " " || |k| > 1
  {
  }

  /** The modifier names in display order. */
  function ModifierNames(b: Binding): seq<string> {
    Opt(Flag(b.ctrlKey), "Ctrl")
    + (Opt(Flag(b.altKey), "Alt")
    + (Opt(Flag(b.shiftKey), "Shift")
    + Opt(Flag(b.metaKey), "Cmd")))
  }

  /** Every set modifier followed by ` + `, in the order Ctrl, Alt, Shift, Cmd. */
  function ModifierPrefix(b: Binding): string {
    OptText(Flag(b.ctrlKey), "Ctrl", " + ")
    + (OptText(Flag(b.altKey), "Alt", " + ")
    + (OptText(Flag(b.shiftKey), "Shift", " + ")
    + OptText(Flag(b.metaKey), "Cmd", " + ")))
  }

  /** Each element followed by the separator. */
  function Terminated(parts: seq<string>, sep: string): string {
    if parts == [] then "" else parts[0] + sep + Terminated(parts[1..], sep)
  }

  /** Joining a list whose last element is `last` puts the separator after every earlier element. */
  lemma {:induction false} JoinLast(parts: seq<string>, last: string, sep: string)
    ensures Join(parts + [last], sep) == Terminated(parts, sep) + last
    decreases |parts|
  {
    if parts != [] {
      assert (parts + [last])[1..] == parts[1..] + [last];
      JoinLast(parts[1..], last, sep);
    }
  }

  lemma ModifierPrefixIsTerminated(b: Binding)
    ensures Terminated(ModifierNames(b), " + ") == ModifierPrefix(b)
  {
    var m := Opt(Flag(b.metaKey), "Cmd");
    TerminatedOpt(Flag(b.metaKey), "Cmd", " + ");
    PrefixStep(Flag(b.shiftKey), "Shift", m, OptText(Flag(b.metaKey), "Cmd", " + "));
    var s := Opt(Flag(b.shiftKey), "Shift") + m;
    PrefixStep(Flag(b.altKey), "Alt", s, Terminated(s, " + "));
    var a := Opt(Flag(b.altKey), "Alt") + s;
    PrefixStep(Flag(b.ctrlKey), "Ctrl", a, Terminated(a, " + "));
  }

  /** Putting an optional name in front of a list puts its terminated form in front of the text. */
  lemma PrefixStep(present: bool, name: string, rest: seq<string>, text: string)
    requires Terminated(rest, " + ") == text
    ensures Terminated(Opt(present, name) + rest, " + ") == OptText(present, name, " + ") + text
  {
    TerminatedOpt(present, name, " + ");
    TerminatedConcat(Opt(present, name), rest, " + ");
  }

  lemma TerminatedOpt(present: bool, name: string, sep: string)
    ensures Terminated(Opt(present, name), sep) == OptText(present, name, sep)
  {
    if present {
      assert [name][1..] == [];
    }
  }

  lemma {:induction false} TerminatedConcat(x: seq<string>, y: seq<string>, sep: string)
    ensures Terminated(x + y, sep) == Terminated(x, sep) + Terminated(y, sep)
    decreases |x|
  {
    if x == [] {
      assert x + y == y;
    } else {
      assert (x + y)[0] == x[0] && (x + y)[1..] == x[1..] + y;
      TerminatedConcat(x[1..], y, sep);
    }
  }

  /** `formatShortcutKey`: the set modifiers in the order Ctrl, Alt, Shift, Cmd, then the key name, joined by ` + `. */
  function FormatShortcutKey(b: Binding): (r: string)
    ensures r == ModifierPrefix(b) + KeyName(b.key)
  {
    JoinLast(ModifierNames(b), KeyName(b.key), " + ");
    ModifierPrefixIsTerminated(b);
    Join(ModifierNames(b) + [KeyName(b.key)], " + ")
  }

  // ---------------------------------------------------------------------
  // The predefined bindings
  // ---------------------------------------------------------------------

  function Key(k: string): Binding {
    Binding(k, None, None, None, None)
  }

  function Ctrl(k: string): Binding {
    Binding(k, Some(true), None, None, None)
  }

  function ShiftKey(k: string): Binding {
    Binding(k, None, None, Some(true), None)
  }

  /** `CommonShortcuts`, by name. */
  const CommonShortcuts: seq<(string, Binding)> := [
    ("NEW_TERMINAL", Ctrl("n")),
    ("CLOSE_TERMINAL", Ctrl("w")),
    ("DUPLICATE_TERMINAL", Ctrl("d")),
    ("ARRANGE_TERMINALS", Ctrl("g")),
    ("TOGGLE_LAYOUT", Ctrl("l")),
    ("TOGGLE_THEME", Ctrl("t")),
    ("TOGGLE_CONTROLS", Ctrl("h")),
    ("SCREENSHOT_ALL", Ctrl("s")),
    ("SCREENSHOT_TERMINAL", Binding("s", Some(true), None, Some(true), None)),
    ("PAUSE_ANIMATION", Key(" ")),
    ("SPEED_UP", Key("ArrowUp")),
    ("SPEED_DOWN", Key("ArrowDown")),
    ("ADD_TERMINAL", Key("=")),
    ("REMOVE_TERMINAL", Key("-")),
    ("ADD_TEN_TERMINALS", ShiftKey("=")),
    ("REMOVE_TEN_TERMINALS", ShiftKey("-")),
    ("TOGGLE_LANGUAGE", Ctrl("i")),
    ("SHOW_HELP", ShiftKey("?"))
  ]

  /**
   * A cheap summary of a combination as one number: the key's lower-cased
   * last character, its length and the four flags.
   */
  function Fingerprint(b: Binding): int {
    (if b.key == [] then 0 else LowerChar(b.key[|b.key| - 1]) as int) * 1024 + |b.key| * 16
    + (if Flag(b.ctrlKey) then 8 else 0) + (if Flag(b.altKey) then 4 else 0)
    + (if Flag(b.shiftKey) then 2 else 0) + (if Flag(b.metaKey) then 1 else 0)
  }

  /** The fingerprints of the predefined bindings, in table order. */
  const CommonFingerprints: seq<int> := [112664, 121880, 102424, 105496, 110616, 118808, 106520, 117784, 117786, 32784, 114800, 112784, 62480, 46096, 62482, 46098, 107544, 64530]

  /** The table position of each fingerprint; a fingerprint with one position occurs once. */
  const FingerprintSlot: map<int, nat> := map[112664 := 0, 121880 := 1, 102424 := 2, 105496 := 3, 110616 := 4, 118808 := 5, 106520 := 6, 117784 := 7, 117786 := 8, 32784 := 9, 114800 := 10, 112784 := 11, 62480 := 12, 46096 := 13, 62482 := 14, 46098 := 15, 107544 := 16, 64530 := 17]

  /** Equal combinations have equal fingerprints. */
  lemma FingerprintOfCombo(a: Binding, b: Binding)
    ensures Fingerprint(a) != Fingerprint(b) ==> Combo(a) != Combo(b)
  {
    if a.key != [] && Lower(a.key) == Lower(b.key) {
      assert Lower(a.key)[|a.key| - 1] == Lower(b.key)[|b.key| - 1];
    }
  }

  lemma CtrlRowFingerprints()
    ensures forall i :: 0 <= i < 9 ==> Fingerprint(CommonShortcuts[i].1) == CommonFingerprints[i]
  {
  }

  lemma PlainRowFingerprints()
    ensures forall i :: 9 <= i < |CommonShortcuts| ==> Fingerprint(CommonShortcuts[i].1) == CommonFingerprints[i]
  {
  }

  lemma FingerprintSlots()
    ensures forall i :: 0 <= i < |CommonFingerprints| ==>
      CommonFingerprints[i] in FingerprintSlot && FingerprintSlot[CommonFingerprints[i]] == i
  {
  }

  /** No two predefined bindings react to the same key press. */
  lemma CommonShortcutsDistinct()
    ensures forall i, j :: 0 <= i < j < |CommonShortcuts| ==> Combo(CommonShortcuts[i].1) != Combo(CommonShortcuts[j].1)
  {
    CtrlRowFingerprints();
    PlainRowFingerprints();
    FingerprintSlots();
    forall i, j | 0 <= i < j < |CommonShortcuts|
      ensures Combo(CommonShortcuts[i].1) != Combo(CommonShortcuts[j].1)
    {
      assert FingerprintSlot[CommonFingerprints[i]] == i && FingerprintSlot[CommonFingerprints[j]] == j;
      FingerprintOfCombo(CommonShortcuts[i].1, CommonShortcuts[j].1);
    }
  }

  /** So, whatever the press, at most one predefined binding matches it. */
  lemma AtMostOneCommonMatch(e: KeyEvent, i: nat, j: nat)
    requires i < j < |CommonShortcuts|
    ensures !(Matches(CommonShortcuts[i].1, e) && Matches(CommonShortcuts[j].1, e))
  {
    CommonShortcutsDistinct();
    MatchesIsComboEquality(CommonShortcuts[i].1, e);
    MatchesIsComboEquality(CommonShortcuts[j].1, e);
  }

  /** The full-screen screenshot binding displays as `Ctrl + S`. */
  lemma ScreenshotAllDisplay()
    ensures FormatShortcutKey(CommonShortcuts[7].1) == "Ctrl + S"
  {
    var b := CommonShortcuts[7].1;
    assert b == Ctrl("s");
    assert KeyName("s") == "S";
    assert ModifierPrefix(b) == "Ctrl + ";
  }

  /** The single-terminal screenshot binding adds Shift: `Ctrl + Shift + S`. */
  lemma ScreenshotTerminalDisplay()
    ensures FormatShortcutKey(CommonShortcuts[8].1) == "Ctrl + Shift + S"
  {
    var b := CommonShortcuts[8].1;
    assert b == Binding("s", Some(true), None, Some(true), None);
    assert KeyName("s") == "S";
    assert ModifierPrefix(b) == "Ctrl + Shift + ";
  }

  /** The pause binding is the space bar, shown by its table name. */
  lemma PauseDisplay()
    ensures FormatShortcutKey(CommonShortcuts[9].1) == "Space"
  {
    var b := CommonShortcuts[9].1;
    assert b == Key(" ");
    assert KeyName(" ") == "Space";
    assert ModifierPrefix(b) == "";
  }
}
