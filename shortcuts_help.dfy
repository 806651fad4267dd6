/**
 * The keyboard-shortcut help panel's grouping: five fixed groups, each
 * collecting the shortcuts whose description mentions one of the group's
 * keywords (English or Chinese), in the original order; empty groups are
 * dropped and nothing is shown while the panel is hidden.
 */
module ShortcutsHelp {
  import opened Wrappers
  import opened Text
  import opened Lists
  import opened KeyboardShortcuts

  datatype GroupKind = TerminalGroup | LayoutGroup | ScreenshotGroup | DisplayGroup | AnimationGroup

  /** The groups in display order. */
  const GroupOrder: seq<GroupKind> := [TerminalGroup, LayoutGroup, ScreenshotGroup, DisplayGroup, AnimationGroup]

  /** A group's position in the display order. */
  function Rank(k: GroupKind): (r: nat)
    ensures r < |GroupOrder| && GroupOrder[r] == k
  {
    match k
    case TerminalGroup => 0
    case LayoutGroup => 1
    case ScreenshotGroup => 2
    case DisplayGroup => 3
    case AnimationGroup => 4
  }

  /** The words a description is searched for, per group (case-sensitive). */
  function Keywords(k: GroupKind): seq<string> {
    match k
    case TerminalGroup => ["terminal", "Terminal", "\U{7EC8}\U{7AEF}"]
    case LayoutGroup => ["arrange", "layout", "\U{6392}\U{5217}", "\U{5E03}\U{5C40}"]
    case ScreenshotGroup => ["screenshot", "Screenshot", "\U{622A}\U{56FE}"]
    case DisplayGroup => ["theme", "controls", "language", "\U{4E3B}\U{9898}", "\U{63A7}\U{5236}", "\U{8BED}\U{8A00}"]
    case AnimationGroup => ["animation", "pause", "speed", "\U{52A8}\U{753B}", "\U{6682}\U{505C}", "\U{901F}\U{5EA6}"]
  }

  /** The description mentions one of the group's keywords. */
  predicate InGroup(k: GroupKind, description: string) {
    exists i :: 0 <= i < |Keywords(k)| && Contains(description, Keywords(k)[i])
  }

  /** A titled group; the title is the translation of the group's kind. */
  datatype Group<A> = Group(kind: GroupKind, shortcuts: seq<Shortcut<A>>)

  /** One group's filter. */
  function Members<A(==)>(shortcuts: seq<Shortcut<A>>, k: GroupKind): seq<Shortcut<A>> {
    Filter(shortcuts, (s: Shortcut<A>) => InGroup(k, s.description))
  }

  /** All five groups, before empty ones are dropped. */
  function AllGroups<A(==)>(shortcuts: seq<Shortcut<A>>): (r: seq<Group<A>>)
    ensures |r| == |GroupOrder|
    ensures forall i :: 0 <= i < |r| ==> r[i] == Group(GroupOrder[i], Members(shortcuts, GroupOrder[i]))
  {
    seq(|GroupOrder|, i requires 0 <= i < |GroupOrder| => Group(GroupOrder[i], Members(shortcuts, GroupOrder[i])))
  }

  /** `groupedShortcuts`: nothing while hidden; otherwise the non-empty groups in display order. */
  function GroupedShortcuts<A(==)>(shortcuts: seq<Shortcut<A>>, isVisible: bool): (r: Option<seq<Group<A>>>)
    ensures r.None? <==> !isVisible
    ensures r.Some? ==> forall i :: 0 <= i < |r.value| ==> |r.value[i].shortcuts| > 0
  {
    if !isVisible then None
    else Some(Filter(AllGroups(shortcuts), (g: Group<A>) => |g.shortcuts| > 0))
  }

  /** Each shown group holds exactly the shortcuts whose description matches it, and every matching kind is shown. */
  lemma GroupContents<A>(shortcuts: seq<Shortcut<A>>, k: GroupKind, s: Shortcut<A>)
    ensures forall i :: 0 <= i < |GroupedShortcuts(shortcuts, true).value| ==>
      var g := GroupedShortcuts(shortcuts, true).value[i];
      g.kind == k ==> (s in g.shortcuts <==> s in shortcuts && InGroup(k, s.description))
    ensures s in shortcuts && InGroup(k, s.description) ==>
      exists i :: 0 <= i < |GroupedShortcuts(shortcuts, true).value| &&
        GroupedShortcuts(shortcuts, true).value[i] == Group(k, Members(shortcuts, k))
  {
    var all := AllGroups(shortcuts);
    var shown := GroupedShortcuts(shortcuts, true).value;
    forall i | 0 <= i < |shown| && shown[i].kind == k
      ensures s in shown[i].shortcuts <==> s in shortcuts && InGroup(k, s.description)
    {
      var j :| 0 <= j < |all| && all[j] == shown[i];
      MembersExactly(shortcuts, k, s);
    }
    if s in shortcuts && InGroup(k, s.description) {
      MembersExactly(shortcuts, k, s);
      var g := all[Rank(k)];
      assert g == Group(k, Members(shortcuts, k));
      assert |g.shortcuts| > 0;
      assert g in shown;
    }
  }

  /** A shortcut is in a group's filter exactly when it is listed and matches. */
  lemma MembersExactly<A>(shortcuts: seq<Shortcut<A>>, k: GroupKind, s: Shortcut<A>)
    ensures s in Members(shortcuts, k) <==> s in shortcuts && InGroup(k, s.description)
  {
    var m := Members(shortcuts, k);
    if s in m {
      var i :| 0 <= i < |m| && m[i] == s;
    }
    if s in shortcuts && InGroup(k, s.description) {
      var i :| 0 <= i < |shortcuts| && shortcuts[i] == s;
    }
  }

  /** The shown groups keep the fixed order terminal, layout, screenshot, display, animation. */
  lemma GroupsInOrder<A>(shortcuts: seq<Shortcut<A>>)
    ensures var shown := GroupedShortcuts(shortcuts, true).value;
      forall i, j :: 0 <= i < j < |shown| ==> Rank(shown[i].kind) < Rank(shown[j].kind)
  {
    var all := AllGroups(shortcuts);
    forall i, j | 0 <= i < j < |all|
      ensures Rank(all[i].kind) < Rank(all[j].kind)
    {
      assert all[i].kind == GroupOrder[i] && all[j].kind == GroupOrder[j];
    }
    FilterPairwise(all, (g: Group<A>) => |g.shortcuts| > 0, (a: Group<A>, b: Group<A>) => Rank(a.kind) < Rank(b.kind));
  }

  /** Within a group the shortcuts keep their list order: the filter distributes over concatenation. */
  lemma MembersKeepOrder<A>(a: seq<Shortcut<A>>, b: seq<Shortcut<A>>, k: GroupKind)
    ensures Members(a + b, k) == Members(a, k) + Members(b, k)
  {
    FilterConcat(a, b, (s: Shortcut<A>) => InGroup(k, s.description));
  }
}
