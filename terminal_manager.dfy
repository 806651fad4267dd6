/**
 * The terminal instance manager of the desktop page: the list of rendered
 * terminal windows, the logical terminal count, the z-index counter, the
 * id counter and the list of bouncing-cat ids, with the handlers that change
 * them. The browser supplies what the model takes as parameters: the start
 * position of each new window (`pos`), the clock reading used in cat ids
 * (`now`), and the viewport size (`innerWidth`, `innerHeight`).
 */
module TerminalManager {
  import opened Wrappers
  import opened Text
  import opened Lists
  import ControlsPanel

  /** A window position; `NaN` is what the grid arithmetic yields when not one full cell fits the viewport. */
  datatype Position = At(x: int, y: int) | NaN

  datatype Terminal = Terminal(id: string, position: Position, zIndex: int)

  /** Focus never raises a window above this, keeping the panel's layer (10001) on top. */
  const FocusZIndexCap: int := 9999
  /** At most this many cats, whatever the count. */
  const MaxCats: int := 1000

  // ---------------------------------------------------------------------
  // Identifiers
  // ---------------------------------------------------------------------

  function TerminalId(n: nat): string {
    "terminal-" + Decimal(n)
  }

  /** The number in a `terminal-<n>` id. */
  function ParseTerminalId(id: string): Option<nat> {
    if |id| >= 9 && id[..9] == "terminal-" then ParseDecimal(id[9..]) else None
  }

  lemma TerminalIdRoundTrip(n: nat)
    ensures ParseTerminalId(TerminalId(n)) == Some(n)
  {
    assert TerminalId(n)[9..] == Decimal(n);
    ParseDecimalRoundTrip(n);
  }

  function CatId(now: nat, i: nat): string {
    "cat-" + Decimal(now) + "-" + Decimal(i)
  }

  /** Every id is `terminal-<n>` with `n` below the id counter, and no two windows share an id. */
  ghost predicate IdsBelow(ts: seq<Terminal>, bound: nat) {
    && (forall i :: 0 <= i < |ts| ==> ParseTerminalId(ts[i].id).Some? && ParseTerminalId(ts[i].id).value < bound)
    && (forall i, j :: 0 <= i < j < |ts| ==> ts[i].id != ts[j].id)
  }

  // ---------------------------------------------------------------------
  // Changing the count
  // ---------------------------------------------------------------------

  /** The render cap, chosen by the count before the change. */
  function MaxRenderedTerminals(count: int): (cap: nat)
    ensures cap == 40 || cap == 80
    ensures cap == 40 <==> count > 1000
  {
    if count > 1000 then 40 else 80
  }

  /**
   * `s.slice(-cap)` when `s` is longer than `cap`: the newest `cap` entries.
   * The caps that occur are 40 and 80; JavaScript's `slice(-0)` would keep
   * everything, a case no caller reaches.
   */
  function KeepNewest<T>(s: seq<T>, cap: nat): (r: seq<T>)
    ensures |r| == if |s| < cap then |s| else cap
  {
    if |s| > cap then s[|s| - cap..] else s
  }

  /** What is kept is a suffix: the oldest entries go first. */
  lemma KeepNewestIsSuffix<T>(s: seq<T>, cap: nat)
    ensures KeepNewest(s, cap) == s[|s| - |KeepNewest(s, cap)|..]
  {
  }

  /** Trimming before or after appending one entry gives the same list. */
  lemma KeepNewestPush<T>(s: seq<T>, t: T, cap: nat)
    ensures KeepNewest(KeepNewest(s, cap) + [t], cap) == KeepNewest(s + [t], cap)
  {
    var k := KeepNewest(s, cap);
    if |s| > cap && cap > 0 {
      assert (k + [t])[1..] == (s + [t])[|s| + 1 - cap..];
    }
  }

  /** The `j`-th window a growth step creates (counting from 0). */
  function CreatedTerminal(z0: int, id0: nat, j: nat, pos: nat -> Position): Terminal {
    Terminal(TerminalId(id0 + j), pos(j), z0 + j + 1)
  }

  function Created(z0: int, id0: nat, k: nat, pos: nat -> Position): (r: seq<Terminal>)
    ensures |r| == k
  {
    seq(k, j requires 0 <= j < k => CreatedTerminal(z0, id0, j, pos))
  }

  /** The rendered list after `k` windows were created one by one, each followed by the trim to the cap. */
  function Grown(prev: seq<Terminal>, z0: int, id0: nat, k: nat, cap: nat, pos: nat -> Position): seq<Terminal> {
    if k == 0 then prev else KeepNewest(prev + Created(z0, id0, k, pos), cap)
  }

  /** The rendered list after the logical count moved from `oldCount` to `count`. */
  function Resized(prev: seq<Terminal>, oldCount: int, count: int, z0: int, id0: nat, pos: nat -> Position): seq<Terminal> {
    if count > oldCount then Grown(prev, z0, id0, count - oldCount, MaxRenderedTerminals(oldCount), pos)
    else if count < oldCount then prev[..if |prev| - (oldCount - count) < 0 then 0 else |prev| - (oldCount - count)]
    else prev
  }

  function Growth(oldCount: int, count: int): nat {
    if count > oldCount then count - oldCount else 0
  }

  /** The creation loop of a count increase: `k` new windows, each followed by the trim to the cap. */
  method CreateTerminals(prev: seq<Terminal>, z0: int, id0: nat, k: nat, cap: nat, pos: nat -> Position)
    returns (updated: seq<Terminal>)
    ensures updated == Grown(prev, z0, id0, k, cap, pos)
  {
    updated := prev;
    var newZ, newNextId := z0, id0;
    var i := 0;
    while i < k
      invariant 0 <= i <= k
      invariant newZ == z0 + i && newNextId == id0 + i
      invariant updated == Grown(prev, z0, id0, i, cap, pos)
    {
      newZ := newZ + 1;
      var t := Terminal(TerminalId(newNextId), pos(i), newZ);
      ghost var before := updated;
      updated := updated + [t];
      newNextId := newNextId + 1;
      if |updated| > cap {
        updated := updated[|updated| - cap..];
      }
      TrimStep(prev, z0, id0, i, cap, pos, before, updated);
      i := i + 1;
    }
  }

  /** The `setTerminals` updater of a count change, with the counters it advances. */
  method ResizeTerminals(prev: seq<Terminal>, oldCount: int, count: int, z0: int, id0: nat, pos: nat -> Position)
    returns (updated: seq<Terminal>, newZ: int, newNextId: nat)
    ensures updated == Resized(prev, oldCount, count, z0, id0, pos)
    ensures newZ == z0 + Growth(oldCount, count) && newNextId == id0 + Growth(oldCount, count)
    ensures count > oldCount ==> |updated| <= MaxRenderedTerminals(oldCount)
  {
    updated, newZ, newNextId := prev, z0, id0;
    if count > oldCount {
      var toAdd := count - oldCount;
      updated := CreateTerminals(prev, z0, id0, toAdd, MaxRenderedTerminals(oldCount), pos);
      newZ, newNextId := z0 + toAdd, id0 + toAdd;
    } else if count < oldCount {
      var toRemove := oldCount - count;
      updated := updated[..if |updated| - toRemove < 0 then 0 else |updated| - toRemove];
    }
  }

  /** The push and the trim of one loop iteration perform one `GrowStep`. */
  lemma TrimStep(prev: seq<Terminal>, z0: int, id0: nat, i: nat, cap: nat, pos: nat -> Position,
                 before: seq<Terminal>, after: seq<Terminal>)
    requires before == Grown(prev, z0, id0, i, cap, pos)
    requires var pushed := before + [CreatedTerminal(z0, id0, i, pos)];
      after == if |pushed| > cap then pushed[|pushed| - cap..] else pushed
    ensures after == Grown(prev, z0, id0, i + 1, cap, pos)
  {
    GrowStep(prev, z0, id0, i, cap, pos);
  }

  /** One more creation step: append the next window, then trim to the cap. */
  lemma GrowStep(prev: seq<Terminal>, z0: int, id0: nat, i: nat, cap: nat, pos: nat -> Position)
    ensures Grown(prev, z0, id0, i + 1, cap, pos)
      == KeepNewest(Grown(prev, z0, id0, i, cap, pos) + [CreatedTerminal(z0, id0, i, pos)], cap)
  {
    var t := CreatedTerminal(z0, id0, i, pos);
    assert Created(z0, id0, i + 1, pos) == Created(z0, id0, i, pos) + [t];
    assert prev + Created(z0, id0, i + 1, pos) == (prev + Created(z0, id0, i, pos)) + [t];
    if i == 0 {
      assert Created(z0, id0, 1, pos) == [t];
    } else {
      KeepNewestPush(prev + Created(z0, id0, i, pos), t, cap);
    }
  }

  /** Growing by `k > 0`: the rendered list is the newest windows of the old list followed by the created ones (the oldest are dropped first), within the cap. */
  lemma GrowthKeepsNewest(prev: seq<Terminal>, z0: int, id0: nat, k: nat, cap: nat, pos: nat -> Position)
    requires 0 < k
    ensures var r := Grown(prev, z0, id0, k, cap, pos);
      && |r| == (if |prev| + k < cap then |prev| + k else cap)
      && r == (prev + Created(z0, id0, k, pos))[|prev| + k - |r|..]
  {
    KeepNewestIsSuffix(prev + Created(z0, id0, k, pos), cap);
  }

  /** The created windows carry consecutive ids `terminal-<id0>`, `terminal-<id0+1>`, ... and consecutive z-indexes above `z0`, none of them an id already in use. */
  lemma CreatedAreFresh(prev: seq<Terminal>, z0: int, id0: nat, k: nat, pos: nat -> Position)
    requires IdsBelow(prev, id0)
    ensures forall j :: 0 <= j < k ==>
      Created(z0, id0, k, pos)[j].id == TerminalId(id0 + j) && Created(z0, id0, k, pos)[j].zIndex == z0 + j + 1
    ensures IdsBelow(prev + Created(z0, id0, k, pos), id0 + k)
  {
    var c := Created(z0, id0, k, pos);
    var all := prev + c;
    forall j | 0 <= j < k
      ensures ParseTerminalId(c[j].id) == Some(id0 + j)
    {
      TerminalIdRoundTrip(id0 + j);
    }
    forall a, b | 0 <= a < b < |all|
      ensures all[a].id != all[b].id
    {
      if b >= |prev| {
        assert ParseTerminalId(all[b].id) == Some(id0 + b - |prev|);
        if a >= |prev| {
          assert ParseTerminalId(all[a].id) == Some(id0 + a - |prev|);
        }
      }
    }
  }

  /** Growth keeps every id distinct and below the advanced id counter. */
  lemma GrowthKeepsIds(prev: seq<Terminal>, z0: int, id0: nat, k: nat, cap: nat, pos: nat -> Position)
    requires IdsBelow(prev, id0)
    ensures IdsBelow(Grown(prev, z0, id0, k, cap, pos), id0 + k)
  {
    if k > 0 {
      CreatedAreFresh(prev, z0, id0, k, pos);
      var all := prev + Created(z0, id0, k, pos);
      KeepNewestIsSuffix(all, cap);
      IdsBelowSuffix(all, |all| - |KeepNewest(all, cap)|, id0 + k);
    }
  }

  /** A count change keeps every id distinct and below the advanced id counter. */
  lemma ResizeKeepsIds(prev: seq<Terminal>, oldCount: int, count: int, z0: int, id0: nat, pos: nat -> Position)
    requires IdsBelow(prev, id0)
    ensures IdsBelow(Resized(prev, oldCount, count, z0, id0, pos), id0 + Growth(oldCount, count))
  {
    var r := Resized(prev, oldCount, count, z0, id0, pos);
    if count > oldCount {
      var k := count - oldCount;
      assert r == Grown(prev, z0, id0, k, MaxRenderedTerminals(oldCount), pos);
      GrowthKeepsIds(prev, z0, id0, k, MaxRenderedTerminals(oldCount), pos);
    } else {
      assert Growth(oldCount, count) == 0;
      var n := if count == oldCount || |prev| - (oldCount - count) < 0 then (if count == oldCount then |prev| else 0)
               else |prev| - (oldCount - count);
      assert r == prev[..n];
      IdsBelowPrefix(prev, n, id0);
    }
  }

  lemma IdsBelowPrefix(ts: seq<Terminal>, n: nat, bound: nat)
    requires IdsBelow(ts, bound) && n <= |ts|
    ensures IdsBelow(ts[..n], bound)
  {
    forall i | 0 <= i < n
      ensures ts[..n][i] == ts[i]
    {
    }
  }

  lemma IdsBelowSuffix(ts: seq<Terminal>, n: nat, bound: nat)
    requires IdsBelow(ts, bound) && n <= |ts|
    ensures IdsBelow(ts[n..], bound)
  {
    forall i | 0 <= i < |ts| - n
      ensures ts[n..][i] == ts[n + i]
    {
    }
  }

  /** Shrinking keeps a prefix: `old − new` windows go from the end of the rendered list, which may already be shorter than the count. */
  lemma ShrinkKeepsPrefix(prev: seq<Terminal>, oldCount: int, count: int, z0: int, id0: nat, pos: nat -> Position)
    requires count < oldCount
    ensures var r := Resized(prev, oldCount, count, z0, id0, pos);
      && |r| == (if |prev| < oldCount - count then 0 else |prev| - (oldCount - count))
      && r == prev[..|r|]
  {
  }

  // ---------------------------------------------------------------------
  // Cats
  // ---------------------------------------------------------------------

  /** `Math.min(Math.floor(count / 5), 1000)`. */
  function CatTarget(count: int): int {
    var perFive := count / 5;
    if perFive < MaxCats then perFive else MaxCats
  }

  /** `s.slice(0, end)`: a negative end counts from the back. */
  function SliceTo<T>(s: seq<T>, end: int): (r: seq<T>)
    ensures r <= s
    ensures 0 <= end ==> |r| == if end < |s| then end else |s|
  {
    if 0 <= end then s[..if end < |s| then end else |s|]
    else s[..if |s| + end < 0 then 0 else |s| + end]
  }

  function CatsForCount(prev: seq<string>, count: int, now: nat): seq<string> {
    var target := CatTarget(count);
    if target > |prev| then prev + seq(target - |prev|, j requires 0 <= j < target - |prev| => CatId(now, |prev| + j))
    else if target < |prev| then SliceTo(prev, target)
    else prev
  }

  /** The `setCats` updater of a count change. */
  method ResizeCats(prev: seq<string>, count: int, now: nat) returns (cats: seq<string>)
    ensures cats == CatsForCount(prev, count, now)
    ensures 0 <= count ==> |cats| == CatTarget(count)
    ensures cats <= prev || prev <= cats
  {
    var target := CatTarget(count);
    if target > |prev| {
      cats := prev;
      var i := |prev|;
      while i < target
        invariant |prev| <= i <= target
        invariant cats == prev + seq(i - |prev|, j requires 0 <= j < i - |prev| => CatId(now, |prev| + j))
      {
        cats := cats + [CatId(now, i)];
        i := i + 1;
      }
    } else if target < |prev| {
      cats := SliceTo(prev, target);
    } else {
      cats := prev;
    }
  }

  // ---------------------------------------------------------------------
  // Close, focus, move
  // ---------------------------------------------------------------------

  function CountAfterClose(count: int): (r: int)
    ensures r >= 1
    ensures count > 1 ==> r == count - 1
    ensures count <= 1 ==> r == 1
  {
    if count - 1 > 1 then count - 1 else 1
  }

  function Closed(ts: seq<Terminal>, id: string): seq<Terminal> {
    Filter(ts, (t: Terminal) => t.id != id)
  }

  /** Close removes exactly the windows with that id and keeps the rest in order; with distinct ids that is at most one. */
  lemma {:induction false} CloseRemovesOnly(ts: seq<Terminal>, id: string)
    requires forall i, j :: 0 <= i < j < |ts| ==> ts[i].id != ts[j].id
    ensures forall i :: 0 <= i < |Closed(ts, id)| ==> Closed(ts, id)[i].id != id
    ensures forall i :: 0 <= i < |ts| && ts[i].id != id ==> ts[i] in Closed(ts, id)
    ensures |Closed(ts, id)| == |ts| - (if exists i :: 0 <= i < |ts| && ts[i].id == id then 1 else 0)
    decreases |ts|
  {
    if ts != [] {
      CloseRemovesOnly(ts[1..], id);
      if ts[0].id == id {
        assert !exists i :: 0 <= i < |ts[1..]| && ts[1..][i].id == id;
      } else {
        assert (exists i :: 0 <= i < |ts| && ts[i].id == id) == (exists i :: 0 <= i < |ts[1..]| && ts[1..][i].id == id) by {
          if i :| 0 <= i < |ts| && ts[i].id == id {
            assert ts[1..][i - 1].id == id;
          }
        }
      }
    }
  }

  /** Closing keeps the id invariant. */
  lemma CloseKeepsIds(ts: seq<Terminal>, id: string, bound: nat)
    requires IdsBelow(ts, bound)
    ensures IdsBelow(Closed(ts, id), bound)
  {
    FilterPairwise(ts, (t: Terminal) => t.id != id, (a: Terminal, b: Terminal) => a.id != b.id);
  }

  /** The z-index a focused window receives, capped so it never passes 9999. */
  function FocusZIndex(highest: int): (z: int)
    ensures z <= FocusZIndexCap
    ensures highest < FocusZIndexCap ==> z == highest + 1
    ensures highest >= FocusZIndexCap ==> z == FocusZIndexCap
  {
    if highest + 1 < FocusZIndexCap then highest + 1 else FocusZIndexCap
  }

  /** Only the windows with the given id take the new z-index; length, order, ids and positions stay. */
  function Focused(ts: seq<Terminal>, id: string, z: int): (r: seq<Terminal>)
    ensures |r| == |ts|
    ensures forall i :: 0 <= i < |ts| ==> r[i].id == ts[i].id && r[i].position == ts[i].position
    ensures forall i :: 0 <= i < |ts| ==> r[i].zIndex == if ts[i].id == id then z else ts[i].zIndex
  {
    seq(|ts|, i requires 0 <= i < |ts| => if ts[i].id == id then ts[i].(zIndex := z) else ts[i])
  }

  /** Only the windows with the given id take the new position; length, order, ids and z-indexes stay. */
  function Moved(ts: seq<Terminal>, id: string, p: Position): (r: seq<Terminal>)
    ensures |r| == |ts|
    ensures forall i :: 0 <= i < |ts| ==> r[i].id == ts[i].id && r[i].zIndex == ts[i].zIndex
    ensures forall i :: 0 <= i < |ts| ==> r[i].position == if ts[i].id == id then p else ts[i].position
  {
    seq(|ts|, i requires 0 <= i < |ts| => if ts[i].id == id then ts[i].(position := p) else ts[i])
  }

  // ---------------------------------------------------------------------
  // Arrange
  // ---------------------------------------------------------------------

  const TerminalWidth: int := 320
  const TerminalHeight: int := 280
  const GridPadding: int := 20
  const LayerOffset: int := 15

  /** `Math.floor(a / b)`. */
  function FloorDiv(a: int, b: int): int
    requires b != 0
  {
    if b > 0 then a / b else (-a) / (-b)
  }

  /** JavaScript's `a % b`: the remainder takes the sign of `a`. */
  function JsRem(a: int, b: int): int
    requires b != 0
  {
    var m := (if a < 0 then -a else a) % (if b < 0 then -b else b);
    if a < 0 then -m else m
  }

  function TerminalsPerRow(innerWidth: int): int {
    FloorDiv(innerWidth - 200, TerminalWidth)
  }

  function MaxRows(innerHeight: int): int {
    FloorDiv(innerHeight - 100, TerminalHeight)
  }

  /** Where the window at `index` goes: checkerboard rows, pages of `perRow * maxRows` windows shifted by 15 per layer. */
  function GridPosition(index: nat, perRow: int, maxRows: int): Position {
    if perRow == 0 || maxRows == 0 then NaN  // a division by a zero cell count
    else
      var perLayer := perRow * maxRows;
      var layer := FloorDiv(index, perLayer);
      var inLayer := JsRem(index, perLayer);
      var row := FloorDiv(inLayer, perRow);
      var col := JsRem(inLayer, perRow);
      var offsetX := JsRem(row, 2) * (TerminalWidth / 2);
      At(col * TerminalWidth + GridPadding + offsetX + layer * LayerOffset + 150,
         row * TerminalHeight + GridPadding + layer * LayerOffset + 50)
  }

  function Arranged(ts: seq<Terminal>, innerWidth: int, innerHeight: int): (r: seq<Terminal>)
    ensures |r| == |ts|
    ensures forall i :: 0 <= i < |ts| ==> r[i].id == ts[i].id && r[i].zIndex == ts[i].zIndex
    ensures forall i :: 0 <= i < |ts| ==> r[i].position == GridPosition(i, TerminalsPerRow(innerWidth), MaxRows(innerHeight))
  {
    seq(|ts|, i requires 0 <= i < |ts| =>
      ts[i].(position := GridPosition(i, TerminalsPerRow(innerWidth), MaxRows(innerHeight))))
  }

  /** Arranging twice with the same viewport gives the same list as arranging once. */
  lemma ArrangeIdempotent(ts: seq<Terminal>, innerWidth: int, innerHeight: int)
    ensures Arranged(Arranged(ts, innerWidth, innerHeight), innerWidth, innerHeight) == Arranged(ts, innerWidth, innerHeight)
  {
  }

  /** The (layer, row, column) cell of `index` when at least one full cell fits. */
  function Cell(index: nat, perRow: nat, maxRows: nat): (c: (nat, nat, nat))
    requires 1 <= perRow && 1 <= maxRows
    ensures c.1 < maxRows && c.2 < perRow
    ensures index == c.0 * (perRow * maxRows) + c.1 * perRow + c.2
  {
    var perLayer := perRow * maxRows;
    var inLayer := index % perLayer;
    assert inLayer / perRow < maxRows by {
      DivBelow(inLayer, perRow, maxRows);
    }
    (index / perLayer, inLayer / perRow, inLayer % perRow)
  }

  lemma DivBelow(a: nat, b: nat, m: nat)
    requires 1 <= b && a < b * m
    ensures a / b < m
  {
  }

  /** With a viewport of at least one cell, the position is the cell's: x = 170 + 320·col + 160·(row mod 2) + 15·layer, y = 70 + 280·row + 15·layer. */
  lemma GridPositionOfCell(index: nat, perRow: nat, maxRows: nat)
    requires 1 <= perRow && 1 <= maxRows
    ensures var c := Cell(index, perRow, maxRows);
      GridPosition(index, perRow, maxRows)
        == At(170 + 320 * c.2 + 160 * (c.1 % 2) + 15 * c.0, 70 + 280 * c.1 + 15 * c.0)
  {
  }

  /** Two windows in the same layer get different cells, and so different positions; all positions lie right of 170 and below 70. */
  lemma ArrangeSpreadsLayer(i: nat, j: nat, perRow: nat, maxRows: nat)
    requires 1 <= perRow && 1 <= maxRows && i != j
    requires Cell(i, perRow, maxRows).0 == Cell(j, perRow, maxRows).0
    ensures Cell(i, perRow, maxRows) != Cell(j, perRow, maxRows)
    ensures GridPosition(i, perRow, maxRows) != GridPosition(j, perRow, maxRows)
    ensures GridPosition(i, perRow, maxRows).x >= 170 && GridPosition(i, perRow, maxRows).y >= 70
  {
    GridPositionOfCell(i, perRow, maxRows);
    GridPositionOfCell(j, perRow, maxRows);
  }

  // ---------------------------------------------------------------------
  // Keyboard-shortcut count requests and toggles
  // ---------------------------------------------------------------------

  datatype CountShortcut = NewTerminal | AddTerminal | RemoveTerminal | AddTenTerminals | RemoveTenTerminals

  /** The count the shortcut actions ask for; only the lower end is guarded. */
  function ShortcutCount(action: CountShortcut, count: int): (r: int)
    ensures action == RemoveTerminal || action == RemoveTenTerminals ==> r >= 1
    ensures action.RemoveTerminal? ==> r >= count - 1 && (r == 1 || r == count - 1)
    ensures action.RemoveTenTerminals? ==> r >= count - 10 && (r == 1 || r == count - 10)
    ensures action.NewTerminal? || action.AddTerminal? ==> r == count + 1
    ensures action.AddTenTerminals? ==> r == count + 10
  {
    match action
    case NewTerminal => count + 1
    case AddTerminal => count + 1
    case RemoveTerminal => if count - 1 > 1 then count - 1 else 1
    case AddTenTerminals => count + 10
    case RemoveTenTerminals => if count - 10 > 1 then count - 10 else 1
  }

  /** At the panel's maximum the panel's `+10` does nothing, yet the `+10` shortcut still asks for 10010. */
  lemma ShortcutsPassPanelMaximum()
    ensures ControlsPanel.IncrementByTen(ControlsPanel.DefaultMaxTerminals, ControlsPanel.DefaultMaxTerminals).None?
    ensures ShortcutCount(AddTenTerminals, ControlsPanel.DefaultMaxTerminals) == 10010
  {
  }

  /** The language shortcut: `en` goes to `zh`, anything else to `en`. */
  function ToggledLanguage(lang: string): (r: string)
    ensures r == "en" || r == "zh"
    ensures r == "zh" <==> lang == "en"
  {
    if lang == "en" then "zh" else "en"
  }

  // ---------------------------------------------------------------------
  // The desktop state
  // ---------------------------------------------------------------------

  class Desktop {
    var terminals: seq<Terminal>
    var actualTerminalCount: int
    var highestZIndex: int
    var nextTerminalId: nat
    var cats: seq<string>

    ghost predicate Valid()
      reads this
    {
      IdsBelow(terminals, nextTerminalId)
    }

    /** The first render: one window `terminal-0` at z-index 1 and no cats. */
    constructor (start: Position)
      ensures Valid()
      ensures terminals == [Terminal(TerminalId(0), start, 1)]
      ensures actualTerminalCount == 1 && highestZIndex == 1 && nextTerminalId == 1 && cats == []
    {
      terminals := [Terminal(TerminalId(0), start, 1)];
      actualTerminalCount := 1;
      highestZIndex := 1;
      nextTerminalId := 1;
      cats := [];
      TerminalIdRoundTrip(0);
    }

    /** `handleTerminalCountChange(count)`: no clamping here; callers decide the range. */
    method TerminalCountChange(count: int, pos: nat -> Position, now: nat)
      requires Valid()
      modifies this
      ensures Valid()
      ensures actualTerminalCount == count
      ensures terminals == Resized(old(terminals), old(actualTerminalCount), count, old(highestZIndex), old(nextTerminalId), pos)
      ensures highestZIndex == old(highestZIndex) + Growth(old(actualTerminalCount), count)
      ensures nextTerminalId == old(nextTerminalId) + Growth(old(actualTerminalCount), count)
      ensures cats == CatsForCount(old(cats), count, now)
    {
      var updated, newZ, newNextId := ResizeTerminals(terminals, actualTerminalCount, count, highestZIndex, nextTerminalId, pos);
      ResizeKeepsIds(terminals, actualTerminalCount, count, highestZIndex, nextTerminalId, pos);
      var newCats := ResizeCats(cats, count, now);
      actualTerminalCount := count;
      terminals, highestZIndex, nextTerminalId := updated, newZ, newNextId;
      cats := newCats;
    }

    /** `handleTerminalClose(id)`: the count never drops below 1, though the last window can go. */
    method TerminalClose(id: string)
      requires Valid()
      modifies this
      ensures Valid()
      ensures actualTerminalCount == CountAfterClose(old(actualTerminalCount))
      ensures terminals == Closed(old(terminals), id)
      ensures cats == SliceTo(old(cats), CatTarget(actualTerminalCount))
      ensures |cats| <= |old(cats)|
      ensures highestZIndex == old(highestZIndex) && nextTerminalId == old(nextTerminalId)
    {
      actualTerminalCount := CountAfterClose(actualTerminalCount);
      CloseKeepsIds(terminals, id, nextTerminalId);
      terminals := Closed(terminals, id);
      cats := SliceTo(cats, CatTarget(actualTerminalCount));
    }

    method RemoveAllCats()
      modifies this
      ensures cats == []
      ensures terminals == old(terminals) && actualTerminalCount == old(actualTerminalCount)
      ensures highestZIndex == old(highestZIndex) && nextTerminalId == old(nextTerminalId)
    {
      cats := [];
    }

    method PositionChange(id: string, p: Position)
      requires Valid()
      modifies this
      ensures Valid()
      ensures terminals == Moved(old(terminals), id, p)
      ensures actualTerminalCount == old(actualTerminalCount) && cats == old(cats)
      ensures highestZIndex == old(highestZIndex) && nextTerminalId == old(nextTerminalId)
    {
      terminals := Moved(terminals, id, p);
    }

    method Focus(id: string)
      requires Valid()
      modifies this
      ensures Valid()
      ensures highestZIndex == FocusZIndex(old(highestZIndex))
      ensures terminals == Focused(old(terminals), id, highestZIndex)
      ensures actualTerminalCount == old(actualTerminalCount) && cats == old(cats)
      ensures nextTerminalId == old(nextTerminalId)
    {
      var z := FocusZIndex(highestZIndex);
      highestZIndex := z;
      terminals := Focused(terminals, id, z);
    }

    method ArrangeTerminals(innerWidth: int, innerHeight: int)
      requires Valid()
      modifies this
      ensures Valid()
      ensures terminals == Arranged(old(terminals), innerWidth, innerHeight)
      ensures actualTerminalCount == old(actualTerminalCount) && cats == old(cats)
      ensures highestZIndex == old(highestZIndex) && nextTerminalId == old(nextTerminalId)
    {
      terminals := Arranged(terminals, innerWidth, innerHeight);
    }
  }

  /** Closing the only window keeps the count at 1 but leaves nothing rendered. */
  lemma CloseLastWindow(t: Terminal)
    ensures CountAfterClose(1) == 1
    ensures Closed([t], t.id) == []
  {
  }
}
