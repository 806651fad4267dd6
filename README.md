# MultiTerminalCodeViz — a verified model of the desktop's state logic

MultiTerminalCodeViz is a decorative React page that fills the screen with
fake terminal windows typing out canned transcripts. This project models in
Dafny the parts of it that hold sequential list-and-integer logic, and proves
what they promise:

- **Terminal instance manager** (`TerminalManager`, from `src/App.tsx`): the
  class `Desktop` holds the rendered windows, the logical terminal count, the
  z-index and id counters and the cat ids. It has one method per handler:
  count change (with the render cap that evicts the oldest windows), close,
  focus, move, arrange, and removing all cats. The creation loop and the cat
  loop are methods with loop invariants, proved against specification
  functions.
- **Count controls** (`ControlsPanel`): the guarded ±1/±10 requests, and the
  re-entrancy flag around the full-screen screenshot.
- **Keyboard shortcuts** (`KeyboardShortcuts`): first-match dispatch with
  suppression inside text fields, the `Ctrl + Alt + Shift + Cmd + <key>`
  formatter, and the predefined binding table.
- **Custom-content store** (`CustomContent`): create, update, delete, get,
  the option list and the default transcript. A persisted copy is rewritten
  as a whole after every mutation.
- **Line editors** (`TerminalEditor`, `AsciiTyper`): add, remove and update
  lines; the save mapping with its fixed 100 ms delay; the colour swatch
  lookup; and the ASCII preview assembly, whose art generator is a parameter.
- **Small rules**: the screenshot file name (`Screenshot`), the help panel's
  keyword grouping (`ShortcutsHelp`), and the cyclic language switch
  (`LanguageSwitcher`).

Three helper modules hold the JavaScript built-ins the code relies on:
`Wrappers` (an `Option` for `undefined`), `Text` (decimal rendering,
ASCII case mapping, `trim` white space, `includes`, `join`) and `Lists`
(`indexOf`, `find`, `filter`, and the cyclic "next entry" rule shared by the
theme toggles and the language switcher).

The browser's inputs are parameters: the start position of each new window
(`pos`), the clock (`now`), the viewport size, the random id suffix, the
ISO time string, and the ASCII-art generator (`art`).

`handleTerminalCountChange` does not clamp the count it is given: only the
panel's buttons guard the range `[1, max]`, and the `+1`/`+10` shortcuts can
go past the panel's maximum (`TerminalManager.ShortcutsPassPanelMaximum`).
Closing a window filters out every window with the given id, not just one.

## Model

| member | source | states |
|---|---|---|
| TerminalManager.TerminalIdRoundTrip | src/App.tsx:135 | the number in `terminal-<n>` can be read back, so different counters give different ids |
| TerminalManager.KeepNewest | src/App.tsx:143-145 | `slice(-cap)` on an over-long list keeps exactly the newest `cap` entries, a suffix |
| TerminalManager.KeepNewestIsSuffix | src/App.tsx:143-145 | what the trim keeps is a suffix, so the oldest windows go first |
| TerminalManager.KeepNewestPush | src/App.tsx:139-145 | trimming after every push gives the same list as trimming once after the last push |
| TerminalManager.CreateTerminals | src/App.tsx:130-146 | the creation loop's result equals the specification `Grown`: `k` windows pushed one by one, each push followed by the trim to the cap |
| TerminalManager.GrowStep | src/App.tsx:132-146 | one more loop iteration appends the next window and trims |
| TerminalManager.ResizeTerminals | src/App.tsx:124-154 | the `setTerminals` updater: the result is `Resized`; the z-index and id counters each advance by exactly `count − old` on growth and not at all otherwise; after growth at most `maxRenderedTerminals` windows are rendered |
| TerminalManager.MaxRenderedTerminals | src/App.tsx:53 | the cap is 40 or 80, and 40 exactly when the previous count is over 1000 |
| TerminalManager.GrowthKeepsNewest | src/App.tsx:139-145 | after growth the rendered list is the newest `min(len+k, cap)` entries of old list followed by the created windows, so the oldest go first |
| TerminalManager.CreatedAreFresh | src/App.tsx:133-140 | the `j`-th created window has id `terminal-<nextId+j>` and z-index `highest+j+1`; no created id is already in use |
| TerminalManager.GrowthKeepsIds | src/App.tsx:130-146 | after growth all ids are distinct and below the advanced id counter |
| TerminalManager.ResizeKeepsIds | src/App.tsx:124-154 | any count change keeps ids distinct and below the id counter |
| TerminalManager.IdsBelowPrefix | src/App.tsx:150 | a prefix of a list with distinct, counter-bounded ids keeps that property |
| TerminalManager.ShrinkKeepsPrefix | src/App.tsx:147-151 | lowering the count keeps the prefix of length `max(0, len − (old − new))`, even when the rendered list is shorter than the count |
| TerminalManager.SliceTo | src/App.tsx:168 | JavaScript `slice(0, end)`: a prefix, of length `min(end, len)` for a non-negative end |
| TerminalManager.ResizeCats | src/App.tsx:157-171 | the cat loop's result equals `CatsForCount`; for a non-negative count its length is `min(floor(count/5), 1000)`; old ids survive as a prefix or the list is cut to a prefix |
| TerminalManager.CountAfterClose | src/App.tsx:179 | the count after close is exactly `max(1, count − 1)`: one less above 1, and 1 for any count up to 1 |
| TerminalManager.CloseRemovesOnly | src/App.tsx:182-183 | close removes the windows with that id and keeps every other one; with distinct ids the length drops by one exactly when the id was present |
| TerminalManager.CloseKeepsIds | src/App.tsx:183 | closing keeps the ids distinct and below the id counter |
| TerminalManager.CloseLastWindow | src/App.tsx:179-183 | closing the only window keeps the count at 1 but leaves no rendered window |
| TerminalManager.FocusZIndex | src/App.tsx:209 | the focus z-index is exactly `min(highest + 1, 9999)`: `highest + 1` below the cap, 9999 from the cap on |
| TerminalManager.Focused | src/App.tsx:211-215 | only windows with the focused id change, and only their z-index; length, order, ids and positions stay |
| TerminalManager.Moved | src/App.tsx:197-205 | only windows with that id change, and only their position; length, order, ids and z-indexes stay |
| TerminalManager.Arranged | src/App.tsx:218-257 | arranging keeps length, order, ids and z-indexes, and puts the window at index `i` exactly at `GridPosition(i, perRow, maxRows)` for the viewport's columns and rows |
| TerminalManager.ArrangeIdempotent | src/App.tsx:218-257 | arranging twice with the same viewport equals arranging once |
| TerminalManager.Cell | src/App.tsx:229-239 | with at least one cell per row and one row, the index splits into (layer, row, column) with row and column in range |
| TerminalManager.DivBelow | src/App.tsx:238 | the row index `floor(indexInLayer / perRow)` stays below the row count |
| TerminalManager.GridPositionOfCell | src/App.tsx:242-249 | the arranged position is `x = 170 + 320·col + 160·(row mod 2) + 15·layer`, `y = 70 + 280·row + 15·layer` |
| TerminalManager.ArrangeSpreadsLayer | src/App.tsx:233-255 | two windows in the same layer get different cells and different positions; every x is at least 170 and every y at least 70 |
| TerminalManager.ShortcutCount | src/App.tsx:260-285 | the count the shortcut actions ask for: exactly `count + 1` for new/add, `count + 10` for add ten, and for the removals a value that is at least 1, at least `count − 1` (resp. `count − 10`) and equal to one of the two, i.e. exactly `max(1, count − 1)` / `max(1, count − 10)` |
| TerminalManager.ShortcutsPassPanelMaximum | src/App.tsx:276-280 | at the panel's maximum 10000 the panel's `+10` does nothing, while the `+10` shortcut asks for 10010 |
| TerminalManager.ToggledLanguage | src/App.tsx:103-107 | the app-level toggle sends `en` to `zh` and everything else to `en` |
| TerminalManager.Desktop.constructor | src/App.tsx:45-60 | one window `terminal-0` at z-index 1, count 1, id counter 1, no cats |
| TerminalManager.Desktop.TerminalCountChange | src/App.tsx:120-175 | sets the count without clamping; the new windows, counters and cats are those of `Resized`, `Growth` and `CatsForCount`; keeps ids distinct and below the counter |
| TerminalManager.Desktop.TerminalClose | src/App.tsx:177-191 | count `max(1, count − 1)`, windows with that id removed, cats only truncated, counters unchanged |
| TerminalManager.Desktop.RemoveAllCats | src/App.tsx:193-195 | empties the cat list and changes nothing else |
| TerminalManager.Desktop.PositionChange | src/App.tsx:197-205 | windows become `Moved`; nothing else changes |
| TerminalManager.Desktop.Focus | src/App.tsx:207-216 | `highestZIndex` becomes the capped focus z-index, given to the windows with that id |
| TerminalManager.Desktop.ArrangeTerminals | src/App.tsx:218-257 | windows become `Arranged`; nothing else changes |
| Lists.NextCyclic | src/App.tsx:95-100 | theme toggle: none only for an empty list; the result is a list entry; an unknown current entry gives the first |
| Lists.NextCyclicAt | src/components/ControlsPanel/ControlsPanel.tsx:106-111 | on a list without duplicates the entry at `i` goes to the entry at `i+1`, wrapping to 0 at the end |
| Lists.FullRoundReturns | src/components/ControlsPanel/ControlsPanel.tsx:106-111 | toggling as many times as there are entries comes back to the start |
| Lists.IterateAdvances | src/App.tsx:95-100 | `k` toggles from entry `i` land on the entry `k` places further round the cycle |
| ControlsPanel.Increment | src/components/ControlsPanel/ControlsPanel.tsx:76-80 | asks for `count + 1` exactly when `count < max`, otherwise nothing |
| ControlsPanel.IncrementByTen | src/components/ControlsPanel/ControlsPanel.tsx:82-87 | asks for something exactly when `count < max`, and then a value above `count`, at most `max`, at most `count + 10` and equal to one of them, i.e. exactly `min(count + 10, max)` |
| ControlsPanel.Decrement | src/components/ControlsPanel/ControlsPanel.tsx:89-93 | asks for `count − 1` exactly when `count > min` |
| ControlsPanel.DecrementByTen | src/components/ControlsPanel/ControlsPanel.tsx:95-100 | asks for something exactly when `count > min`, and then a value below `count`, at least `min`, at least `count − 10` and equal to one of them, i.e. exactly `max(count − 10, min)` |
| ControlsPanel.RequestsStayInRange | src/components/ControlsPanel/ControlsPanel.tsx:24-25 | for a count in `[min, max]` every request also lies in `[min, max]` |
| ControlsPanel.IncrementThenDecrement | src/components/ControlsPanel/ControlsPanel.tsx:76-93 | `+1` then `−1` returns to the start inside the range |
| ControlsPanel.IncrementByTenThenDecrementByTen | src/components/ControlsPanel/ControlsPanel.tsx:82-100 | `+10` then `−10` returns to the start when neither is clamped |
| ControlsPanel.ShotEffectOf | src/components/ControlsPanel/ControlsPanel.tsx:43-56 | a capture copied to the clipboard is done; a capture not copied is downloaded twice, first as `terminal-screenshot.png` by the clipboard helper and then as `all-terminals_<time>.png` by the button; a failure or exception only logs |
| ControlsPanel.FullScreenCapture.constructor | src/components/ControlsPanel/ControlsPanel.tsx:36 | no capture is in flight at first |
| ControlsPanel.FullScreenCapture.Start | src/components/ControlsPanel/ControlsPanel.tsx:38-41 | a request while a capture runs does nothing; otherwise it starts and sets the flag |
| ControlsPanel.FullScreenCapture.Finish | src/components/ControlsPanel/ControlsPanel.tsx:42-59 | whatever the outcome, the flag is cleared afterwards |
| KeyboardShortcuts.HandleKeyDown | src/hooks/useKeyboardShortcuts.ts:24-50 | ignored exactly when disabled or typed into an input, text area or editable element; otherwise the first matching shortcut runs, and only that one; `preventDefault` unless the shortcut says exactly false |
| KeyboardShortcuts.MatchesIsComboEquality | src/hooks/useKeyboardShortcuts.ts:34-42 | a shortcut matches exactly when the lower-cased key and the four flags (missing read as false) equal the event's |
| KeyboardShortcuts.FormatShortcutKey | src/hooks/useKeyboardShortcuts.ts:69-95 | the display is the set modifiers in order Ctrl, Alt, Shift, Cmd, each followed by ` + `, then the key name |
| KeyboardShortcuts.JoinLast | src/hooks/useKeyboardShortcuts.ts:92-94 | joining a list with one last element puts the separator after every earlier part |
| KeyboardShortcuts.ModifierPrefixIsTerminated | src/hooks/useKeyboardShortcuts.ts:72-75 | the conditional pushes of the four modifiers give the prefix `Ctrl + ` … `Cmd + ` |
| KeyboardShortcuts.KeyNameTable | src/hooks/useKeyboardShortcuts.ts:78-91 | space, the arrows, Escape and Delete display through the fixed table |
| KeyboardShortcuts.KeyNameOfLetter | src/hooks/useKeyboardShortcuts.ts:91 | a key outside the table is upper-cased |
| KeyboardShortcuts.FingerprintOfCombo | src/hooks/useKeyboardShortcuts.ts:34-42 | bindings with different key length, lower-cased last key character or flags never match the same press |
| KeyboardShortcuts.KeyMapKeys | src/hooks/useKeyboardShortcuts.ts:78-89 | the only one-character key with a table name is the space bar |
| KeyboardShortcuts.CommonShortcutsDistinct | src/hooks/useKeyboardShortcuts.ts:100-134 | no two predefined bindings share key and modifier combination |
| KeyboardShortcuts.AtMostOneCommonMatch | src/hooks/useKeyboardShortcuts.ts:100-134 | so no key press matches two predefined bindings |
| KeyboardShortcuts.ScreenshotAllDisplay | src/hooks/useKeyboardShortcuts.ts:115 | SCREENSHOT_ALL displays as `Ctrl + S` |
| KeyboardShortcuts.ScreenshotTerminalDisplay | src/hooks/useKeyboardShortcuts.ts:116 | SCREENSHOT_TERMINAL differs by Shift and displays as `Ctrl + Shift + S` |
| KeyboardShortcuts.PauseDisplay | src/hooks/useKeyboardShortcuts.ts:119 | the pause binding displays as `Space` |
| CustomContent.Loaded | src/hooks/useCustomTerminalContent.ts:15-31 | a missing, empty or unreadable stored value leaves the list empty; a stored list is taken as is |
| CustomContent.ContentStore.constructor | src/hooks/useCustomTerminalContent.ts:11-12 | mounting starts with an empty list, the loading flag set, and storage as it was |
| CustomContent.ContentStore.Load | src/hooks/useCustomTerminalContent.ts:15-32 | loading sets the contents to `Loaded(storage)` and clears the loading flag |
| CustomContent.ContentStore.Create | src/hooks/useCustomTerminalContent.ts:44-57 | appends exactly one record with the given name and lines, returns it, and persists the whole list, so that the next start-up read (`Loaded`) gives back exactly the new contents |
| CustomContent.ContentStore.Update | src/hooks/useCustomTerminalContent.ts:60-66 | the contents become `Updated` and are persisted, so that the next start-up read gives back exactly the new contents |
| CustomContent.ContentStore.Delete | src/hooks/useCustomTerminalContent.ts:69-73 | the contents become `Deleted` and are persisted, so that the next start-up read gives back exactly the new contents |
| CustomContent.ContentStore.CreateDefault | src/hooks/useCustomTerminalContent.ts:91-110 | on an empty store, creates one record named `Default Custom Terminal` with the eleven default lines and persists it so that the next start-up read gives back exactly that list; otherwise returns the first record and changes nothing |
| CustomContent.Find | src/hooks/useCustomTerminalContent.ts:76-78 | none exactly when no record has the id; otherwise the first record with it |
| CustomContent.Apply | src/hooks/useCustomTerminalContent.ts:61-63 | the update's present fields replace the record's; id and creation time stay |
| CustomContent.Updated | src/hooks/useCustomTerminalContent.ts:60-66 | same length and order; records with another id are unchanged; ids and creation times never change |
| CustomContent.Deleted | src/hooks/useCustomTerminalContent.ts:69-73 | no survivor has the id; every record with another id survives |
| CustomContent.DeletedConcat | src/hooks/useCustomTerminalContent.ts:70 | deletion distributes over concatenation, so survivors keep their order |
| CustomContent.DeleteAbsent | src/hooks/useCustomTerminalContent.ts:70 | deleting an id no record has changes nothing |
| CustomContent.Options | src/hooks/useCustomTerminalContent.ts:81-88 | one option per record, in order, with `linesCount` the number of lines |
| CustomContent.OptionsAreFetchable | src/hooks/useCustomTerminalContent.ts:76-88 | every option's id finds a record, and with distinct ids it finds that record |
| CustomContent.FindAfterCreate | src/hooks/useCustomTerminalContent.ts:44-57 | after a create the new record is found by a fresh id, and other lookups are unchanged |
| CustomContent.FindAfterUpdate | src/hooks/useCustomTerminalContent.ts:60-66 | after an update the id finds the updated record, and other lookups are unchanged |
| CustomContent.FindAfterDelete | src/hooks/useCustomTerminalContent.ts:69-73 | after a delete the id is gone, and other lookups are unchanged |
| TerminalEditor.ColorOrPrimary | src/components/CustomTerminalEditor/CustomTerminalEditor.tsx:47 | a missing or empty colour becomes `primary` |
| TerminalEditor.InitialLines | src/components/CustomTerminalEditor/CustomTerminalEditor.tsx:42-55 | one row per transcript line with id `line-<index>`, the same text, the colour or `primary`, type `output`; the two sample rows for an empty transcript; never empty |
| TerminalEditor.InitialIdsDistinct | src/components/CustomTerminalEditor/CustomTerminalEditor.tsx:44-54 | the opening rows have distinct ids |
| TerminalEditor.LineEditor.constructor | src/components/CustomTerminalEditor/CustomTerminalEditor.tsx:42-55 | the editor opens on `InitialLines`, non-empty with distinct ids |
| TerminalEditor.LineEditor.AddLine | src/components/CustomTerminalEditor/CustomTerminalEditor.tsx:61-64 | appends one blank `primary` row |
| TerminalEditor.LineEditor.RemoveLine | src/components/CustomTerminalEditor/CustomTerminalEditor.tsx:66-70 | no-op with one row left; otherwise removes the id; with distinct ids the list never becomes empty |
| TerminalEditor.WithoutLine | src/components/CustomTerminalEditor/CustomTerminalEditor.tsx:68 | no remaining row has the id; every other row remains |
| TerminalEditor.WithoutLineDropsAtMostOne | src/components/CustomTerminalEditor/CustomTerminalEditor.tsx:66-70 | with distinct ids removal drops at most one row |
| TerminalEditor.SharedIdEmptiesList | src/components/CustomTerminalEditor/CustomTerminalEditor.tsx:66-70 | rows that all share the removed id all go, so the length guard alone does not keep the list non-empty |
| TerminalEditor.SetField | src/components/CustomTerminalEditor/CustomTerminalEditor.tsx:74 | `{ ...line, [field]: value }` changes only the named field |
| TerminalEditor.UpdatedLines | src/components/CustomTerminalEditor/CustomTerminalEditor.tsx:72-76 | only rows with the id change, and only in the named field; length and order stay |
| TerminalEditor.LineEditor.UpdateLine | src/components/CustomTerminalEditor/CustomTerminalEditor.tsx:72-76 | the rows become `UpdatedLines` |
| TerminalEditor.UpdateKeepsIds | src/components/CustomTerminalEditor/CustomTerminalEditor.tsx:72-76 | editing text, colour or type keeps every id, so distinct ids stay distinct |
| TerminalEditor.Saved | src/components/CustomTerminalEditor/CustomTerminalEditor.tsx:78-86 | one transcript line per row, in order, with the row's text and colour and delay 100 |
| TerminalEditor.SaveThenReopen | src/components/CustomTerminalEditor/CustomTerminalEditor.tsx:42-86 | the start-up mapping inverts the save mapping: reopening saved rows keeps each row's text and (non-empty) colour in order, renumbers the ids and sets the type to `output` |
| TerminalEditor.ColorPreview | src/components/CustomTerminalEditor/CustomTerminalEditor.tsx:88-91 | a value no option has previews as `#ffffff` |
| TerminalEditor.ColorPreviewOfOption | src/components/CustomTerminalEditor/CustomTerminalEditor.tsx:88-91 | every option's value previews as that option's hex colour |
| TerminalEditor.ColorValuesDistinct | src/components/CustomTerminalEditor/CustomTerminalEditor.tsx:19-28 | no two colour options share a value, so the first match is the only one |
| AsciiTyper.TyperLines.constructor | src/pages/AsciiTyper.tsx:27-29 | the page opens with the one line `Gradient Text` |
| AsciiTyper.TyperLines.AddNewLine | src/pages/AsciiTyper.tsx:40-43 | appends one empty line with the clock as id |
| AsciiTyper.WithText | src/pages/AsciiTyper.tsx:45-49 | only lines with the id change, and only in their text; ids and length stay |
| AsciiTyper.TyperLines.UpdateLineText | src/pages/AsciiTyper.tsx:45-49 | the lines become `WithText` |
| AsciiTyper.WithoutTextLine | src/pages/AsciiTyper.tsx:53 | no remaining line has the id; every other line remains |
| AsciiTyper.RemoveKeepsOne | src/pages/AsciiTyper.tsx:51-55 | with distinct ids, removing from two or more lines leaves at least one |
| AsciiTyper.TyperLines.RemoveLine | src/pages/AsciiTyper.tsx:51-55 | no-op with one line left; with distinct ids never empty |
| AsciiTyper.NonBlankTexts | src/pages/AsciiTyper.tsx:62-64 | empty exactly when every line is blank after `trim` |
| AsciiTyper.NonBlankTextsContents | src/pages/AsciiTyper.tsx:62-64 | every previewed text is a non-blank line upper-cased, and every non-blank line is previewed |
| AsciiTyper.NonBlankTextsConcat | src/pages/AsciiTyper.tsx:62-64 | the texts of two runs of lines are the first run's texts followed by the second's, so order and multiplicity follow the lines |
| AsciiTyper.NonBlankTextsSingle | src/pages/AsciiTyper.tsx:62-64 | one line contributes `[upper(text)]` when its text is not blank and nothing otherwise |
| AsciiTyper.Preview | src/pages/AsciiTyper.tsx:57-78 | six empty rows when every line is blank; otherwise the output ends with the last text's art, never with a separator |
| AsciiTyper.GeneratePreview | src/pages/AsciiTyper.tsx:57-78 | the preview loop computes `Preview` |
| AsciiTyper.AssembledBeforeLast | src/pages/AsciiTyper.tsx:68-75 | each text that differs from the last is followed by one empty row |
| AsciiTyper.PreviewIntercalates | src/pages/AsciiTyper.tsx:62-77 | when no earlier line repeats the last text, the preview is the blocks in order with one empty row between neighbours |
| AsciiTyper.DuplicateOfLastLosesSeparator | src/pages/AsciiTyper.tsx:72-74 | an earlier copy of the last text gets no separator: `a, b, a` renders `a` and `b` with no empty row between them |
| Screenshot.DashForColonAndDot | src/utils/screenshot.ts:146 | every `:` and `.` becomes `-`, nothing else changes |
| Screenshot.ReplaceFirst | src/utils/screenshot.ts:147 | only the first `T` becomes `_` |
| Screenshot.DropLast | src/utils/screenshot.ts:148 | `slice(0, -5)` drops the last five characters |
| Screenshot.TimestampHasNoColonOrDot | src/utils/screenshot.ts:145-148 | the time stamp contains no `:` or `.` |
| Screenshot.IsoTimestamp | src/utils/screenshot.ts:145-148 | a 24-character ISO string gives the 19-character `YYYY-MM-DD_HH-mm-ss` read off its date and time fields |
| Screenshot.FilenameOfIso | src/utils/screenshot.ts:143-149 | the file name is `prefix_YYYY-MM-DD_HH-mm-ss.png`, 24 characters longer than the prefix |
| Screenshot.DefaultFilename | src/utils/screenshot.ts:143 | without a prefix argument the name starts with `screenshot_` |
| ShortcutsHelp.Rank | src/components/KeyboardShortcutsHelp/KeyboardShortcutsHelp.tsx:22-70 | each group has its place in the fixed order |
| ShortcutsHelp.AllGroups | src/components/KeyboardShortcutsHelp/KeyboardShortcutsHelp.tsx:22-69 | five groups in order terminal, layout, screenshot, display, animation, each the filter by its keywords |
| ShortcutsHelp.GroupedShortcuts | src/components/KeyboardShortcutsHelp/KeyboardShortcutsHelp.tsx:19-70 | nothing while hidden; otherwise only non-empty groups |
| ShortcutsHelp.MembersExactly | src/components/KeyboardShortcutsHelp/KeyboardShortcutsHelp.tsx:25-69 | a shortcut is in a group's filter exactly when it is listed and its description contains one of the keywords |
| ShortcutsHelp.GroupContents | src/components/KeyboardShortcutsHelp/KeyboardShortcutsHelp.tsx:22-70 | each shown group holds exactly the matching shortcuts; every kind with a match is shown; the filters are independent, so a shortcut can be in several groups or none |
| ShortcutsHelp.GroupsInOrder | src/components/KeyboardShortcutsHelp/KeyboardShortcutsHelp.tsx:22-70 | the shown groups keep the fixed order |
| ShortcutsHelp.MembersKeepOrder | src/components/KeyboardShortcutsHelp/KeyboardShortcutsHelp.tsx:25-69 | within a group shortcuts keep their list order |
| LanguageSwitcher.CodesMatchLanguages | src/components/LanguageSwitcher/LanguageSwitcher.tsx:10-13 | the code list is the languages' codes in order |
| LanguageSwitcher.CurrentLanguage | src/components/LanguageSwitcher/LanguageSwitcher.tsx:15 | the entry with the current code, otherwise English |
| LanguageSwitcher.NextLanguage | src/components/LanguageSwitcher/LanguageSwitcher.tsx:24-28 | `en` goes to `zh`, `zh` to `en`, an unknown code to `en` |
| LanguageSwitcher.SwitcherAgreesWithToggle | src/components/LanguageSwitcher/LanguageSwitcher.tsx:24-28 | the switcher and the app-level toggle agree on every code |
| LanguageSwitcher.TwoClicksReturn | src/components/LanguageSwitcher/LanguageSwitcher.tsx:24-28 | two clicks from `en` or `zh` return to the start |
| LanguageSwitcher.FullRoundOfClicks | src/components/LanguageSwitcher/LanguageSwitcher.tsx:24-28 | as many clicks as there are languages return to the start |
| Lists.IndexOf | src/components/LanguageSwitcher/LanguageSwitcher.tsx:25 | `findIndex`: −1 exactly when absent, otherwise the first position |
| Lists.Filter | src/hooks/useCustomTerminalContent.ts:70 | `filter`: every kept element satisfies the predicate; every element satisfying it is kept |
| Lists.FilterConcat | src/components/KeyboardShortcutsHelp/KeyboardShortcutsHelp.tsx:25-29 | filtering distributes over concatenation, so order is kept |
| Lists.FilterDropsAtMostOne | src/components/CustomTerminalEditor/CustomTerminalEditor.tsx:68 | when at most one element fails the predicate, filtering drops at most one |
| Lists.FilterPairwise | src/App.tsx:183 | a relation between earlier and later elements survives filtering |
| Text.ParseDecimalRoundTrip | src/App.tsx:135 | decimal rendering of a number reads back as that number |
| Text.DecimalInjective | src/App.tsx:135 | different numbers render differently |

## Left out

- The typewriter engine (`src/hooks/useTypewriter.ts`), the terminal window, the bouncing cat, the theme context and the app context are not part of this model: their sources are not among the files modelled.
- `src/data/terminalOutputs.ts` is mirrored only as the record shapes `TerminalLine` and `CustomTerminalContent`; its transcripts are data.
- Browser calls are left out: canvas capture, `toBlob`, clipboard writes, downloads, DOM listener registration, and all rendering. The full-screen capture outcome is a parameter of `ControlsPanel.FullScreenCapture.Finish`.
- Randomness and clocks are parameters: `generateRandomPosition` (and its floating-point arithmetic) is the `pos` function, `Date.now` is `now`, and the random base-36 id suffix is `suffix`.
- `localStorage` and `JSON.parse` are a `Stored` value (absent, unreadable, or a list of records). A failing `setItem` is not modelled: the persisted copy always takes the new list. Date revival on load is the identity, because creation times are numbers here.
- `generateAsciiArt` is the uninterpreted parameter `art`.
- Text.Upper and Text.Lower map ASCII letters only; JavaScript's full Unicode case mapping is not modelled.
- KeyboardShortcuts.KeyName: a key spelled like an inherited object property (for example `constructor`) would hit the prototype in JavaScript; the model's table has only its ten entries.
- TerminalManager.Arranged: JavaScript floating-point results are modelled exactly as integers. The one division that can be fractional, `terminalWidth / 2`, is 160. A zero-sized grid yields `NaN` positions, modelled as the `NaN` position.
- TerminalManager.ResizeCats: the source reads the clock once per cat it pushes; the model uses one reading `now` per change, so every cat added by one change is `cat-<now>-<i>`. Ids are not claimed unique across changes.
- TerminalEditor.LineEditor.RemoveLine and AsciiTyper.TyperLines.RemoveLine: the never-empty guarantee is proved only for lists with distinct ids. New ids come from the clock (`addLine` in CustomTerminalEditor.tsx, `addNewLine` in AsciiTyper.tsx), so two additions in the same millisecond give the same id (the editor's `updateLine` only ever receives `text` or `color`), and then the guard does not prevent an empty list (`TerminalEditor.SharedIdEmptiesList`).
- The app-level screenshot handlers in `src/App.tsx` and the `captureTerminal`/`downloadScreenshot` helpers in `src/utils/screenshot.ts` are browser I/O and are left out.
- The theme name itself lives in the theme context, which is not part of this model; the toggle rule is modelled on any list of names (`Lists.NextCyclic`).
- React timing (stale closures, batched state updates) is not modelled: each handler is one sequential step on explicit state.
- `src/i18n/index.ts` and `vite.config.ts` only configure libraries and the build.
