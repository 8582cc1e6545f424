# akora keyboard and focus layer in Dafny

akora is a small web sound mixer that is driven from the keyboard. This
project models its input and focus layer and proves properties of the
model. The layer has these parts:

- **Key-binding registry.** A physical key code and four modifier flags
  become a canonical binding. Each binding has a string id and an `is`
  test. Raw key events are validated into bindings. A name-to-binding
  table (`keys`, `meta`) is derived from the code list, and `match`
  dispatches through a shared, code-keyed handler table. There are two
  copies of the registry. Module `KeyBinding` takes the code list as a
  parameter. Module `KeyBindingCodes` holds the inline list of the second
  copy and proves what that list guarantees.
- **Dispatch step** (`Dispatch`). On every new key event it validates the
  event and calls `preventDefault` when the action table has an entry
  under the binding's id. It then hands the binding to `match`.
- **Learned-binding tables** (`LearnedBindings`). These are lists of
  `{key, code, target}` records, with `put`, lookups and deletions by code
  and by target. An effect learns the next key press for a pending
  target. One class stands for the three copies, which are told apart by
  their commit rule.
- **Focus cursor** (`FocusCursor`). The cursor is an optional index into a
  list. Moves wrap around, and the cursor can also be set by index or
  cleared. There are two variants: one ignores an invalid index, and the
  other clears the focus and heals a stale one.
- **Map hook** (`StateMap`). The `Map` in React state has `put` and `del`.
- **Source list** (`Sources`). The JSON index is validated record by
  record and sorted by name.
- **Index generator** (`SourcesIndex`). It turns file names into
  `{id, name, url}` records.
- **Page helpers** (`AppHelpers`). These are the mixer page's focus ids,
  navigation scope, "act on the focused item" guards, track map, search
  filter and padded track column.

Modules `Common` and `Text` hold the shared vocabulary. `Common` models
JavaScript values, property bags and key events. `Text` models the string
methods the code relies on: `indexOf`, `includes`, `replace` with a string
pattern, `join` and lower-casing.

Stateful code is written as classes whose methods keep the source's state
cells: `Matcher`, `Dispatcher`, `Learner`, `Cursor`, `JsMap` and `UseMap`.
Each method is specified by the pure function that states its new state.
The lemmas are about those functions.

### Behaviour of the code worth noting

The model follows the code in each of these places.

- **Id format.** The id is the code followed by the template-literal
  rendering of a four-slot array: the slots alt, ctrl, meta and shift are
  always present, in that order, each empty or holding its flag's name. So an id with no modifiers keeps three commas
  (`"KeyX,,,"`), and shift+X is `"KeyX,,,-shiftKey"`.
- **Injectivity needs more than comma-free codes.** The id is injective
  only on codes that have no comma and do not themselves end in
  `-altKey`:
  - `KeyBinding.CommaFreeIsNotEnough` exhibits the clash
    (`"X-altKey"` plain and `"X"` with alt);
  - `KeyBinding.IdInjective` proves injectivity under both conditions;
  - `KeyBindingCodes.CodesAreSafe` shows the listed codes meet them.
- **The visible `match` dispatches on `t.code`, not on the id.** The
  dispatch step prevents the default when the table has the binding's
  id. But under the visible `match` the handler that runs is the one
  stored under the bare code (`Dispatch.IdHandlersNeverRun`,
  `Dispatch.CodeKeyedHandlerIgnoresModifiers`). The `match` the step
  imports is not part of this model, and the visible one stands in for
  it.
- **The focus cursor.** It is index based. It works over an array length,
  not over the rendered structure.
- **The numeric setter accepts the index `n`** (one past the end):
  - It is modelled as written (`FocusCursor.Invalid`).
  - As a result, the bound that holds is `focus <= n`
    (`FocusCursor.SelfHealingStaysBounded`).
  - The variant without the heal can keep a focus beyond the list after
    the list shrinks. A backward move from there stays out of range
    (`FocusCursor.LenientStaleFocus`).

## Model

| member | source | states |
|---|---|---|
| KeyBinding.IsCodeBinding | packages/app/src/keybinding/keybinding.tsx:9-10 | definition: the object's `code` property is a string among the supported codes |
| KeyBinding.IsModifierBinding | packages/app/src/keybinding/keybinding.tsx:18-19 | definition: each of the four modifier properties is a boolean |
| KeyBinding.IsKeyBinding | packages/app/src/keybinding/keybinding.tsx:30-34 | definition: a supported code, four boolean flags, and `is` and `id` both functions |
| KeyBinding.Compare | packages/app/src/keybinding/keybinding.tsx:36-44 | definition: strict equality of the code and of each of the four flags; `KeyBinding.CompareObject` shows it is data equality on built bindings |
| KeyBinding.MadeBindingsFailIsKeyBinding | packages/app/src/keybinding/keybinding.tsx:30-34 | `isKeyBinding` is false for every binding `makeKeyBinding` builds, because its `id` is a string, not a function |
| KeyBinding.MakeModifierBinding | packages/app/src/keybinding/keybinding.tsx:46-56 | all four flags are present; with no modifiers object all are false; each flag is true exactly when it was given as true, so a missing flag becomes false and a given one is copied |
| KeyBinding.Id | packages/app/src/keybinding/keybinding.tsx:73 | the id is the code followed by the alt, ctrl, meta and shift slots joined by commas, each slot `-<flag>` or empty |
| KeyBinding.IdNoModifiers | packages/app/src/keybinding/keybinding.tsx:73 | the id with no modifiers is `code + ",,,"` |
| KeyBinding.IdShiftOnly | packages/app/src/keybinding/keybinding.tsx:73 | shift alone gives `code + ",,,-shiftKey"` |
| KeyBinding.MakeKeyBinding | packages/app/src/keybinding/keybinding.tsx:66-76 | the binding carries the code and the materialised flags, and its id is the one they determine |
| KeyBinding.Is | packages/app/src/keybinding/keybinding.tsx:74 | `kb.is(t)` holds exactly when `kb`'s code is supported and `t` has the same code and four equal boolean flags |
| KeyBinding.DashFreeIsSafe | packages/app/src/keybinding/keybinding.tsx:73 | a code without comma and dash cannot make the id ambiguous |
| KeyBinding.CommaFreeIsNotEnough | packages/app/src/keybinding/keybinding.tsx:73 | two different comma-free (code, flags) pairs, `"X-altKey"` plain and `"X"` with alt, share an id |
| KeyBinding.IdInjective | packages/app/src/keybinding/keybinding.tsx:66-76 | over safe codes, two ids are equal exactly when the codes and all four flags are equal |
| KeyBinding.IdInjectiveOverCodes | packages/app/src/keybinding/keybinding.tsx:66-76 | the same, for any two codes of a list of safe codes |
| KeyBinding.IdHasComma | packages/app/src/keybinding/keybinding.tsx:73 | every id contains a comma, so no id is a bare comma-free code |
| KeyBinding.IsIffSameId | packages/app/src/keybinding/keybinding.tsx:74 | for canonical bindings over safe supported codes, `a.is(b)` holds exactly when `a.id == b.id` |
| KeyBinding.IsReflexiveSymmetric | packages/app/src/keybinding/keybinding.tsx:36-44 | `is` is reflexive on supported codes and symmetric |
| KeyBinding.KeyBindingFrom | packages/app/src/keybinding/keybinding.tsx:82-87 | no binding exactly when the code is unsupported or some flag is not boolean; otherwise the binding has the event's code and flags and the canonical id |
| KeyBinding.Name | packages/app/src/keybinding/keybinding.tsx:93 | definition: the property name of a code, its first `Key` then its first `Digit` removed; `KeyBindingCodes.NamesFromCodes` gives its values on the 82 codes |
| KeyBinding.Keys | packages/app/src/keybinding/keybinding.tsx:89-95 | for any naming function, every entry is the flag-free binding of a listed code and sits under that code's name; that every code's name is present is `KeyBinding.KeysDomain`, and the id `code + ",,,"` is `KeyBinding.IdNoModifiers` |
| KeyBinding.Meta | packages/app/src/keybinding/keybinding.tsx:97-100 | `meta` (and `command`, `window`) is the same table, so no entry has the meta flag |
| KeyBinding.KeysDomain | packages/app/src/keybinding/keybinding.tsx:89-95 | the table's names are exactly the names of the codes |
| KeyBinding.KeysOnePerCode | packages/app/src/keybinding/keybinding.tsx:89-95 | when names tell codes apart, the entry under a code's name is that code's flag-free binding |
| KeyBinding.Matcher.constructor | packages/app/src/keybinding/keybinding.tsx:104-107 | the default table has exactly the supported codes, each with a no-op |
| KeyBinding.Matcher.Match | packages/app/src/keybinding/keybinding.tsx:108-111 | `m` is merged into the shared table in place; the handler called is the one under `t.code`, and one is always found for a supported code |
| KeyBindingCodes.NamesFromCodes | packages/app/src/keybinding.tsx:76-79 | stripping `Key` then `Digit` from each of the 82 codes gives `codesNames` element by element |
| KeyBindingCodes.NamesDistinct | packages/app/src/keybinding.tsx:76 | the names are pairwise distinct |
| KeyBindingCodes.CodesListed | packages/app/src/keybinding.tsx:2 | every listed code is free of commas and dashes and is named as `codesNames` says |
| KeyBindingCodes.CodesAreSafe | packages/app/src/keybinding.tsx:2 | no listed code has a comma, and none can make the id ambiguous |
| KeyBindingCodes.CodesFreeOfArrows | packages/app/src/keybinding.tsx:2 | none of the four arrow codes is listed |
| KeyBindingCodes.IdInjectiveOverListedCodes | packages/app/src/keybinding.tsx:57-65 | over the listed codes two ids are equal exactly when code and flags are equal |
| KeyBindingCodes.ShiftXId | packages/app/src/keybinding.tsx:62 | `KeyX` is listed and shift+X has id `"KeyX,,,-shiftKey"` |
| KeyBindingCodes.ArrowsUnsupported | packages/app/src/keybinding.tsx:71-74 | an arrow-key event gets no binding, whatever its flags |
| KeyBindingCodes.KeyPressBinding | packages/app/src/keybinding.tsx:71-74 | a key event gets a binding exactly when its code is listed, and then the binding of its own code and flags |
| KeyBindingCodes.NamesSeparateCodes | packages/app/src/keybinding.tsx:78-80 | two listed codes with the same name are the same code |
| KeyBindingCodes.KeysNames | packages/app/src/keybinding.tsx:78-80 | `keys` has exactly the names in `codesNames` |
| KeyBindingCodes.KeysEntry | packages/app/src/keybinding.tsx:78-80 | under the i-th name `keys` holds the flag-free binding of the i-th code, so there is one binding per code |
| KeyBindingCodes.MetaK | packages/app/src/keybinding.tsx:82 | `meta.K` exists, is the flag-free binding of `KeyK`, and its meta flag is false |
| Dispatch.Decide | packages/keybinding/src/useKeyBinding.tsx:10-21 | no event gives no decision; an event gives none exactly when its code is unsupported; otherwise the binding has the event's code and flags, and the default is prevented exactly when the table has the binding's id |
| Dispatch.IdKeyedMergeKeepsCodes | packages/keybinding/src/useKeyBinding.tsx:22 | merging a table keyed by ids never replaces the handler of a supported code |
| Dispatch.IdsMakeIdKeyed | packages/keybinding/src/useKeyBinding.tsx:21 | a table keyed by binding ids has a comma in every key |
| Dispatch.Dispatcher.constructor | packages/keybinding/src/useKeyBinding.tsx:5-8 | the step starts with no event seen, nothing prevented and nothing run, over the one shared `match` table as earlier merges left it |
| Dispatch.SecondInstanceSeesMerge | packages/app/src/keybinding/keybinding.tsx:104-111 | a second instance of the hook starts from the table the first one merged into, since `defaultMatch` is one module-level object that is never reset |
| Dispatch.Dispatcher.Effect | packages/keybinding/src/useKeyBinding.tsx:10-22 | without a decision nothing changes; with one the stamp is logged as prevented exactly when the decision says so, the table is merged, and the handler under the binding's code is run once |
| Dispatch.Dispatcher.Render | packages/keybinding/src/useKeyBinding.tsx:10-23 | the effect runs only when the key event differs from the last one, so a repeated or cleared event changes nothing |
| Dispatch.IdHandlersNeverRun | packages/keybinding/src/useKeyBinding.tsx:21-22 | with an id-keyed action table the handler run is always the one the table held under the code |
| Dispatch.CodeKeyedHandlerIgnoresModifiers | packages/keybinding/src/useKeyBinding.tsx:21-22 | with a table keyed by a code, the default is never prevented, yet that code's handler runs for the press with any flags |
| LearnedBindings.WithoutCode | src/useKeyBinding.ts:51-52 | the result holds exactly the records whose code differs |
| LearnedBindings.WithoutTarget | src/useKeyBinding.ts:56-57 | the result holds exactly the records whose target differs |
| LearnedBindings.Survivors | src/useKeyBinding.ts:31-33 | only records differing in code and target survive |
| LearnedBindings.Put | src/useKeyBinding.ts:29-39 | the new record is last; every other record differs in code and target and was in the list; every such record is kept |
| LearnedBindings.FindByCode | src/useKeyBinding.ts:50 | none exactly when no record has the code; otherwise a listed record with that code |
| LearnedBindings.FindByCodeFirst | src/useKeyBinding.ts:50 | the record found is the first with that code |
| LearnedBindings.FindByTarget | src/useKeyBinding.ts:55 | none exactly when no record has the target; otherwise a listed record with it |
| LearnedBindings.FindByTargetFirst | src/useKeyBinding.ts:55 | the record found is the first with that target |
| LearnedBindings.FiltersAreSurvivors | src/useKeyBinding.ts:31-33 | the two filters, in sequence, are the one-pass survivor filter |
| LearnedBindings.PutKeepsOrder | src/useKeyBinding.ts:29-39 | `put` keeps the unrelated records in their original order and appends the new one |
| LearnedBindings.SurvivorsUnique | src/useKeyBinding.ts:31-33 | filtering a list with one record per code and per target keeps that property |
| LearnedBindings.PutPreservesUnique | src/useKeyBinding.ts:29-39 | `put` preserves one record per code and one per target |
| LearnedBindings.PutThenFind | src/useKeyBinding.ts:29-39 | after `put`, the lookups by code and by target both find the new record |
| LearnedBindings.DeleteByCodeExact | src/useKeyBinding.ts:51-52 | deleting by code removes exactly the records with that code, and the lookup then finds none |
| LearnedBindings.WithoutCodeUnique | src/useKeyBinding.ts:51-52 | deleting by code preserves uniqueness |
| LearnedBindings.DeleteByTargetExact | src/useKeyBinding.ts:56-57 | deleting by target removes exactly the records with that target, and the lookup then finds none |
| LearnedBindings.WithoutTargetUnique | src/useKeyBinding.ts:56-57 | deleting by target preserves uniqueness |
| LearnedBindings.Commits | src/useKeyBinding.ts:42 | definition: the effect's guard, a truthy pending target and a press, which under the unmodified-only rule (packages/app/src/keybinding.ts) must also have no modifier |
| LearnedBindings.Learn | src/useKeyBinding.ts:41-46 | when a truthy target is pending and the press passes the commit rule, the press is put under the target and the target is cleared; otherwise nothing changes |
| LearnedBindings.NoTargetNoChange | packages/app/src/keybinding.ts:48-50 | with no or a falsy pending target, no press changes the list or the target |
| LearnedBindings.SecondPressAfterCommit | packages/app/src/keybinding.ts:56-57 | after a commit no target is pending, so the next press binds nothing |
| LearnedBindings.ModifiedPressIgnored | packages/app/src/keybinding.ts:47-55 | under the commit-on-unmodified rule a press with any modifier leaves list and target unchanged |
| LearnedBindings.CommitBindsTarget | src/keybinding.ts:51-56 | a committed press, modified or not under the any-press rule, is found under its code and under the target, the target is cleared, and uniqueness holds |
| LearnedBindings.Learner.constructor | src/useKeyBinding.ts:26-27 | no records and no pending target |
| LearnedBindings.Learner.SetTarget | src/useKeyBinding.ts:61 | the pending target is the one given |
| LearnedBindings.Learner.SetBindings | packages/app/src/keybinding.ts:61 | the list is replaced by the one given |
| LearnedBindings.Learner.PutBinding | src/keybinding.ts:39-49 | the list becomes `Put` of the old list, and uniqueness is preserved |
| LearnedBindings.Learner.GetByCode | src/useKeyBinding.ts:50 | the lookup by code on the current list |
| LearnedBindings.Learner.GetByTarget | src/useKeyBinding.ts:55 | the lookup by target on the current list |
| LearnedBindings.Learner.DeleteByCode | src/useKeyBinding.ts:51-52 | the list loses exactly the records with the code; uniqueness is preserved |
| LearnedBindings.Learner.DeleteByTarget | src/useKeyBinding.ts:56-57 | the list loses exactly the records with the target; uniqueness is preserved |
| LearnedBindings.Learner.LearnEffect | packages/app/src/keybinding.ts:47-59 | list and target become what `Learn` gives for the old state, and uniqueness is preserved |
| LearnedBindings.Learner.Render | src/useKeyBinding.ts:41-46 | the effect runs only when the key event changed; otherwise list and target are unchanged |
| FocusCursor.Moved | src/keybinding.ts:69-84 | no focus exactly when the list is empty; `next` always lands in range and from nothing on 0; `prev` lands in range from nothing or a bounded focus, and from nothing on the last item |
| FocusCursor.Invalid | src/keybinding.ts:94-96 | definition: the numeric setter refuses a negative index, one beyond the length, and any index over an empty list; the length itself is accepted |
| FocusCursor.SetFocus | src/keybinding.ts:86-104 | a direction moves; a valid index is stored (including `n`); an invalid one keeps the focus in this variant and clears it in the self-healing one; no argument clears |
| FocusCursor.Heal | src/useFocus.ts:10-12 | the focus is cleared exactly when it is at or beyond the list's end, and kept otherwise |
| FocusCursor.PrevUndoesNext | src/keybinding.ts:75-82 | `prev` after `next` returns to a valid index |
| FocusCursor.NextUndoesPrev | src/keybinding.ts:75-82 | `next` after `prev` returns to a valid index |
| FocusCursor.MovesAdd | src/keybinding.ts:75-82 | moves in one direction compose |
| FocusCursor.ForwardWithin | src/keybinding.ts:75-78 | `k` forward moves that stay before the end count up by `k` |
| FocusCursor.BackwardWithin | src/keybinding.ts:79-82 | `k` backward moves that stay after the start count down by `k` |
| FocusCursor.FullCircle | src/keybinding.ts:75-82 | `n` moves in either direction from any valid index return to it |
| FocusCursor.SelfHealingStaysBounded | src/useFocus.ts:10-47 | in the self-healing variant every setter call and every heal keeps the focus at most `n`, and every move lands inside a non-empty list |
| FocusCursor.LenientStaleFocus | src/keybinding.ts:79-82 | without a heal, a focus of 5 over 3 items moves back to 4, still out of range |
| FocusCursor.Cursor.constructor | src/useFocus.ts:9 | the focus starts empty |
| FocusCursor.Cursor.Move | src/useFocus.ts:14-29 | the new focus is `Moved` of the old one |
| FocusCursor.Cursor.ExternalSetFocus | src/useFocus.ts:31-49 | the new focus is `SetFocus` of the old one for the cursor's variant |
| FocusCursor.Cursor.ItemsChanged | src/useFocus.ts:10-12 | the self-healing variant heals the focus against the new length; the other keeps it |
| StateMap.JsMap.constructor | packages/app/src/useMap.ts:8 | `new Map(entries)` holds the given entries |
| StateMap.JsMap.Set | packages/app/src/useMap.ts:8 | `set` overwrites the key's entry in place |
| StateMap.JsMap.Delete | packages/app/src/useMap.ts:9 | `delete` removes the key's entry in place |
| StateMap.UseMap.constructor | packages/app/src/useMap.ts:7 | the state starts as a fresh empty map |
| StateMap.UseMap.Put | packages/app/src/useMap.ts:8 | the new state is a fresh map where the key has the value (last write wins), every other key is unchanged, and the old map was changed the same way |
| StateMap.UseMap.Del | packages/app/src/useMap.ts:9 | the new state is a fresh map without the key, every other key is unchanged, and the old map was changed the same way |
| Sources.IsSource | src/sources.ts:10-13 | definition: `id`, `name` and `url` are all strings |
| Sources.AsSource | src/sources.ts:10-13 | the typed record carries the object's three string properties |
| Sources.SourceObjectIsSource | src/sources.ts:10-13 | an object with string `id`, `name` and `url` passes `isSource` and reads back as the same record |
| Sources.Insert | src/sources.ts:18 | inserting adds exactly one element to the multiset |
| Sources.SortByName | src/sources.ts:18 | the sort is a permutation of its input |
| Sources.InsertSorted | src/sources.ts:18 | under a total preorder, inserting into a sorted list keeps it sorted |
| Sources.SortByNameSorted | src/sources.ts:18 | under a total preorder, the sort orders the names |
| Sources.Typed | src/sources.ts:16-17 | the typed view has one record per element, in order |
| Sources.ValidSources | src/sources.ts:15-19 | a non-array or any invalid element gives `[]`; otherwise the result is a permutation of the typed records |
| Sources.ValidSourcesSorted | src/sources.ts:15-19 | the accepted list is sorted by name under any total preorder |
| Sources.ValidSourcesFromDocument | src/sources.ts:15-19 | every accepted source is one of the document's valid records |
| SourcesIndex.ParsedName | packages/app/makeSourcesIndex.js:22 | the name is a prefix of the file name; it is the whole name when no dot follows the first character, and otherwise it stops at the last dot |
| SourcesIndex.SourceId | packages/app/makeSourcesIndex.js:24 | the id is as long as the name |
| SourcesIndex.SourceIdChars | packages/app/makeSourcesIndex.js:24 | the id is the lower-cased name with only the first space turned into a dash |
| SourcesIndex.Record | packages/app/makeSourcesIndex.js:21-27 | the record's name is the parsed name, its id is derived from it, and its url is `assets/<sub>/<file>` with the extension kept |
| SourcesIndex.Visible | packages/app/makeSourcesIndex.js:19-20 | the kept names are exactly the listed names that do not start with a dot |
| SourcesIndex.Index | packages/app/makeSourcesIndex.js:19-28 | one record per visible file, the i-th record built from the i-th visible file |
| SourcesIndex.VisibleConcat | packages/app/makeSourcesIndex.js:19-20 | the filter distributes over concatenation |
| SourcesIndex.IndexConcat | packages/app/makeSourcesIndex.js:17-28 | the index keeps the listing's order (the listing is never sorted) |
| SourcesIndex.IndexSingle | packages/app/makeSourcesIndex.js:19-27 | a hidden file gives no record and any other file exactly one |
| SourcesIndex.Run | packages/app/makeSourcesIndex.js:5-31 | a wrong argument count ends in the usage exit; otherwise a failed read ends in exit 2; otherwise the index of the listed folder is written |
| SourcesIndex.UsageIgnoresFileSystem | packages/app/makeSourcesIndex.js:7-10 | with a wrong argument count the outcome is exit 1 whatever the file system holds |
| SourcesIndex.SourceObject | packages/app/makeSourcesIndex.js:23-27 | the JSON object of a record passes `isSource` and reads back as the record |
| SourcesIndex.IndexIsAccepted | packages/app/makeSourcesIndex.js:30 | the written index is accepted by the source list, which holds the same records reordered |
| AppHelpers.FocusTo | packages/app/src/App.tsx:64 | the focus id starts with `prefix-` and continues with the id |
| AppHelpers.FocusFrom | packages/app/src/App.tsx:65 | the result is unchanged or one marker shorter |
| AppHelpers.FocusRoundTrip | packages/app/src/App.tsx:62-66 | `from(to(id)) == id` for every id |
| AppHelpers.FocusFromForeign | packages/app/src/App.tsx:65 | an id without the marker is returned unchanged |
| AppHelpers.FocusToInjective | packages/app/src/App.tsx:64 | different ids give different focus ids |
| AppHelpers.NavigationTarget | packages/app/src/App.tsx:128-132 | the result is one of the two prefixes; it is the source prefix exactly when a focus id exists and contains `searchbar` or `source`, and with nothing focused it is the track prefix |
| AppHelpers.SourceFocusNavigatesSources | packages/app/src/App.tsx:128-132 | a focused source's id gives the source column |
| AppHelpers.TrackFocusNavigatesTracks | packages/app/src/App.tsx:128-132 | a focused track whose id mentions neither `source` nor `searchbar` gives the track column |
| AppHelpers.FindSource | packages/app/src/App.tsx:145-147 | none exactly when no source has the id; otherwise a listed source with it |
| AppHelpers.FindSourceFirst | packages/app/src/App.tsx:145-147 | the source found is the first with that id |
| AppHelpers.SourceName | packages/app/src/App.tsx:94 | none exactly when no source has the id; otherwise the name of a source with it |
| AppHelpers.Tracks | packages/app/src/App.tsx:91-107 | definition: the reduce over the channel entries, the last entry applied last, a channel kept only when its id names a source with a non-empty name; its facts are `AppHelpers.TracksNamed`, `TracksCovers`, `TracksLastWins`, `TracksEntry` and `TracksKeys` |
| AppHelpers.TracksNamed | packages/app/src/App.tsx:91-107 | every track is keyed by its own id, comes from a listed channel and carries the non-empty name of its source |
| AppHelpers.TracksCovers | packages/app/src/App.tsx:91-107 | every channel whose id names a source with a non-empty name has a track |
| AppHelpers.TracksLastWins | packages/app/src/App.tsx:91-107 | a named channel that no later channel shares its id with has a track with its own url and volume |
| AppHelpers.TracksEntry | packages/app/src/App.tsx:91-107 | for distinct channel ids, each named channel's track has that channel's url and volume |
| AppHelpers.TracksKeys | packages/app/src/App.tsx:91-107 | the track ids are exactly the ids of named channels |
| AppHelpers.WithFocusedTrackDo | packages/app/src/App.tsx:134-140 | the callback runs at most once, exactly when a focus exists and the stripped id has a track, and with that id |
| AppHelpers.FocusedTrackActedOn | packages/app/src/App.tsx:134-140 | a focused existing track is acted on with its own id |
| AppHelpers.WithFocusedSourceDo | packages/app/src/App.tsx:142-150 | the callback gets only a listed source whose id is the stripped focus id, and is skipped only when none has it |
| AppHelpers.FocusedSourceActedOn | packages/app/src/App.tsx:142-150 | a focused listed source is acted on |
| AppHelpers.FilteredSources | packages/app/src/App.tsx:120 | an empty query gives every source; any other gives the search results |
| AppHelpers.EmptyQueryActsOnAll | packages/app/src/App.tsx:120 | with an empty query every focused source can be acted on |
| AppHelpers.TrackColumn | packages/app/src/App.tsx:382-387 | the column has the length of the longer list, the tracks first and placeholders filling the rest in order |
| AppHelpers.ColumnStartsWithTracks | packages/app/src/App.tsx:276 | with the seven placeholders the column has at least seven rows and starts with the tracks |

## Left out

- Event capture (`useKeyPress`) is an input here. An `Option<KeyPress>` parameter stands for the latest key-down, cleared on key-up.
- Rendering, layout, the mobile probes and the `Focusable` components are left out. They are UI without logic to prove.
- The mixer, sound engine, session storage, `sessionRepo` and `isTrack` are left out. They wrap audio playback, floating-point volume and storage I/O.
- Fuzzy search (`search`, the Fuse index) is a foreign library. Its results are a parameter of `AppHelpers.FilteredSources`.
- The effects inside the page's `keyBindingActions` are left out. They call the page's focus manager and the mixer, which are not part of this model.
- `./consts`, `packages/keybinding/src/keybinding` and `packages/app/src/useFocus` are not part of this model:
  - the registry takes its code list as a parameter;
  - the dispatch step reuses the visible `match`;
  - the page's focus ids are plain optional strings.
- Reading the folder and writing standard output in the index generator are I/O:
  - the listing is a parameter of `SourcesIndex.Run`;
  - the output is the records that would be serialised, not the JSON text.
- `Sources.SortByName`:
  - It does not state that the sort is stable.
  - The in-place reordering of the imported array is modelled as a function on the sequence.
  - `localeCompare` is an arbitrary total preorder on names.
- `Sources.ValidSources` does not model a `null` element, on which the source's property access throws. Other primitive elements read as objects without properties.
- `SourcesIndex.SourceId` lower-cases only the letters A to Z. There is no locale-aware Unicode case mapping.
- `SourcesIndex.ParsedName` agrees with `path.parse` on every name the filter keeps. It differs only on names such as `..` that start with a dot, and the filter drops those before parsing.
- `FocusCursor.SetFocus` takes integer indices. A fractional or `NaN` argument is not modelled.
- `Dispatch.Decide` treats an entry in the action table as truthy, since every entry is a function.
- Handler bodies are labels (`Action`). `Dispatch.Dispatcher.Effect` logs which one ran, not what it does.
- `AppHelpers.TracksEntry` states the url and volume of each track only for distinct channel ids, which `Object.entries` guarantees. The volume is an opaque type parameter.
- `LearnedBindings.Learner.SetBindings` can install a list that breaks the one-record-per-code-and-target invariant. The other methods therefore promise only to preserve that invariant.
- `AppHelpers.Tracks` is a finite map, so the insertion order of `Object.values` that the track list and its column follow is not modelled. `AppHelpers.TrackColumn` therefore takes the rendered tracks as a parameter.
- `StateMap.UseMap.Put` models the map as a finite map. It does not capture the insertion order of a JavaScript `Map`.
- React's state batching and closures over earlier renders are not modelled: each setter takes effect on the spot.
