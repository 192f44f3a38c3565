# arweave-components, modelled in Dafny

This project models the logic at the heart of the arweave-components
repository: a drag-and-drop page builder for React components, plus a set of
Arweave/AO widgets that come with in-browser simulators. The model covers:

- **The composition store** (`useBuilder`). One state record holds:
  - a flat component list;
  - a selection;
  - the drop zones with their ordered children.
  The store's six callbacks replace this record. It is `UseBuilder.Store`, a
  class whose methods are specified by the pure transitions in module
  `Composition`.
- **The builder page** (`Builder.tsx`), in module `BuilderPage`:
  - the page's own selected id;
  - selection look-up;
  - drops, and clearing the selection on remove;
  - dotted-path property editing; the page's loop is
    `PropertyPath.SetPropertyPath`, proved against `PropertyPath.SetPath`;
  - the default-prop overlay;
  - the fallbacks for unknown types;
  - the generated component code;
  - the FlowingMenu item edits;
  - the comma-separated list fields.
- **The project generator** (`generateProjectFiles`): a ten-file scaffold,
  then one stub file per distinct component type, never a path twice.
- **The Lua simulators**:
  - the leaderboard's `submit_score` and `get_leaderboard`;
  - the profile table's `create_profile`, `get_profile` and
    `get_profile_by_address`.
- **The mock AO process registry** (`arweaveUtils.ts`), with its
  "Process not found" and "Handler not found" errors.
- **The tag and topic editors and the spawn/dry-run guards**:
  - `ProcessSpawner`, with its gateway retry that tries each of three
    gateways once;
  - `ArweaveForm`;
  - `PermawebAtomicAsset`;
  - the process-id extraction cascade of `AOSpawner`.

How the model represents the source:

- **Objects.** JavaScript objects are ordered association lists
  (`Assoc`, over `seq<(string, V)>`). Assignment keeps an existing key in
  place and appends a new one; `{...a, ...b}` is `Assoc.Merge`.
- **Prop values.** These are the `Json` datatype. Numbers are integers.
- **Nondeterminism.** `Date.now()` and `Math.random()` are parameters.
- **Foreign calls.** These are function-typed parameters:
  - `JSON.stringify` and `JSON.parse`;
  - the wallet's `spawn` and `dryrun`;
  - the drag payload decoder.

## Model

A row whose third column starts with a function's name (`` `Fn`: ``) is the lemma or method whose contract states what that function does.

| member | source | states |
|---|---|---|
| Composition.Initial | src/hooks/useBuilder.ts:7-11 | the initial record has no components, no selection, and exactly one zone: `root`, with no parent and no children |
| Composition.RandomSuffix | src/hooks/useBuilder.ts:17 | the random part of an id has at most 6 characters and, for a base-36 fraction, no dash |
| Composition.UniqueIdRoundTrip | src/hooks/useBuilder.ts:18 | an id `<descriptor>-<timestamp>-<suffix>` splits back into descriptor id, timestamp and suffix (at the last two dashes) |
| Composition.DistinctTimestampsDistinctIds | src/hooks/useBuilder.ts:16-18 | equal ids imply equal descriptor ids, timestamps and suffixes, so placements at different times get different ids |
| Composition.Placed | src/hooks/useBuilder.ts:18-23 | the placed instance copies name, type and props from the descriptor; its id is descriptor id, timestamp and random suffix joined by dashes |
| Composition.AppendToZone | src/hooks/useBuilder.ts:25-33 | every zone with the target id gets the instance appended at the end; every other zone is left as it was; zone ids and parents are unchanged |
| Composition.AddComponent | src/hooks/useBuilder.ts:13-41 | the instance is always appended to the flat list, even when no zone matches; it goes into the matching zones; the selection is unchanged |
| Composition.AddToMissingZoneDesyncs | src/hooks/useBuilder.ts:25-38 | adding to a zone id that does not exist still grows the flat list, while the root's children stay empty |
| Composition.Without | src/hooks/useBuilder.ts:45-47 | the filter keeps exactly the components with another id; an absent id leaves the list unchanged |
| Composition.WithoutAppend | src/hooks/useBuilder.ts:45-50 | filtering distributes over concatenation, so the survivors keep their relative order |
| Composition.RemoveFromZones | src/hooks/useBuilder.ts:48-51 | every zone's children are filtered by the id; zone ids and parents are unchanged |
| Composition.ClearIfSelected | src/hooks/useBuilder.ts:57-60 | the selection becomes null exactly when it was null or had the removed id; otherwise it is kept |
| Composition.RemoveComponent | src/hooks/useBuilder.ts:43-63 | removal filters the flat list and every zone, and clears the selection when it is the removed id |
| Composition.RemoveLeavesNoTrace | src/hooks/useBuilder.ts:43-63 | after removal the id is in no list, no zone and not in the selection |
| Composition.RemoveIdempotent | src/hooks/useBuilder.ts:43-63 | removing the same id a second time changes nothing |
| Composition.RemoveUndoesAdd | src/hooks/useBuilder.ts:13-63 | adding an instance whose id is new and then removing that id restores the state exactly |
| Composition.SelectComponent | src/hooks/useBuilder.ts:65-70 | the selection is replaced, with no existence check, and nothing else changes |
| Composition.FindZone | src/hooks/useBuilder.ts:95 | the `find` result is a zone with that id, or nothing exactly when no zone has it |
| Composition.IndexOfId | src/hooks/useBuilder.ts:98 | `findIndex` gives the first position holding the id, or nothing exactly when no child has it |
| Composition.Target | src/hooks/useBuilder.ts:101-102 | the new index stays inside the list; there is none exactly when moving the first item up or the last item down |
| Composition.MovedChildren | src/hooks/useBuilder.ts:98-106 | an id that is not among the root's children gives no move |
| Composition.SpliceMove | src/hooks/useBuilder.ts:104-106 | the two splices keep the length, put the moved item at the new index, and leave the other items in their old relative order |
| Composition.SpliceMovePermutes | src/hooks/useBuilder.ts:104-106 | the two splices only rearrange the list, which stays a permutation |
| Composition.SpliceMoveUp | src/hooks/useBuilder.ts:104-106 | moving item i to i-1 swaps it with its predecessor, keeping everything else in place |
| Composition.SpliceMoveDown | src/hooks/useBuilder.ts:104-106 | moving item i to i+1 swaps it with its successor, keeping everything else in place |
| Composition.ReplaceRootChildren | src/hooks/useBuilder.ts:108-110 | the root zones get the new children; the other zones are unchanged |
| Composition.MoveComponent | src/hooks/useBuilder.ts:93-118 | without a root zone, or with an id not among root's children, the state is returned unchanged; the selection and the zone ids are never changed |
| Composition.ValidRoot | src/hooks/useBuilder.ts:7-11 | in the shape the hook creates, the root is found and its children are the root children |
| Composition.MoveInValid | src/hooks/useBuilder.ts:93-118 | a move either returns the state unchanged, or writes the moved list to both the root zone and the flat list |
| Composition.MovePermutes | src/hooks/useBuilder.ts:104-116 | a move permutes the root's children, and a move that changes anything makes the flat list equal to them |
| Composition.MoveAtEdgeIsNoOp | src/hooks/useBuilder.ts:101-102 | the first child moved up and the last child moved down both leave the state unchanged |
| Composition.MovedUp | src/hooks/useBuilder.ts:98-106 | moving the first item with its id up gives `[..B, A..]` from `[..A, B..]` |
| Composition.MovedDown | src/hooks/useBuilder.ts:98-106 | moving the first item with its id down swaps it with its successor |
| Composition.MoveUpSwaps | src/hooks/useBuilder.ts:93-118 | at state level, moving up swaps the item with its predecessor in the root zone and in the flat list |
| Composition.MoveDownMatchesUp | src/hooks/useBuilder.ts:93-118 | moving item i down is the same as moving item i+1 up |
| Composition.MovedUpThenDown | src/hooks/useBuilder.ts:98-106 | at list level, moving an item up and then down restores the list |
| Composition.SwapTwice | src/hooks/useBuilder.ts:104-106 | swapping the same two neighbours twice gives the original list |
| Composition.MoveUpThenDown | src/hooks/useBuilder.ts:93-118 | up(B) followed by down(B) restores the root's order and makes the flat list equal to it |
| Composition.SpliceStart | src/hooks/useBuilder.ts:78 | the `splice` start of an index inside the list is that index, and a negative index counts from the end |
| Composition.ReorderComponents | src/hooks/useBuilder.ts:72-91 | without a root zone nothing changes, whatever the indices; otherwise the new children are `SpliceMove` of the old ones at the `fromIndex` and `toIndex` normalised as `splice` does (negative counts from the end), so the child taken at `fromIndex` lands at `toIndex` and the other children keep their relative order; the flat list is overwritten with the root's new children, a permutation of the old ones; the selection is kept |
| Composition.FirstRootReplaced | src/hooks/useBuilder.ts:81-87 | after the root's children are replaced, the first root zone holds the new children |
| Composition.UpdateChildren | src/hooks/useBuilder.ts:124-128 | each child with the id has the patch merged into its props; the other children and all ids are unchanged |
| Composition.UpdateComponent | src/hooks/useBuilder.ts:120-136 | the flat list and the selection are never touched; every zone's children are updated |
| Composition.UpdateMergesProps | src/hooks/useBuilder.ts:126 | after an update, patch keys win and other keys keep their values; instances with other ids keep their props; id, name and type never change |
| Composition.UpdateUnknownIsNoOp | src/hooks/useBuilder.ts:120-136 | updating an id that no zone holds changes nothing |
| Composition.TransitionsKeepValid | src/hooks/useBuilder.ts:13-136 | add, remove, select, move and update all keep the single parentless root zone |
| Composition.ReorderKeepsValid | src/hooks/useBuilder.ts:72-91 | reordering keeps the single parentless root zone |
| Composition.IdsWithout | src/hooks/useBuilder.ts:45-50 | two lists with the same ids still have the same ids after being filtered by an id |
| Composition.SyncedPreserved | src/hooks/useBuilder.ts:13-136 | when the flat list and the root hold the same ids in the same order, adding to root, removing, selecting, moving and updating all keep it that way |
| Composition.ScenarioSingleButton | src/app/page.tsx:23-621 | a catalogue button placed, moved down (no-op) and removed: its id is `button-1-42-k3j9x2` and everything ends up empty |
| Composition.ScenarioThree | src/hooks/useBuilder.ts:93-118 | with A, B and C at root, C moved up gives A, C, B, and then A moved up changes nothing |
| UseBuilder.Store.constructor | src/hooks/useBuilder.ts:7-11 | the store starts from the initial record |
| UseBuilder.Store.AddComponent | src/hooks/useBuilder.ts:13-41 | the new record is `Composition.AddComponent` of the old one, and the one-root shape is kept |
| UseBuilder.Store.RemoveComponent | src/hooks/useBuilder.ts:43-63 | the new record is `Composition.RemoveComponent` of the old one, and the shape is kept |
| UseBuilder.Store.SelectComponent | src/hooks/useBuilder.ts:65-70 | the new record is `Composition.SelectComponent` of the old one |
| UseBuilder.Store.ReorderComponents | src/hooks/useBuilder.ts:72-91 | the new record is `Composition.ReorderComponents` of the old one, and the shape is kept |
| UseBuilder.Store.MoveComponent | src/hooks/useBuilder.ts:93-118 | the new record is `Composition.MoveComponent` of the old one, and the shape is kept |
| UseBuilder.Store.UpdateComponent | src/hooks/useBuilder.ts:120-136 | the new record is `Composition.UpdateComponent` of the old one, and the shape is kept |
| BuilderPage.FindById | src/components/Builder.tsx:1798-1800 | `find` by id returns the instance at the first position holding the id |
| BuilderPage.GetSelectedComponent | src/components/Builder.tsx:1819-1824 | null exactly when no id is selected, the id is empty, or no zone holds it; otherwise an instance with that id taken from the zones |
| BuilderPage.PropertyChange | src/components/Builder.tsx:1797-1816 | the flat list, selection and zone ids are never changed; an id absent from every zone leaves the state unchanged |
| BuilderPage.PropertyChangeOnFirstMatch | src/components/Builder.tsx:1797-1816 | on the first matching instance, the dotted path reads back the value set, and every path that branches off it reads what it read before |
| BuilderPage.PropertyChangeStores | src/components/Builder.tsx:1803-1815 | the instance's new props are its old props spread with the edited top-level copy |
| BuilderPage.MergedEditReads | src/components/Builder.tsx:1803-1815 | spreading the edited copy over the old props reads back the value at the path and keeps divergent paths |
| BuilderPage.PropertyChangeBlocked | src/components/Builder.tsx:1805-1813 | when the path walks into a truthy non-object (the source throws), the state is unchanged |
| BuilderPage.SocialLinkCreatesObject | src/components/Builder.tsx:1027 | editing `socialLinks.<link>` with no `socialLinks` object creates one holding just that link |
| BuilderPage.PreviewOverlay | src/components/Builder.tsx:355 | `PreviewProps` over `DefaultProps`: every key of the preview props comes from the instance when it has it, otherwise from the type's defaults, and is absent when a type has no defaults |
| BuilderPage.PreviewWithoutDefaults | src/components/Builder.tsx:355 | a type without a defaults entry previews exactly its own props |
| BuilderPage.PreviewKeyOrder | src/components/Builder.tsx:355 | the overlay's key order is the defaults' keys, then the instance's keys that are new |
| BuilderPage.Render | src/components/Builder.tsx:357-428 | an unknown type renders as its name only; known types render the widget of their own type |
| BuilderPage.RenderShowsPreview | src/components/Builder.tsx:357-428 | an ordinary known type is drawn with the overlaid preview props |
| BuilderPage.GridDistortionImage | src/components/Builder.tsx:367-368 | GridDistortion's image source is `''` unless the props supply one |
| BuilderPage.PanelFields | src/components/Builder.tsx:588-1557 | a panel exists exactly for a known type, except a Header without `ctaButton`; the wallet panel shows the display-length field exactly when `showAddress` is truthy |
| BuilderPage.PropLine | src/components/Builder.tsx:75-90 | a prop renders as `key="v"` for strings, `key={JSON}` for objects (null and arrays included), and `key={v}` otherwise |
| BuilderPage.PropLines | src/components/Builder.tsx:77-88 | there is one line per prop, in insertion order |
| BuilderPage.FullComponentCode | src/components/Builder.tsx:75-90 | the code is the fixed import/JSX head for the type, then the prop block, then the fixed tail |
| BuilderPage.CodeLinesRecoverProps | src/components/Builder.tsx:75-90 | splitting the prop block on newlines gives back one line per prop, each starting with `  key=` in prop order |
| BuilderPage.CodeWithoutProps | src/components/Builder.tsx:75-90 | a component with no props yields the template with an empty block |
| BuilderPage.MenuItems | src/components/Builder.tsx:1238-1248 | `[...(items \|\| [])]` is the items array, or empty when `items` is falsy; it fails exactly for a truthy non-array, on which the panel's `.map` throws |
| BuilderPage.EditMenuItem | src/components/Builder.tsx:1247-1281 | editing field f of item i sets that field alone, keeps the item's other fields, and keeps every other item |
| BuilderPage.RemoveMenuItem | src/components/Builder.tsx:1286-1290 | remove drops index i only, keeping the order of the rest |
| BuilderPage.AddMenuItem | src/components/Builder.tsx:1298-1305 | add appends exactly one default item and keeps the others |
| BuilderPage.RemoveUndoesAddMenuItem | src/components/Builder.tsx:1286-1305 | removing the item just added gives the original list |
| BuilderPage.EditMenuItemSameValue | src/components/Builder.tsx:1247-1281 | setting a field to the value it already holds changes nothing |
| BuilderPage.CommaEdit | src/components/Builder.tsx:778 | splitting on `,` and trimming gives one trimmed, comma-free entry per piece |
| BuilderPage.CommaEditEmpty | src/components/Builder.tsx:1497 | an empty field edits to `[""]` |
| BuilderPage.CommaRoundTrip | src/components/Builder.tsx:777-778 | `CommaDisplay` then `CommaEdit`: a list of trimmed, comma-free strings displayed and edited back is unchanged |
| BuilderPage.Drop | src/components/Builder.tsx:1758-1769 | an empty payload adds nothing; a decoded payload is added to the target zone; the dragged component is cleared |
| BuilderPage.RemoveComponent | src/components/Builder.tsx:1785-1791 | the page's selection becomes null exactly when it was null or was the removed id; otherwise it is kept |
| BuilderPage.RemoveSelectedClearsSelection | src/components/Builder.tsx:1785-1791 | after removing the selected id, the local selection and the lookup are both null |
| BuilderPage.RemovedIdNeverSelected | src/components/Builder.tsx:1819-1824 | after a removal, the lookup never returns an instance with the removed id |
| BuilderPage.EmptyDropAddsNothing | src/components/Builder.tsx:1916-1919 | a drop with an empty payload adds nothing, and the canvas drop still clears the selection |
| BuilderPage.CanvasDropTargetsRoot | src/components/Builder.tsx:1916-1919 | `CanvasDrop`: a canvas drop appends the placed instance to the end of root and clears the selection |
| BuilderPage.PanelNeedsSelection | src/components/Builder.tsx:1970-1972 | `PanelPropertyChange`: without a (truthy) selected id, panel edits do nothing |
| BuilderPage.ShowCodeSelects | src/components/Builder.tsx:1793-1795 | `ShowCode`: showing an instance's code makes it the one the panel looks up |
| BuilderPage.Builder.constructor | src/components/Builder.tsx:1745-1748 | the page starts with the initial store, nothing selected and nothing dragged |
| BuilderPage.Builder.HandleDragStart | src/components/Builder.tsx:1750-1756 | the payload is the component's serialisation, and the dragged component is remembered |
| BuilderPage.Builder.HandleDrop | src/components/Builder.tsx:1758-1769 | the page becomes `Drop` of the old page |
| BuilderPage.Builder.HandleCanvasDrop | src/components/Builder.tsx:1916-1919 | the page becomes a drop into root with the selection cleared |
| BuilderPage.Builder.HandleMoveUp | src/components/Builder.tsx:1775-1778 | only the store changes, by a move up |
| BuilderPage.Builder.HandleMoveDown | src/components/Builder.tsx:1780-1783 | only the store changes, by a move down |
| BuilderPage.Builder.HandleRemoveComponent | src/components/Builder.tsx:1785-1791 | the page becomes `RemoveComponent` of the old page |
| BuilderPage.Builder.HandleShowCode | src/components/Builder.tsx:1793-1795 | the page's selected id becomes the given id |
| BuilderPage.Builder.HandlePropertyChange | src/components/Builder.tsx:1797-1816 | only the store changes, to `PropertyChange` of the old record, computed with the source's walk-down loop |
| BuilderPage.Builder.HandlePanelPropertyChange | src/components/Builder.tsx:1970-1972 | edits through the panel go to the selected id, and only when there is one |
| BuilderPage.Builder.HandleCardPropertyChange | src/components/Builder.tsx:1943-1946 | `CardPropertyChange`: edits on a canvas card go to that card's id, and only when it is non-empty |
| BuilderPage.Builder.SelectedComponent | src/components/Builder.tsx:1819-1824 | returns the lookup of the page's own selected id in the store's zones |
| PropertyPath.Enter | src/components/Builder.tsx:1806-1811 | a missing or falsy segment becomes `{}`; an object is entered; the walk fails exactly on a truthy non-object |
| PropertyPath.SetPath | src/components/Builder.tsx:1804-1815 | a successful edit only adds the first segment's key when it is new, and changes no other top-level key |
| PropertyPath.SetPathThenRead | src/components/Builder.tsx:1804-1815 | after an edit, the path reads back the value that was set |
| PropertyPath.SetPathKeepsSiblings | src/components/Builder.tsx:1804-1815 | every path that diverges from the edited one reads the same before and after, so siblings are kept at every level |
| PropertyPath.SetPathCreatesIntermediate | src/components/Builder.tsx:1806-1808 | a missing or falsy intermediate segment is replaced by a new object holding just the leaf |
| PropertyPath.SetPathBlocked | src/components/Builder.tsx:1805-1811 | walking into a truthy non-object fails |
| PropertyPath.SetPathUnique | src/components/Builder.tsx:1804-1815 | the edited props still have distinct keys |
| PropertyPath.SetPropertyPath | src/components/Builder.tsx:1803-1815 | the two-phase walk (down through `current`, then assigning upwards) computes exactly `SetPath` |
| PropertyPath.WalkDown | src/components/Builder.tsx:1805-1811 | the loop either finds a blocked segment (and then `SetPath` fails) or records one frame per segment, from which `SetPath` is rebuilt |
| PropertyPath.CarryUp | src/components/Builder.tsx:1813-1815 | assigning each edited object into its parent, innermost first, is the rebuild of the frames |
| JsString.Split | src/components/Builder.tsx:1804 | `split` gives at least one piece, and no piece holds the separator |
| JsString.JoinSplit | src/components/Builder.tsx:777-778 | joining a split with the same separator gives the string back |
| JsString.SplitJoin | src/components/Builder.tsx:777-778 | splitting a join of separator-free pieces gives the pieces back |
| JsString.TrimProperties | src/components/Builder.tsx:778 | `trim` yields a trimmed string and leaves a trimmed one unchanged |
| JsString.Substring | src/hooks/useBuilder.ts:17 | `substring` within bounds is the slice, and is never longer than the string |
| JsString.NatToString | src/hooks/useBuilder.ts:18 | the timestamp renders as a non-empty string of decimal digits |
| JsString.DigitsRoundTrip | src/hooks/useBuilder.ts:18 | reading back a rendered number gives the number |
| JsString.NatToStringInjective | src/utils/arweaveUtils.ts:17 | distinct numbers render as distinct strings |
| JsString.ToInteger | src/components/Leaderboard.tsx:213-214 | after the surrounding white space is trimmed: a blank string is 0; digits, optionally after `-` or `+`, convert to their signed value; anything else is `NaN` (`None`), and it is `NaN` exactly then |
| JsString.ParseNumeral | src/components/Leaderboard.tsx:213-214 | on a trimmed string: empty is 0, digits with an optional `-` or `+` are their signed value, and exactly every other string is `NaN` (`None`) |
| JsString.ToIntegerRoundTrip | src/components/Leaderboard.tsx:213 | reading back the decimal rendering of any integer, negative ones included, gives that integer |
| ProjectGenerator.Scaffold | src/utils/projectGenerator.ts:13-247 | ten files, the last being `page.tsx` with the serialised component list inside |
| ProjectGenerator.ScaffoldFacts | src/utils/projectGenerator.ts:13-247 | the scaffold paths are package.json, tsconfig.json, tailwind, postcss, next config, README.md, .gitignore, layout, globals.css, page, in that order; they are distinct and none is a component path |
| ProjectGenerator.ComponentPathInjective | src/utils/projectGenerator.ts:252 | two types get the same component path exactly when they are the same type |
| ProjectGenerator.ScaffoldIsNoComponent | src/utils/projectGenerator.ts:252 | no scaffold path is of the form `src/components/<type>.tsx` |
| ProjectGenerator.IndentedLines | src/utils/projectGenerator.ts:263-265 | one interface line per prop, every one but the first indented by two spaces |
| ProjectGenerator.InterfaceLines | src/utils/projectGenerator.ts:262-266 | the interface body splits into one `key: typeof value;` line per prop of the first instance, in key order |
| ProjectGenerator.SomePath | src/utils/projectGenerator.ts:255 | `files.some` on paths is true exactly when the path is already listed |
| ProjectGenerator.GenerateProjectFiles | src/utils/projectGenerator.ts:9-281 | the push-then-forEach loop emits exactly the scaffold followed by the model's per-type component files |
| ProjectGenerator.FirstIndicesSound | src/utils/projectGenerator.ts:250-255 | only components that are the first of their type get a file, in increasing order |
| ProjectGenerator.FirstIndicesComplete | src/utils/projectGenerator.ts:250-255 | every component that is the first of its type gets a file |
| ProjectGenerator.HasFirst | src/utils/projectGenerator.ts:250-255 | every component shares its type with one that got a file |
| ProjectGenerator.FilesFor | src/utils/projectGenerator.ts:258-278 | `ComponentFile`, once per index: one stub file per index, typed after that component's props |
| ProjectGenerator.EmittedShape | src/utils/projectGenerator.ts:250-255 | `Emitted`: after n components the list is the scaffold followed by the files of the first-of-type components among them |
| ProjectGenerator.EmittedNew | src/utils/projectGenerator.ts:252-260 | a type met for the first time appends its file |
| ProjectGenerator.EmittedSeen | src/utils/projectGenerator.ts:255 | a type met before is skipped |
| ProjectGenerator.TypesBeforeMembers | src/utils/projectGenerator.ts:250-255 | a type is counted exactly when some component has it |
| ProjectGenerator.FirstIndicesCount | src/utils/projectGenerator.ts:250-255 | there are as many component files as distinct types |
| ProjectGenerator.GeneratedFiles | src/utils/projectGenerator.ts:9-281 | the output has 10 + (distinct types) files and starts with the fixed scaffold; `page.tsx` embeds the whole component list, duplicates included; all paths are pairwise distinct |
| ProjectGenerator.DistinctPaths | src/utils/projectGenerator.ts:255 | the emitted list never holds a path twice |
| ProjectGenerator.DistinctTypesOneFileEach | src/utils/projectGenerator.ts:250-260 | without repeated types there is one component file per component, in list order |
| Leaderboard.SubmitReply | src/components/Leaderboard.tsx:96-116 | `SubmitScoreHandler`: `submit_score` fails with 'Missing player or score' exactly when the player is missing or empty or the score is undefined, and then the table is unchanged; otherwise the reply is 'Score submitted' |
| Leaderboard.SubmitEffect | src/components/Leaderboard.tsx:104-111 | the player's score is replaced exactly when there is no entry, the stored score is 0, or it is lower; other players are untouched |
| Leaderboard.ScoresNeverDecrease | src/components/Leaderboard.tsx:108-111 | a stored non-zero score never decreases, and no entry disappears |
| Leaderboard.SubmitUnique | src/components/Leaderboard.tsx:104-111 | the table keeps one entry per player |
| Leaderboard.InsertPermutation | src/components/Leaderboard.tsx:129 | inserting into the sorted list adds exactly that entry |
| Leaderboard.InsertSorted | src/components/Leaderboard.tsx:129 | `Insert`: inserting into a descending list keeps it descending |
| Leaderboard.SortDescSorted | src/components/Leaderboard.tsx:129 | the sort orders by score, descending, and keeps the length |
| Leaderboard.SortDescPermutation | src/components/Leaderboard.tsx:129 | the sort neither adds, drops nor alters an entry |
| Leaderboard.SliceEnd | src/components/Leaderboard.tsx:133 | `slice(0, limit)` stops at min(limit, length) for a non-negative limit |
| Leaderboard.LeaderboardTop | src/components/Leaderboard.tsx:119-136 | `GetLeaderboard`, via `SortDesc`: the result has min(limit, players) entries (the limit defaults to 10), is sorted descending, is a prefix of the sorted table, and holds only stored entries |
| Leaderboard.LeaderboardAll | src/components/Leaderboard.tsx:119-136 | a limit of at least the number of players shows every entry |
| Leaderboard.ExecuteReads | src/components/Leaderboard.tsx:119-141 | `Execute`: `get_leaderboard` and unknown handlers never change scores; an unknown handler gives 'Unknown handler: <name>' |
| Leaderboard.DryRunExpected | src/components/Leaderboard.tsx:290-296 | the dry run's five submissions and the read give Charlie 150, Alice 120, Bob 85, with the higher score updating and the lower one not |
| Leaderboard.DryRunFirst | src/components/Leaderboard.tsx:291 | Alice's first 100 is stored |
| Leaderboard.DryRunSecond | src/components/Leaderboard.tsx:292 | Bob's 85 is added after Alice |
| Leaderboard.DryRunThird | src/components/Leaderboard.tsx:293 | Charlie's 150 is added after Bob |
| Leaderboard.DryRunFourth | src/components/Leaderboard.tsx:294 | Alice's 120 replaces her 100 |
| Leaderboard.DryRunFifth | src/components/Leaderboard.tsx:295 | Bob's 75 leaves his 85 |
| Leaderboard.DryRunFinalRead | src/components/Leaderboard.tsx:296 | the final `get_leaderboard` replies Charlie 150, Alice 120, Bob 85 and leaves the table alone |
| Leaderboard.DryRunRead | src/components/Leaderboard.tsx:296 | the final read lists Charlie, Alice, Bob |
| Leaderboard.ValidateSubmission | src/components/Leaderboard.tsx:207-217 | an empty name, an empty score, or a score that is not a number is rejected before any submission; otherwise the numeric score is passed on |
| Leaderboard.Simulator.constructor | src/components/Leaderboard.tsx:71-81 | the component starts with no scores, empty fields and the given display limit |
| Leaderboard.Simulator.SimulateLuaExecution | src/components/Leaderboard.tsx:89-149 | the reply and the new table are `Execute` of the old table; no other field changes |
| Leaderboard.Simulator.FetchLeaderboard | src/components/Leaderboard.tsx:151-170 | the shown board is the top `displayLimit` entries of the table |
| Leaderboard.Simulator.SubmitScore | src/components/Leaderboard.tsx:207-236 | a rejected input only sets the message; an accepted one submits, clears both fields, shows 'Score submitted' and refreshes the board |
| PermawebProfile.OrEmpty | src/components/PermawebProfile.tsx:235-237 | `x \|\| ""` is "" for an absent or empty value, and otherwise the value |
| PermawebProfile.CreateErrors | src/components/PermawebProfile.tsx:224-229 | no caller gives 'Must be authenticated'; a missing username or displayName gives 'Username and displayName are required'; errors leave the table unchanged; success happens exactly otherwise |
| PermawebProfile.CreateStores | src/components/PermawebProfile.tsx:230-250 | `CreateProfile`: a create stores under the caller key, overwriting an earlier profile; id = 'profile_' + the caller's first 8 characters, owner = caller; description, thumbnail and banner default to ""; the id is returned; other addresses are untouched |
| PermawebProfile.CreateUnique | src/components/PermawebProfile.tsx:243-245 | the table keeps one entry per address |
| PermawebProfile.LastWithIdSpec | src/components/PermawebProfile.tsx:257-262 | `LastWithId`: the `forEach` leaves the last profile with the id, or null exactly when none has it |
| PermawebProfile.GetProfileSpec | src/components/PermawebProfile.tsx:253-269 | `GetProfile`: a missing id gives 'Profile ID is required'; 'Profile not found' happens exactly when no profile has the id; otherwise the result is the last one with the id |
| PermawebProfile.GetByAddressSpec | src/components/PermawebProfile.tsx:270-277 | `GetProfileByAddress`: a missing address gives 'Wallet address is required'; 'No profile found for this address' happens exactly when nothing is stored under it; otherwise the result is the stored entry |
| PermawebProfile.ExecuteReads | src/components/PermawebProfile.tsx:252-280 | only `create_profile` changes the table; an unknown handler gives 'Unknown handler: <name>' |
| PermawebProfile.CreateThenGetById | src/components/PermawebProfile.tsx:224-269 | creating a profile for a new address and then asking for its id finds that profile |
| PermawebProfile.LastIsFound | src/components/PermawebProfile.tsx:253-269 | asking for the id of the last stored profile finds that profile |
| PermawebProfile.DryRunBobId | src/components/PermawebProfile.tsx:447-463 | caller 'BOB_WALLET_ADDRESS' gets id 'profile_BOB_WALL' |
| PermawebProfile.DryRunMissingFields | src/components/PermawebProfile.tsx:464-471 | the create with missing fields fails and stores nothing |
| PermawebProfile.Simulator.constructor | src/components/PermawebProfile.tsx:115 | the simulated table starts empty |
| PermawebProfile.Simulator.FindProfile | src/components/PermawebProfile.tsx:256-262 | the `forEach` loop leaves in `foundProfile` the last profile with the id |
| PermawebProfile.Simulator.SimulateLuaExecution | src/components/PermawebProfile.tsx:202-286 | the reply and the new table are `Execute` of the old table |
| AoRegistry.FindHandler | src/utils/arweaveUtils.ts:80 | `find` returns the first handler with the name, or nothing exactly when none has it |
| AoRegistry.UnknownIdFails | src/utils/arweaveUtils.ts:37-38 | every operation on an unknown id fails with 'Process not found' and leaves the registry unchanged |
| AoRegistry.CreateStores | src/utils/arweaveUtils.ts:11-30 | `CreateProcess`: the process has id 'process-' + timestamp, the given name and description, handlers defaulting to [], and an empty state; it is stored under its id; other entries are untouched |
| AoRegistry.CreateIdsDistinct | src/utils/arweaveUtils.ts:17 | processes created at different times get different ids |
| AoRegistry.UpdateMerges | src/utils/arweaveUtils.ts:32-48 | `UpdateProcess`, via `Apply`: each field the update carries replaces the stored one; the result is stored under the same key and returned; other entries are untouched |
| AoRegistry.EmptyUpdateKeeps | src/utils/arweaveUtils.ts:40 | an empty update stores the process unchanged |
| AoRegistry.AddHandlerAppends | src/utils/arweaveUtils.ts:50-69 | `AddHandler`: the handler is appended at the end; the process's other fields and the other entries are unchanged |
| AoRegistry.AddedHandlerRuns | src/utils/arweaveUtils.ts:50-94 | a handler just added can be executed by its name |
| AoRegistry.ExecuteSpec | src/utils/arweaveUtils.ts:71-94 | `ExecuteHandler`: 'Handler not found' happens exactly when no handler has the name; otherwise the result is `success: true`, 'Mock execution of <name>', with the params echoed |
| AoRegistry.StateSpec | src/utils/arweaveUtils.ts:96-106 | `ProcessState`: the result is the stored state, or `{}` when there is none |
| AoRegistry.UpdateStateMerges | src/utils/arweaveUtils.ts:108-124 | `UpdateState`: update keys win over the old state; the merged state is stored, read back by `getProcessState`, and returned; other entries are untouched |
| AoRegistry.Mock.constructor | src/utils/arweaveUtils.ts:6 | the registry starts empty |
| AoRegistry.Mock.CreateAOProcess | src/utils/arweaveUtils.ts:11-30 | the returned process and the new registry are `CreateProcess` of the old one |
| AoRegistry.Mock.UpdateAOProcess | src/utils/arweaveUtils.ts:32-48 | the result and the new registry are `UpdateProcess` of the old one |
| AoRegistry.Mock.AddLuaHandler | src/utils/arweaveUtils.ts:50-69 | the result and the new registry are `AddHandler` of the old one |
| AoRegistry.Mock.ExecuteLuaHandler | src/utils/arweaveUtils.ts:71-94 | the result is `ExecuteHandler` on the registry, which does not change |
| AoRegistry.Mock.GetProcessState | src/utils/arweaveUtils.ts:96-106 | the result is `ProcessState` on the registry, which does not change |
| AoRegistry.Mock.UpdateProcessState | src/utils/arweaveUtils.ts:108-124 | the result and the new registry are `UpdateState` of the old one |
| ProcessSpawner.ChangeTagSpec | src/components/ProcessSpawner.tsx:110-114 | `ChangeTag`: only the named field of the tag at the index changes |
| ProcessSpawner.AddTagSpec | src/components/ProcessSpawner.tsx:116-118 | `AddTag`: one empty tag is appended and the existing ones are kept |
| ProcessSpawner.SpliceStart | src/components/ProcessSpawner.tsx:122 | the `splice` start lies within the list |
| ProcessSpawner.RemoveTagSpec | src/components/ProcessSpawner.tsx:120-124 | `RemoveTag`: only the tag at the index is deleted, the order is kept, and the result is the old multiset minus that tag |
| ProcessSpawner.RemoveTagOutside | src/components/ProcessSpawner.tsx:120-124 | an index past the end removes nothing; a negative index counts from the end |
| ProcessSpawner.RemoveAdded | src/components/ProcessSpawner.tsx:116-124 | removing the tag just added restores the list |
| ProcessSpawner.Filled | src/components/ProcessSpawner.tsx:156 | the kept tags are exactly those with a non-empty name and a non-empty value |
| ProcessSpawner.FilledAppend | src/components/ProcessSpawner.tsx:156 | the filter keeps the order |
| ProcessSpawner.OrElse | src/components/ProcessSpawner.tsx:162 | `a \|\| b` is a when a is non-empty, else b |
| ProcessSpawner.SpawnTagsSpec | src/components/ProcessSpawner.tsx:155-170 | `SpawnTags`: the kept tags come first, in order; an Authority tag (custom, else the default) follows only if none of them is one; the list always ends with `Data-Protocol: ao` |
| ProcessSpawner.SpawnRequestSpec | src/components/ProcessSpawner.tsx:140-179 | `SpawnRequest`: the module TxID is checked first, then the wallet; the request carries the module, the custom scheduler when non-empty (else the default), and the assembled tags |
| ProcessSpawner.RetrySpec | src/components/ProcessSpawner.tsx:126-138 | `Retry`: the result is the first successful attempt, or the last failure at the third gateway; every earlier attempt failed; the current gateway is set to `gateways[k]` after failure k-1 |
| ProcessSpawner.RetrySucceeds | src/components/ProcessSpawner.tsx:126-138 | from the first gateway, there is a success exactly when one of the three attempts succeeds |
| ProcessSpawner.SpawnSpec | src/components/ProcessSpawner.tsx:140-212 | `Spawn`: a rejected spawn only sets the error; otherwise loading stops, and the error is cleared exactly when an attempt returned a non-empty id, which becomes the process id |
| ProcessSpawner.Spawner.constructor | src/components/ProcessSpawner.tsx:48-57 | the panel starts with empty inputs, one empty tag, no error or process id, and the first gateway |
| ProcessSpawner.Spawner.HandleTagChange | src/components/ProcessSpawner.tsx:110-114 | the tags become `ChangeTag` of the old tags; nothing else changes |
| ProcessSpawner.Spawner.AddTagRow | src/components/ProcessSpawner.tsx:116-118 | the tags become `AddTag` of the old tags; nothing else changes |
| ProcessSpawner.Spawner.RemoveTagRow | src/components/ProcessSpawner.tsx:120-124 | the tags become `RemoveTag` of the old tags; nothing else changes |
| ProcessSpawner.Spawner.TryWithFallbackGateways | src/components/ProcessSpawner.tsx:126-138 | the recursive method's outcome and final gateway are `Retry`; only the gateway changes |
| ProcessSpawner.Spawner.HandleSpawn | src/components/ProcessSpawner.tsx:140-212 | the status becomes `Spawn` of the old status; the inputs are unchanged |
| ArweaveForm.Initial | src/components/ArweaveForm.tsx:39-44 | the tag list is exactly `[{Content-Type, application/json}]`, with no data, not submitting and nothing sent |
| ArweaveForm.Without | src/components/ArweaveForm.tsx:51 | the filter never lengthens the list |
| ArweaveForm.WithoutSpec | src/components/ArweaveForm.tsx:50-52 | an index inside the list removes that element only; any other index leaves the list unchanged |
| ArweaveForm.RemoveAdded | src/components/ArweaveForm.tsx:46-52 | removing the tag just added restores the list |
| ArweaveForm.SubmitSpec | src/components/ArweaveForm.tsx:60-77 | a submit while one is in progress does nothing; otherwise the current code, tags and data go to the callback once; the flag is cleared afterwards even on error; the form's fields never change |
| ArweaveForm.Form.constructor | src/components/ArweaveForm.tsx:39-44 | the form starts from the initial state |
| ArweaveForm.Form.HandleAddTag | src/components/ArweaveForm.tsx:46-48 | one empty tag is appended and nothing else changes |
| ArweaveForm.Form.HandleRemoveTag | src/components/ArweaveForm.tsx:50-52 | the tags are filtered by index and nothing else changes |
| ArweaveForm.Form.HandleTagChange | src/components/ArweaveForm.tsx:54-58 | only the named field of the tag at the index changes |
| ArweaveForm.Form.HandleSubmit | src/components/ArweaveForm.tsx:60-74 | the submission goes ahead exactly when none is in progress; the new state is `BeginSubmit` |
| ArweaveForm.Form.SubmitSettled | src/components/ArweaveForm.tsx:75-77 | the in-progress flag is cleared |
| AtomicAsset.AddTopicSpec | src/components/PermawebAtomicAsset.tsx:159-164 | `AddTopic`: '' is appended to the topics and every other form field is unchanged |
| AtomicAsset.RemoveTopicSpec | src/components/PermawebAtomicAsset.tsx:166-171 | `RemoveTopic`: only the topic at the index is removed, in order; an out-of-range index leaves the form unchanged |
| AtomicAsset.ChangeTopicSpec | src/components/PermawebAtomicAsset.tsx:173-180 | `ChangeTopic`: only the topic at the index is replaced |
| AtomicAsset.RemoveAddedTopic | src/components/PermawebAtomicAsset.tsx:159-171 | removing the topic just added restores the form |
| AtomicAsset.DryrunGuardOrder | src/components/PermawebAtomicAsset.tsx:279-302 | `DryrunRequest`: the wallet is checked first, then the process id, then the Lua code, each with its own message; only a request passing all three makes the call, carrying that process and code |
| AtomicAsset.DryrunSpec | src/components/PermawebAtomicAsset.tsx:279-319 | `Dryrun`: a rejected dry run only sets its error; otherwise loading stops, and the panel either keeps the result with the error cleared or shows the thrown message |
| AtomicAsset.FetchPrecedence | src/components/PermawebAtomicAsset.tsx:97-105 | `FetchChoice`: nothing is fetched without the library or a wallet; an asset id wins over a non-empty id list, which is fetched only when there is no asset id |
| AtomicAsset.AssetPanel.constructor | src/components/PermawebAtomicAsset.tsx:44-55 | the form starts with topics `['']`, content type 'text/plain' and status 'Initial Status' |
| AtomicAsset.AssetPanel.HandleAddTopic | src/components/PermawebAtomicAsset.tsx:159-164 | the form becomes `AddTopic` of the old form; nothing else changes |
| AtomicAsset.AssetPanel.HandleRemoveTopic | src/components/PermawebAtomicAsset.tsx:166-171 | the form becomes `RemoveTopic` of the old form; nothing else changes |
| AtomicAsset.AssetPanel.HandleTopicChange | src/components/PermawebAtomicAsset.tsx:173-180 | the form becomes `ChangeTopic` of the old form; nothing else changes |
| AtomicAsset.AssetPanel.HandleDryrun | src/components/PermawebAtomicAsset.tsx:279-319 | the panel becomes `Dryrun` of the old panel |
| AoSpawner.Items | src/components/AOSpawner.tsx:138-139 | `length` and indexing see an array's elements and a string's characters, and nothing of any other value |
| AoSpawner.FirstSomeSpec | src/components/AOSpawner.tsx:138-179 | `FirstSome`: the id taken is the one from the first source that gives one; there is none exactly when no source gives one |
| AoSpawner.NotConnectedFirst | src/components/AOSpawner.tsx:111-113 | `SpawnProcess`: without a wallet the result is 'Please connect your wallet first', whatever the dry run would have said |
| AoSpawner.Priority | src/components/AOSpawner.tsx:133-182 | `ExtractProcessId`, over the sources `FromMessages`, `FromSpawns` and `FromOutput`: a truthy `Error` fails with 'Dryrun error: ' and its serialisation; otherwise the id is the first one given by the last message's Data, then `Spawns[0]`, then Output; with none, it fails with the serialised result |
| AoSpawner.ParseFailureFallsThrough | src/components/AOSpawner.tsx:142-151 | data that does not parse is passed over, and the outcome is decided by the spawns and the output alone |
| AoSpawner.ErrorWins | src/components/AOSpawner.tsx:133-135 | a truthy `Error` always fails with a message starting with 'Dryrun error: ' |
| AoSpawner.MessagesBeforeSpawns | src/components/AOSpawner.tsx:138-161 | an id in the last message's data wins over a spawn and over the output |

## Left out

- JSX, styling, hover and toolbar state, preview mode, syntax highlighting, wallet connection and console logging are user interface and are not modelled.
- `dryrun`, `spawn`, the wallet signer, `JSON.stringify`, `JSON.parse`, `Date.now()` and `Math.random()` are parameters of the operations that use them: serialisation is uninterpreted and parsing is a partial function.
- Floating-point numbers, `NaN` and string scores are not modelled. Prop values and scores are integers; `Number(playerScore)` is `JsString.ToInteger`, which accepts surrounding white space, an optional sign and decimal digits, and reads a blank string as 0.
- JsString.ToInteger: exponent, decimal-point, hexadecimal, octal, binary and `Infinity` numerals (`Number("1e3")` is 1000, `Number("0x10")` is 16) are read as `NaN`, so the leaderboard form rejects them with 'Score must be a number' where the source accepts them.
- JavaScript places integer-like object keys first; association lists keep insertion order for every key.
- Prototype keys (`__proto__`, `toString`) are not modelled.
- BuilderPage.PropertyChange: under value semantics the top-level copy and the nested levels the loop mutates by reference cannot alias; the model therefore says nothing about nested snapshot isolation.
- BuilderPage.PropertyChange: walking into an array or another truthy non-object is modelled as a failed edit. JavaScript throws a TypeError for primitives in strict mode but would add a property to an array.
- BuilderPage.SocialLinkCreatesObject: proved only for link names without a dot, which are the ones the panel uses.
- BuilderPage.PanelFields: only which panels exist and the wallet's conditional field are stated; the other field lists are not.
- Builder.tsx defines `getFullComponentCode` twice with the same body; it is modelled once.
- `Array.prototype.join` of nested values inside comma-list fields, and `images?.join` on a non-array, are simplified in `BuilderPage.CommaDisplay`.
- Function-valued default props (callbacks in `defaultProps`) and the Lua code strings are constants or left out.
- `downloadProject` (JSZip, Blob, DOM download) is not modelled. The scaffold files are string constants that reproduce the text of projectGenerator.ts:13-247.
- UseBuilder.Store.ReorderComponents: requires `fromIndex` to address a root child when there is a root zone (without one, any indices are accepted and nothing changes). An out-of-range `splice` in JavaScript inserts `undefined`, which the typed model cannot hold.
- ProcessSpawner.Spawner.HandleTagChange, ArweaveForm.Form.HandleTagChange and AtomicAsset.AssetPanel.HandleTopicChange require an in-range index. JavaScript would throw (for tags) or extend the array with holes (for topics).
- The heap aliasing of the tag objects shared by `[...tags]` (the source mutates a tag that the old array also holds) is not modelled.
- React's batching of `setState` and its stale closures (the dry runs read a stale `simulatedScores`) are not modelled: the model uses sequential table semantics.
- Leaderboard: the `catch` branches of the simulators, and the error branches of `submitScore` that no simulated reply reaches, are not modelled.
- Leaderboard.Insert: the sort is an insertion sort; the tie order of JavaScript's stable sort is defined by it but not proved against it.
- The production (`isDev === false`) branches of `arweaveUtils.ts` only throw, and are not modelled.
- AoRegistry.Apply: an update carries each field or not; an explicit `undefined` value in a `Partial` update is not modelled.
- The callbacks `onProcessSpawned`, `onSubmit`, `onAssetCreated` and `onProcessCreated` are not modelled beyond the submission record in `ArweaveForm`. So the throw of `onAssetCreated(result.result.id)` is not modelled either.
- AtomicAsset.Dryrun: the dry-run result is abstracted as a string.
- AoSpawner: a `null` dry-run result, on which the source's `result.Error` throws a TypeError, is read here as a result with no members and falls through to the 'No process ID' failure.
- ProcessSpawner.Spawn: every failure is modelled as an `Error` with a message; the fixed 'Failed to spawn process. Please try again later.' text for a thrown non-`Error` value is not modelled.
- AoRegistry.LuaHandler: the optional `parameters`, `returnType` and `example` fields of a handler are not modelled; no operation of the mock reads them.
- AoSpawner: non-string `Data` (which `JSON.parse` would coerce), a null last message (a TypeError in JavaScript, read here as no data) and objects with a `length` property are not modelled.
- Loading and in-progress flags are modelled only at the start and end of each operation, not in between.
