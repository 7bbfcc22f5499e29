# Simple task plugin for the Orca outliner — Dafny model

This project models the self-contained logic of a plugin for the Orca outliner. The plugin turns a block into a task
with a status that cycles through todo, doing, done and none. It stamps start and end times on the transitions and
shows formatted scheduled and deadline dates next to task blocks. Everything lives in one source file,
`src/main.ts`. The parts modelled are:

- **The status table** (`TaskStatus`). `readyTag` rebuilds the module-level map `"" → todo → doing → done → ""` from the
  configured strings. The model proves its contents, including what happens when configured values coincide. It also
  proves that with distinct non-empty values the map is a single cycle of length four, and that a status that is not a
  key has no successor.
- **The cycle command** (`TaskStatus.CycleTaskStatus`). Given the settings, the table, the host's blocks, the mirror
  mapping, the cursor, an optional explicit id and the time "now", it returns the one `insertTag` write the handler
  issues, or `None` when it writes nothing.
  - Properties are found by first-match name lookup.
  - A missing or null status reads as `""`.
  - A table miss writes `undefined` as the status.
  - `startTime` and `endTime` are set to now only on entering doing or done.
  - Scheduled and deadline are carried forward unchanged.
- **Tag bookkeeping** (`TaskTag.TaskPlugin`). This is a class holding the table, `prevTaskTagName` and the host's alias
  and schema maps. `ReadyTag` retires the previous alias's block (best effort) when the configured alias changed. It
  creates the tag block and alias when no block has the alias, and applies the property schema.
  `prevTaskTagName` moves only when a tag block is created.
- **Date annotations** (`DateAnnotations`). `RenderedDocument.UpdateTaskDates` runs the three in-place loops of
  `updateTaskDates` over the rendered blocks. The model proves they equal a one-step classification into
  deadline-only, scheduled-only and both. Each category writes one attribute with the exact text. The categories are
  exclusive, a pass never removes an attribute (stale annotations persist), and a second pass is a no-op.
- **Click hit-test** (`IconClick`): the 18-pixel closed square and the other conditions under which a click cycles a
  block.
- **CSS name normalisation** (`CssNames`): replace each space with `-`, then lower-case.

Three behaviours of the code worth knowing:
- The first trigger writes the configured todo value itself, not the table's successor of `""`. The two agree when the
  three values are distinct and non-empty; `TransitionTable` states when they do.
- A rename retires only the alias remembered in `prevTaskTagName`. That name is not updated when the new alias already
  names a block (`AdoptedTagKeepsPreviousName`).
- An empty date attribute passes the selectors but fails the loops' `!value` guard. So an empty scheduled value hides a
  valid deadline (`EmptyScheduledHidesDeadline`).

## Model

| member | source | states |
|---|---|---|
| `TaskStatus.TransitionTable` | src/main.ts:240-244 | keys are exactly `""`, todo, doing, done; done maps to `""`; each earlier entry holds unless a later set with an equal key overrides it |
| `TaskStatus.CycleClosure` | src/main.ts:240-244 | with distinct non-empty values, four lookups from any of the four statuses return to it |
| `TaskStatus.CycleHasPeriodFour` | src/main.ts:240-244 | no status returns after one, two or three lookups, so the cycle has length exactly four |
| `TaskStatus.CycleReturnsEveryFourSteps` | src/main.ts:240-244 | every multiple of four lookups returns to the starting status |
| `TaskStatus.UnknownStatusHasNoSuccessor` | src/main.ts:146 | a value outside the four keys has no successor after any number of steps |
| `TaskStatus.FindFirst` | src/main.ts:124-126 | `find` returns the first index satisfying the predicate, or none when no element does |
| `TaskStatus.ValueOf` | src/main.ts:147-159 | the value of the first property with the name; `undefined` when no property has it |
| `TaskStatus.FindTaskRef` | src/main.ts:124-126 | the found reference is the first one with type 2 and the task alias; none is found exactly when no reference has both |
| `TaskStatus.CurrentStatus` | src/main.ts:143-145 | a missing or null status reads as `""`; any other stored value is returned unchanged |
| `TaskStatus.NextStatus` | src/main.ts:146 | a next status exists exactly when the current value is a string key of the table, and it is the table's entry for that key |
| `TaskStatus.TargetId` | src/main.ts:119 | an explicit id takes precedence over the cursor's block; either goes through the mirror mapping |
| `TaskStatus.FirstTriggerProps` | src/main.ts:134-140 | status is the configured todo value; the four time properties are null and untyped |
| `TaskStatus.CycledProps` | src/main.ts:143-192 | five properties in configured order; status is the table's entry for the current status on a hit and undefined on a miss, written without a type; start/end are now when the written status is doing/done, else the previous value; scheduled and deadline carried over; times typed as date-time |
| `TaskStatus.CycleTaskStatus` | src/main.ts:115-197 | a write is issued exactly when the selection is collapsed and the resolved block exists; it targets that block and the task tag with five properties |
| `TaskStatus.FirstTriggerTagsAsTodo` | src/main.ts:128-141 | an untagged block is written status todo and four nulls |
| `TaskStatus.TaggedBlockIsCycled` | src/main.ts:142-193 | a tagged block is written the cycled property list of its first task reference |
| `TaskStatus.MissingStatusStartsTodo` | src/main.ts:143-146 | a missing or null status moves to todo and leaves start and end unchanged |
| `TaskStatus.UnrecognisedStatusWritesUndefined` | src/main.ts:146-181 | a status that is not a key is written as undefined with start and end unchanged; no fallback |
| `TaskStatus.TimesFollowTransition` | src/main.ts:166-181 | todo→doing stamps start; doing→done stamps end; done→`""` and `""`→todo stamp nothing |
| `TaskStatus.DatesCarriedForward` | src/main.ts:154-191 | scheduled and deadline are rewritten with their previous values under any table |
| `TaskStatus.OneCycleStatus` | src/main.ts:143-167 | after one cycle, the status read back is the table successor |
| `TaskStatus.RepeatedCyclesFollowTable` | src/main.ts:143-167 | after n cycles, the status read back is the n-th table successor |
| `TaskStatus.FourCyclesRestoreStatus` | src/main.ts:143-167 | four cycles through the command restore any of the four statuses |
| `TaskTag.TagSchema` | src/main.ts:294-349 | the tag schema: an enum status with choices todo, doing, done, then four date-time properties |
| `TaskTag.WithoutBlock` | src/main.ts:252-256 | deleting a block removes exactly the aliases naming it |
| `TaskTag.RetiredId` | src/main.ts:247-250 | a block is retired exactly when the alias changed, the old alias names a non-zero id and the deletion does not fail |
| `TaskTag.RetireOldTag` | src/main.ts:246-261 | nothing is deleted when the alias is unchanged, the deletion fails or the id is 0; otherwise every alias of the old block goes and no other alias is touched |
| `TaskTag.SchemasAfterRetire` | src/main.ts:250-256 | only the retired block's schema is removed; no schema is removed when nothing is retired |
| `TaskTag.TaskPlugin.constructor` | src/main.ts:9-13 | empty table, no previous name (the source leaves it undefined until `Load`), host aliases and schemas as given |
| `TaskTag.TaskPlugin.ReadyTag` | src/main.ts:236-351 | table rebuilt; tag alias exists afterwards; aliases, previous name, id counter and schemas as retirement then creation leave them |
| `TaskTag.TaskPlugin.RemoveOldTag` | src/main.ts:246-261 | aliases and schemas after the best-effort deletion of the previous alias's block |
| `TaskTag.TaskPlugin.EnsureTag` | src/main.ts:263-350 | a block with a fresh id and its alias are created only when missing, and only then does the previous name move; the schema is set on update or creation |
| `TaskTag.TaskPlugin.Load` | src/main.ts:95-98 | loading never deletes a tag; it creates the tag with its schema and advances the id counter when missing |
| `TaskTag.TaskPlugin.SettingsChanged` | src/main.ts:101-104 | `readyTag(true)`: table rebuilt; aliases, previous name and id counter as retirement then creation leave them; the old alias is retired on a rename with a non-zero id and kept when deletion fails; the tag block gets the current schema |
| `TaskTag.AdoptedTagKeepsPreviousName` | src/main.ts:263-290 | renaming to an alias another block already has keeps that block, so `prevTaskTagName` stays the old name |
| `DateAnnotations.Present` | src/main.ts:505-506 | `[data-x]:not([data-x="null"])` fails exactly when the attribute is absent or `"null"`, the `:is(...)` test of the selectors |
| `DateAnnotations.Usable` | src/main.ts:514 | the loops' guard holds exactly when the selector test holds and the value is not empty |
| `DateAnnotations.Matches` | src/main.ts:505-545 | a block matches a selector only through the task tag and only when at least one date is set |
| `DateAnnotations.Annotated` | src/main.ts:505-565 | the three loops applied to one block keep its tag and every attribute it had |
| `DateAnnotations.Pass` | src/main.ts:509-565 | one loop body never touches the block's tag |
| `DateAnnotations.Reconciled` | src/main.ts:491-566 | a pass maps every block independently through the three loops |
| `DateAnnotations.Annotation` | src/main.ts:505-565 | the one-step classification writes only one of the three annotation attributes, and only on task blocks |
| `DateAnnotations.CategoriesExclusive` | src/main.ts:505-545 | no block matches two of the three selectors |
| `DateAnnotations.PassesAgreeWithAnnotation` | src/main.ts:505-565 | the three loops in sequence equal the one-step classification |
| `DateAnnotations.AnnotatedByCategory` | src/main.ts:509-565 | deadline-only writes `Deadl.: fmt(d)`, scheduled-only `Sched.: fmt(s)`, both `Sched.: fmt(s)      Deadl.: fmt(d)`; other blocks are unchanged |
| `DateAnnotations.AnnotationsNeverRemoved` | src/main.ts:519-564 | existing attributes stay; at most one is added; attributes other than the three are unchanged |
| `DateAnnotations.StaleAnnotationPersists` | src/main.ts:505-565 | an untagged block, or one whose dates are both unset, keeps its earlier annotations |
| `DateAnnotations.EmptyScheduledHidesDeadline` | src/main.ts:543-555 | an empty scheduled attribute with a usable deadline gets no annotation |
| `DateAnnotations.AnnotatedIdempotent` | src/main.ts:491-566 | annotating an annotated block changes nothing |
| `DateAnnotations.ReconcileIdempotent` | src/main.ts:491-566 | a second pass over an unchanged document is a no-op |
| `DateAnnotations.RenderedDocument.UpdateTaskDates` | src/main.ts:491-566 | the rendered blocks become the reconciled document |
| `DateAnnotations.RenderedDocument.RunPass` | src/main.ts:509-521 | one loop applies its category's body to every block in order and to nothing else |
| `IconClick.IconHit` | src/main.ts:582 | the click is inside exactly when both offsets lie in the closed range 0 to 18 |
| `IconClick.OnClick` | src/main.ts:573-600 | a block is cycled only for a click on main content inside the square with the task tag and an id; otherwise one of those fails |
| `IconClick.HitRegionIsClosed` | src/main.ts:580-582 | offsets 0 and 18 are inside the square; -1 and 19 are outside |
| `IconClick.ClickExamples` | src/main.ts:580-591 | a click at (5, 5) on a tagged block cycles it; (25, 5) and an untagged block do not |
| `CssNames.ToLower` | src/main.ts:361-364 | length kept; each character lower-cased |
| `CssNames.ReplaceSpaces` | src/main.ts:361 | length kept; each space becomes `-`, other characters stay |
| `CssNames.NormaliseName` | src/main.ts:361-364 | length kept |
| `CssNames.NormaliseCharwise` | src/main.ts:361-364 | a space becomes `-`, a letter its lower-case form, anything else stays |
| `CssNames.NormaliseNormalises` | src/main.ts:361-364 | the result has no space and no upper-case letter; such a name is left alone |
| `CssNames.NormaliseIdempotent` | src/main.ts:361-364 | normalising twice equals normalising once |
| `CssNames.ReplaceAndLowerCommute` | src/main.ts:361-364 | replacing spaces and lower-casing commute |

## Left out

- Settings schema registration and localisation (src/main.ts:19-93): declarative host calls with no logic.
- Command, shortcut and click-listener registration, `unload`, and the Valtio subscription wiring (src/main.ts:101-109, 112-113, 198-230). `SettingsChanged` models only the `readyTag(true)` the subscription runs. Style removal and re-injection are left out.
- CSS text construction, style injection and removal (src/main.ts:370-467, 568-571): string templating.
- The `MutationObserver` (src/main.ts:473-485): one reconcile pass is modelled. Its attribute filter names `data-scheduled` and `data-deadline` literally, not the configured names; that is not modelled.
- `date-fns` `format`, `new Date(parseInt(...))` and `new Date()`. The formatter is the parameter `fmt` applied to the raw attribute string. "Now" is the parameter `now`.
- `getMirrorId` (src/main.ts:119): the parameter `mirrorOf`.
- `getComputedStyle` and `getBoundingClientRect` (src/main.ts:577-579): floating-point geometry is given as integer offsets.
- `TaskTag.TaskPlugin.SettingsChanged`: `setProperties` is modelled as replacing the tag block's whole schema with the five current definitions. The source sends per-property definitions with positions (src/main.ts:294-349), which the host may merge by name, so a property renamed in the settings may keep its old-named definition. That merge is not modelled.
- Host commands are modelled as abstract writes. `insertTag` is the returned `TagWrite`; block deletion, insertion, aliases and `setProperties` are updates of `aliases`, `schemas` and `nextId`. Property positions (`pos`) are left to the host and not modelled. Grouping into one transaction (`invokeGroup`), async interleaving and last-write-wins on the same block are not modelled. Host command failures other than the swallowed deletion are not modelled.
- The repeated-cycle lemmas assume that the host stores the written name and value pairs as the tag's property list (`Stored`); the host's own storage is not part of this model.
- `tagRef.data` is a sequence. An absent `data` behaves as the empty list in every lookup, so it is not a separate case.
- `TaskStatus.CycleTaskStatus`: a collapsed selection is anchor equal to focus by value. The source compares the two position objects by identity.
- `TaskStatus.CycleTaskStatus`: the cursor is always present. The click handler invokes the command with a `null` cursor (src/main.ts:596-600), and the handler reads `cursor.anchor` first (src/main.ts:116). The model assumes the host then supplies the current cursor; a missing cursor is not modelled.
- `CssNames.ToLower`: lower-cases ASCII letters only. JavaScript's `toLowerCase` also maps non-ASCII letters.
- `DateAnnotations.RenderedDocument.UpdateTaskDates`: the pass is total. The formatter `fmt` is assumed total, and the configured names are assumed to give valid CSS selectors. In the source, `format` throws on the invalid date a non-numeric attribute produces, and `querySelectorAll` throws on a name that is not a CSS identifier. Either exception aborts the remaining blocks and loops; that abort is not modelled.
- `DateAnnotations.RenderedDocument.UpdateTaskDates`: a rendered block carries at most one task-tag element, read both by the `:has` selector and by `querySelector`. Blocks with several task-tag elements are not modelled.
- The order in which the JavaScript `Map` keeps its entries is not modelled; only lookups are used.
