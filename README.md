# TodoistAutomation in Dafny

This project models the core of TodoistAutomation. The tool keeps a Todoist
account in step with a Getting-Things-Done (GTD) configuration. It has two
pieces of real logic:

- **The desired-state generator.** `GTDState` in `autodoist/gtd/gtd_state.py`
  turns GTD contexts, composite contexts and exclusion lists into labels,
  saved filters and projects. The filter queries are built from fixed text.
- **The reconciler.** `TodoistSyncManager` in `autodoist/todoist/sync_manager.py`
  compares that desired collection with the one fetched from Todoist. For each
  desired item it yields a create record, an update record, or nothing.

Around them sit the following, all modelled here:

- the Sync v9 command builder (`autodoist/todoist/api_wrapper.py`);
- the record types (`autodoist/models.py`);
- the Markdown change report (`autodoist/github/markdown.py`);
- the earlier prototype: `src/gtd/*.py` and the stand-alone script `todoist.py`.

## Layout

One module per source file:

| file | module | models |
|---|---|---|
| `wrappers.dfy` | `Wrappers` | `Option` and `Result` |
| `strings.dfy` | `Strings` | ASCII-only definitions of `str.title`, `str.capitalize`, `str.replace`, `join`, `split`, `c * n` and `str(int)` |
| `environment.dfy` | `Environment` | the remote Todoist: a `Requester` class that records every payload and answers with a fixed reply function; a `TokenSupply` that stands for `uuid.uuid4()` |
| `models.dfy` | `Models` | `Color`, the `ConcreteTodoist*`/`Todoist*` records with their defaults, `get_type`, `get_all_items`, and serialisation |
| `sync_manager.dfy` | `Reconciler` | `_sync_objects` and `sync` |
| `sync_manager_fixed.dfy` | `ReconcilerFixed` | the corrected reconciler and the two reconciler findings below |
| `gtd_state.dfy` | `GtdGenerator` | `GTDState` and its generators |
| `api_wrapper.dfy` | `ApiWrapper` | `TodoistApiWrapper` and its dry-run variant |
| `markdown.dfy` | `Markdown` | `render_as_markdown` |
| `proto_models.dfy` | `ProtoModels` | `src/gtd/models.py` |
| `proto_gtd_state.dfy` | `ProtoGtdGenerator` | `src/gtd/gtd_state.py` |
| `proto_api_wrapper.dfy` | `ProtoApiWrapper` | `src/gtd/api_wrapper.py` |
| `proto_sync_manager.dfy` | `ProtoSyncManager` | `src/gtd/todoist_sync_manager.py` |
| `todoist_script.dfy` | `TodoistScript` | `todoist.py` |

Serialisation in `Models` replaces `dataclasses_json` reflection:

- `ToDict` lists each kind's declared fields in order and drops a None `id`.
- `FromDict` fails with `MissingField` where `from_dict` raises `KeyError`.
- `ApiWrapper.DecodeRecord` is `from_dict` on a fetched record. It also turns
  the colour code string into its `Color` member, and fails with
  `InvalidColor` where `Color(code)` raises `ValueError`.

Code that changes state in the source is modelled as Dafny classes with loops:
`GTDState.contexts`, the wrappers' requesters and token supplies, and the
prototype's `sync_commands`. Each method is proved against a pure function.
The lemmas about that function carry the properties.

## Model

| member | source | states |
|---|---|---|
| Models.ColorMembers | autodoist/models.py:6-26 | `Color` has exactly 20 distinct members |
| Models.ColorCodeInjective | autodoist/models.py:6-26 | no two colours share a string code |
| Models.FindColor | autodoist/models.py:6-26 | a found colour has the sought code; if none is found, no candidate has it |
| Models.ColorCodeRoundTrip | autodoist/models.py:6-26 | decoding a colour's code gives that colour back; a code decodes exactly when some colour has it |
| Models.GetType | autodoist/models.py:42-43 | the type name is the one fixed for the record's kind (`label`, `filter`, `project`) |
| Models.RecordDefaults | autodoist/models.py:28-98 | every record defaults to colour grey and not a favourite; concrete records default to no id |
| Models.GetAllItems | autodoist/models.py:75-76 | the labels, then the filters, then the projects, in order, nothing dropped |
| Models.DesiredFieldsAreConcreteWithoutId | autodoist/models.py:36-98 | a desired record's fields are the concrete fields minus `id`; only filters carry `query`; field lists have no repeats |
| Models.PutLookup | autodoist/todoist/api_wrapper.py:94-95 | after setting a key, looking it up gives the new value and other keys are unchanged |
| Models.ToDict | autodoist/models.py:30-63 | the serialised keys are the declared fields, with `id` present exactly when it is not None; each value is the record's attribute |
| Models.DesiredToDict | autodoist/models.py:78-98 | a desired record serialises to exactly its declared fields and their values |
| Models.FromDict | autodoist/models.py:34-63 | decoding succeeds exactly when `name` (and, for a filter, `query`) is present; otherwise it reports that missing field; the result has the requested kind |
| Models.FromDictFields | autodoist/models.py:34-63 | a decoded record takes each present field from the dict and each absent one from the class default |
| Models.FromDictByFields | autodoist/models.py:34-63 | a dict decodes to a record when each declared field is its entry or, when absent, its default |
| Models.AttrsDetermine | autodoist/models.py:34-63 | two records of one kind that agree on every field are equal |
| Models.DesiredRoundTrip | autodoist/todoist/sync_manager.py:52 | decoding a desired record's dict as a concrete record gives the same record with no id |
| Models.ConcreteRoundTrip | autodoist/models.py:34-63 | `from_dict(to_dict(x)) == x` for every concrete record |
| Reconciler.IndexByName | autodoist/todoist/sync_manager.py:44 | every entry of the name index is an existing record filed under its own name |
| Reconciler.IndexByNameKeys | autodoist/todoist/sync_manager.py:44 | a name is indexed exactly when some existing record has it |
| Reconciler.IndexByNameLastWins | autodoist/todoist/sync_manager.py:44 | the indexed record is the last one in the list with that name |
| Reconciler.IndexByNameOfKind | autodoist/todoist/sync_manager.py:22-44 | indexing records of one kind gives an index of that kind only |
| Reconciler.DiffAttrs | autodoist/todoist/sync_manager.py:60-64 | the diff holds exactly the desired entries whose value differs from the existing record's |
| Reconciler.DiffLookup | autodoist/todoist/sync_manager.py:60-64 | a field is in the diff, with the desired value, exactly when it is a desired field whose value differs |
| Reconciler.DiffEmptyIffAgrees | autodoist/todoist/sync_manager.py:60-67 | the diff is empty exactly when the desired record agrees with its namesake on every field |
| Reconciler.ExpectedUpdate | autodoist/todoist/sync_manager.py:67-70 | the record `from_dict` builds from the diff plus `id` and `name`: differing fields take the desired value, agreeing ones their class default; `UpdateDecodes` proves it equals the decoded update dict |
| Reconciler.Outcome | autodoist/todoist/sync_manager.py:48-71 | the independent per-item definition: a create record with no id for an unknown name, nothing for an agreeing namesake, the `KeyError` on `query` for a disagreeing filter whose query agrees, the update record otherwise; `SyncItem` is proved equal to it |
| Reconciler.UpdateDictLookup | autodoist/todoist/sync_manager.py:67-69 | the update dict holds the existing id, the desired name and the differing fields, and nothing else |
| Reconciler.UpdateDecodes | autodoist/todoist/sync_manager.py:67-71 | the update record decodes to the differing desired fields plus the existing id; every other field takes its class default |
| Reconciler.ReconcileStep | autodoist/todoist/sync_manager.py:47-71 | one more desired item adds at most its own record, or stops at its error |
| Reconciler.Reconcile | autodoist/todoist/sync_manager.py:43-73 | the outcomes of the desired items in order against the last-wins name index, stopping at the first error; `ReconcileFollowsDesired`, `ReconcileFailsIff` and `ReconcileBounded` state its properties and `SyncObjects` is proved equal to it |
| Reconciler.ReconcileErrorPersists | autodoist/todoist/sync_manager.py:47-71 | once a `KeyError` is raised, later desired items do not change the outcome |
| Reconciler.ReconcileBounded | autodoist/todoist/sync_manager.py:45-73 | per kind, there are never more records than desired items |
| Reconciler.ReconcileFollowsDesired | autodoist/todoist/sync_manager.py:47-73 | each record carries the name of a desired item, at strictly increasing desired positions, so fetched-only items are never emitted |
| Reconciler.ReconcileFailsIff | autodoist/todoist/sync_manager.py:60-71 | the pass fails exactly when some desired filter has a namesake with the same query that differs in another field; the error is then a missing `query` |
| Reconciler.ReconcileAllCreated | autodoist/todoist/sync_manager.py:50-52 | against an empty account, every desired item yields a create record with its own fields and no id |
| Reconciler.ReconcileNoChanges | autodoist/todoist/sync_manager.py:60-67 | when every desired item already agrees with its namesake, nothing is emitted |
| Reconciler.SyncItem | autodoist/todoist/sync_manager.py:48-71 | the loop body's result for one desired item equals the specified outcome |
| Reconciler.IndexExisting | autodoist/todoist/sync_manager.py:44 | the loop that builds the index builds the name index |
| Reconciler.SyncObjects | autodoist/todoist/sync_manager.py:43-73 | the per-kind loop returns the reconciliation of that kind |
| Reconciler.Sync | autodoist/todoist/sync_manager.py:15-41 | labels, filters and projects are each reconciled against their own kind; the first error aborts the whole call |
| ReconcilerFixed.FixedOutcome | autodoist/todoist/sync_manager.py:47-71 | the corrected record for one desired item has that item's kind and name |
| ReconcilerFixed.FixedReconcile | autodoist/todoist/sync_manager.py:47-73 | the corrected records are all of the reconciled kind |
| ReconcilerFixed.PatchAppend | autodoist/todoist/sync_manager.py:67-71 | applying one more record overwrites its name's entry |
| ReconcilerFixed.FixedPatchAgrees | autodoist/todoist/sync_manager.py:43-73 | once the corrected records for the first `k` desired items are applied, each of them agrees with its namesake and every other name is as it was |
| ReconcilerFixed.FixedReconcileSettles | autodoist/todoist/sync_manager.py:43-73 | once the corrected records are applied, every desired item agrees with its namesake, other records are untouched, and a second pass emits nothing |
| ReconcilerFixed.FixedNoChanges | autodoist/todoist/sync_manager.py:60-67 | the corrected pass emits nothing when everything already agrees |
| ReconcilerFixed.FixedMatchesSourceOutsideUpdates | autodoist/todoist/sync_manager.py:47-71 | creates and no-changes are the same as the source's; only update records differ |
| ReconcilerFixed.AsWrittenUpdateOscillates | autodoist/todoist/sync_manager.py:67-71 | as written, repeated passes on one label alternate between two update records |
| ReconcilerFixed.FixedUpdateSettles | autodoist/todoist/sync_manager.py:67-71 | corrected, that label is fixed in one pass and then left alone |
| ReconcilerFixed.AsWrittenFilterRecolourRaises | autodoist/todoist/sync_manager.py:60-71 | as written, recolouring a filter whose query already agrees raises a missing `query` |
| ReconcilerFixed.FixedFilterUpdateKeepsQuery | autodoist/todoist/sync_manager.py:60-71 | corrected, a filter update carries the desired query and the existing id, and decodes |
| GtdGenerator.ExclusionLists | autodoist/gtd/gtd_state.py:67-68 | a list is returned exactly when an entry holds it, and there are as many lists as exclusion entries |
| GtdGenerator.ExclusionListsAppend | autodoist/gtd/gtd_state.py:67-68 | the lists of two entry sequences one after the other are theirs, in that order, so order and repeats follow `contexts` |
| GtdGenerator.ExclusionListsSingle | autodoist/gtd/gtd_state.py:67-68 | one entry gives its own list if it is an exclusion list, and nothing otherwise |
| GtdGenerator.ExclusionTerms | autodoist/gtd/gtd_state.py:29 | one `!#name` term per exclusion list, in order |
| GtdGenerator.FilterName | autodoist/gtd/gtd_state.py:36 | a filter name is the emojis, a space, then exactly the title-cased name |
| GtdGenerator.FilterNameCapitalises | autodoist/gtd/gtd_state.py:36 | in a filter name, each letter of the context name is upper-cased exactly when it starts a run of letters, lower-cased otherwise |
| GtdGenerator.GenerateForContext | autodoist/gtd/gtd_state.py:28-41 | a plain context yields one favourite label, one favourite filter with its clause, and no project |
| GtdGenerator.GenerateForComposite | autodoist/gtd/gtd_state.py:43-57 | a composite yields one favourite label per member in its colour, no label of its own, and one filter over `[name] + labels` |
| GtdGenerator.GenerateForExclusion | autodoist/gtd/gtd_state.py:59-65 | an exclusion list yields exactly one non-favourite project and no labels or filters |
| GtdGenerator.Generate | autodoist/gtd/gtd_state.py:18-26 | the generator for the entry's type; the three `GenerateFor*` contracts state each case |
| GtdGenerator.RenderFrom | autodoist/gtd/gtd_state.py:70-81 | the entries' outputs concatenated kind by kind in entry order; `RenderCounts`, `RenderProjectsAreExclusionLists`, `RenderFavourites` and `RenderPrefix` state its properties and `RenderTodoistObjects` is proved equal to it |
| GtdGenerator.RenderWellKinded | autodoist/gtd/gtd_state.py:70-81 | the rendering puts only labels among the labels, filters among the filters and projects among the projects, as `Reconciler.Sync` requires |
| GtdGenerator.RenderCounts | autodoist/gtd/gtd_state.py:70-81 | filters = non-exclusion entries; projects = exclusion lists; labels = plain contexts plus composite members |
| GtdGenerator.RenderProjectsAreExclusionLists | autodoist/gtd/gtd_state.py:59-81 | the projects are the exclusion lists, in order |
| GtdGenerator.RenderFavourites | autodoist/gtd/gtd_state.py:28-65 | every label and filter is a favourite; every project is not |
| GtdGenerator.RenderPrefix | autodoist/gtd/gtd_state.py:75-79 | rendering more entries only extends each output list |
| GtdGenerator.CompositeQuerySplits | autodoist/gtd/gtd_state.py:50 | a composite query splits at its commas into one clause per name, in order |
| GtdGenerator.CompositeQuery | autodoist/gtd/gtd_state.py:50 | the comma-joined clauses of the names; `CompositeQuerySplits` proves it splits back into them |
| GtdGenerator.Clause | autodoist/gtd/gtd_state.py:37 | the query clause of one name; `ClauseLayout` and `NoExclusionsLeaveDanglingOperator` state its layout |
| GtdGenerator.NoExclusionsLeaveDanglingOperator | autodoist/gtd/gtd_state.py:29-37 | with no exclusion lists, the clause ends in `& )` |
| GtdGenerator.ClauseLayout | autodoist/gtd/gtd_state.py:37 | a clause is `#name`, 60 spaces, `\| (@`, the name, ` & `, the exclusions and `)` |
| GtdGenerator.ScenarioLabels | tests/test_gtd_state.py:73-121 | the sample configuration renders the labels Work, Health and Finance, all favourites, as the code does |
| GtdGenerator.ScenarioFilters | tests/test_gtd_state.py:73-121 | the sample configuration renders two filters named by the test's emoji literals, a space and `Work` or `Personal`, whose queries exclude `NotNow` and `Vacation`; the composite's query joins the Personal, Health and Finance clauses |
| GtdGenerator.ScenarioFilterNames | autodoist/gtd/gtd_state.py:36 | with the test's emojis, the filter names are the emojis, a space and the already title-cased names |
| GtdGenerator.ScenarioProjects | tests/test_gtd_state.py:73-121 | the sample configuration renders the projects NotNow and Vacation |
| GtdGenerator.ScenarioShape | autodoist/gtd/gtd_state.py:18-81 | a context, a two-member composite and two exclusion lists render to three favourite labels, two filters excluding both lists, and two non-favourite projects |
| GtdGenerator.ScenarioRender | autodoist/gtd/gtd_state.py:70-81 | rendering four entries concatenates their four outputs |
| GtdGenerator.ScenarioExclusionLists | autodoist/gtd/gtd_state.py:67-68 | the exclusion lists of the four entries are the last two, in order |
| GtdGenerator.ScenarioExclusions | autodoist/gtd/gtd_state.py:29 | the sample's exclusion text is `!#NotNow & !#Vacation` |
| GtdGenerator.ScenarioCompositeQuery | autodoist/gtd/gtd_state.py:50 | the sample composite query is its three clauses, comma-joined |
| GtdGenerator.GTDState.constructor | autodoist/gtd/gtd_state.py:12-13 | a new state holds no contexts |
| GtdGenerator.GTDState.AddContext | autodoist/gtd/gtd_state.py:15-16 | the context is appended and nothing else changes |
| GtdGenerator.GTDState.RenderTodoistObjects | autodoist/gtd/gtd_state.py:70-81 | the rendering loop produces the specified rendering of the stored contexts |
| ApiWrapper.CommandShape | autodoist/todoist/api_wrapper.py:84-99 | `_update` exactly for a truthy id, `_add` otherwise; an update has `args.id` and no `temp_id`; an add has `temp_id` and args exactly the serialised item; both carry the uuid |
| ApiWrapper.CommandFor | autodoist/todoist/api_wrapper.py:84-99 | the command built from an item and two tokens; `CommandShape` and `ArgsAreSerialisedItem` state its shape |
| ApiWrapper.ArgsAreSerialisedItem | autodoist/todoist/api_wrapper.py:91-95 | a command's args are the item's serialised fields, and decode back to the item |
| ApiWrapper.TokenOffsetStep | autodoist/todoist/api_wrapper.py:77-79 | each command draws its own tokens after those of earlier commands |
| ApiWrapper.BuildCommands | autodoist/todoist/api_wrapper.py:77-79 | one command per item |
| ApiWrapper.TokensNeededGrows | autodoist/todoist/api_wrapper.py:77-79 | later commands draw tokens past those of earlier ones |
| ApiWrapper.CommandTokensDistinct | autodoist/todoist/api_wrapper.py:77-97 | with an injective token supply, no two commands share a uuid or temp_id, and none reuses another's |
| ApiWrapper.DecodeRecords | autodoist/todoist/api_wrapper.py:59-70 | decoding succeeds exactly when every record decodes with `DecodeRecord`, and keeps their order |
| ApiWrapper.DecodeRecord | autodoist/todoist/api_wrapper.py:59-70 | a fetched record decodes exactly when it has `name` (and, for a filter, `query`) and its colour names a member; a missing `name`, then a missing `query`, is reported before an unknown colour code; the result has the requested kind and the decoded colour |
| ApiWrapper.DecodeRecordFields | autodoist/todoist/api_wrapper.py:59-70 | every field other than the colour is the record's entry, or its class default when absent |
| ApiWrapper.TypedRecordDecodes | autodoist/models.py:34-63 | a record whose colour is already a `Color` member decodes as `from_dict` decodes any dict |
| ApiWrapper.HexCodeUnknown | autodoist/models.py:6-26 | a code starting with `#` names no colour, so `Color(code)` raises for it |
| ApiWrapper.HexColorRejected | tests/test_api_wrapper.py:16-29 | the test's label with colour `#ffffff` fails to decode with `InvalidColor` |
| ApiWrapper.HexColorResponseRejected | tests/test_api_wrapper.py:16-29 | a response whose labels are that one label fails to decode with `InvalidColor` |
| ApiWrapper.DecodeObjects | autodoist/todoist/api_wrapper.py:54-72 | labels, then filters, then projects decoded, the first failure propagated; `EmptyResponseDecodes`, `DecodeEncodedObjects` and `DecodedObjectsWellKinded` state its properties and `GetAllTodoistObjects` is proved equal to it |
| ApiWrapper.DecodedObjectsWellKinded | autodoist/todoist/api_wrapper.py:54-72 | a decoded response puts each record in the list of its own kind, as `Reconciler.Sync` requires |
| ApiWrapper.EmptyResponseDecodes | autodoist/todoist/api_wrapper.py:59-70 | a response without the three keys decodes to three empty lists |
| ApiWrapper.Encode | autodoist/todoist/api_wrapper.py:59-70 | encoding serialises each item in order |
| ApiWrapper.DecodeEncodedRecords | autodoist/todoist/api_wrapper.py:59-70 | decoding encoded records gives the items back |
| ApiWrapper.DecodeEncodedObjects | autodoist/todoist/api_wrapper.py:54-72 | decoding an encoded response gives the collection back |
| ApiWrapper.TodoistApiWrapper.constructor | autodoist/todoist/api_wrapper.py:50-52 | the wrapper keeps its requester, token supply and dry-run flag |
| ApiWrapper.TodoistApiWrapper.GetAllTodoistObjects | autodoist/todoist/api_wrapper.py:54-72 | one read request; the result is the decoded reply |
| ApiWrapper.TodoistApiWrapper.CreateUpdateCommand | autodoist/todoist/api_wrapper.py:84-99 | the command for the item, built from the next tokens; one token for an update, two for an add |
| ApiWrapper.TodoistApiWrapper.BuildSyncCommands | autodoist/todoist/api_wrapper.py:75-79 | the loop builds one command per item in order, drawing tokens in sequence |
| ApiWrapper.TodoistApiWrapper.UpdateTodoistObjects | autodoist/todoist/api_wrapper.py:74-113 | the commands for labels, filters, then projects; one request, or none and an empty reply in a dry run |
| ApiWrapper.TodoistApiWrapper.UpdateTodoistObjectsAsWritten | autodoist/todoist/api_wrapper.py:74-82 | as written, a real run stops with `NameError` on `json` before any request; a dry run returns an empty reply |
| Markdown.MarkdownStep | autodoist/github/markdown.py:6-14 | the report for one more item is the earlier report followed by that item's section |
| Markdown.SectionNotEmpty | autodoist/github/markdown.py:7-14 | every section has text |
| Markdown.Section | autodoist/github/markdown.py:7-14 | the text one item adds; `SectionSplits`, `SectionRows` and `HeadingAction` state its parts |
| Markdown.MarkdownOf | autodoist/github/markdown.py:3-16 | the sections of the items one after the other; `MarkdownStep`, `MarkdownAppend` and `MarkdownEmpty` state its properties |
| Markdown.MarkdownEmpty | autodoist/github/markdown.py:3-16 | the report is empty exactly when there are no items |
| Markdown.MarkdownAppend | autodoist/github/markdown.py:6-14 | the report for two item lists is the two reports one after the other |
| Markdown.MarkdownByKind | autodoist/github/markdown.py:6 | the report is the labels' sections, then the filters', then the projects' |
| Markdown.SectionSplits | autodoist/github/markdown.py:7-14 | a section is the heading line, the two fixed header lines, one line per row, a blank line |
| Markdown.RowLinesCount | autodoist/github/markdown.py:11-13 | one row per non-null field |
| Markdown.SectionRows | autodoist/github/markdown.py:11-13 | every serialised field has a row, in field order |
| Markdown.HeadingAction | autodoist/github/markdown.py:7-8 | the heading holds the capitalised type, and ends in `(Created)` exactly when the id is None, `(Updated)` otherwise |
| Markdown.RenderRows | autodoist/github/markdown.py:11-13 | the row loop produces the specified rows |
| Markdown.RenderSection | autodoist/github/markdown.py:7-14 | the section text is the specified section |
| Markdown.RenderAsMarkdown | autodoist/github/markdown.py:3-16 | the report is the sections of all labels, filters and projects, in that order |
| Markdown.RenderItems | autodoist/github/markdown.py:4-14 | the item loop accumulates exactly the specified report |
| ProtoModels.ToDict | src/gtd/models.py:9-20 | a prototype record serialises to exactly its declared fields, with its own name under `name` |
| ProtoModels.ToDictValues | src/gtd/models.py:9-20 | the colour string, a filter's query and `is_favorite` are serialised as the record holds them, a None `is_favorite` as null; no `id` |
| ProtoGtdGenerator.ClauseIsSingleExclusion | src/gtd/gtd_state.py:28 | the prototype clause is the main clause with the single exclusion list NotNow |
| ProtoGtdGenerator.CompositeQueryIsSingleExclusion | src/gtd/gtd_state.py:40 | the prototype composite query is the main one with only NotNow excluded |
| ProtoGtdGenerator.CompositeQuerySplits | src/gtd/gtd_state.py:40 | a composite query splits at its commas into one clause per name |
| ProtoGtdGenerator.GenerateForContext | src/gtd/gtd_state.py:20-32 | one favourite label and one favourite filter |
| ProtoGtdGenerator.GenerateForComposite | src/gtd/gtd_state.py:34-47 | one favourite label per member and one filter over `[name] + labels` |
| ProtoGtdGenerator.RenderCounts | src/gtd/gtd_state.py:49-58 | one filter per entry; labels are plain contexts plus composite members |
| ProtoGtdGenerator.RenderFilterAt | src/gtd/gtd_state.py:49-58 | the i-th filter comes from the i-th entry |
| ProtoGtdGenerator.RenderFavourites | src/gtd/gtd_state.py:20-47 | every label and filter is a favourite |
| ProtoGtdGenerator.GTDState.constructor | src/gtd/gtd_state.py:5-6 | a new state holds no contexts |
| ProtoGtdGenerator.GTDState.AddContext | src/gtd/gtd_state.py:8-9 | the context is appended and nothing else changes |
| ProtoGtdGenerator.GTDState.RenderTodoistObjects | src/gtd/gtd_state.py:49-58 | the loop produces the specified rendering |
| ProtoApiWrapper.CommandAgainstMain | src/gtd/api_wrapper.py:42-50 | the prototype command has the main command's type and uuid, but the fields sit at the top level and args hold only `id` or `temp_id` |
| ProtoApiWrapper.CommandShape | src/gtd/api_wrapper.py:42-50 | `_update` with `args = {id}` for a truthy id; otherwise `_add` with `args = {temp_id}`; the item's fields at the top level |
| ProtoApiWrapper.BuildCommands | src/gtd/api_wrapper.py:36-38 | one command per item |
| ProtoApiWrapper.BuildCommandsAgainstMain | src/gtd/api_wrapper.py:33-38 | the i-th prototype command has the i-th main command's type, uuid and temp_id, its id is the item's id, and its fields are the i-th item serialised |
| ProtoApiWrapper.TodoistApiWrapper.constructor | src/gtd/api_wrapper.py:21-22 | the wrapper keeps its requester and token supply |
| ProtoApiWrapper.TodoistApiWrapper.GetAllTodoistObjects | src/gtd/api_wrapper.py:24-31 | one read request; missing kinds decode to empty lists |
| ProtoApiWrapper.TodoistApiWrapper.CreateUpdateCommand | src/gtd/api_wrapper.py:42-50 | the command for the item, built from the next tokens |
| ProtoApiWrapper.TodoistApiWrapper.BuildSyncCommands | src/gtd/api_wrapper.py:34-38 | the loop builds one command per item, in order |
| ProtoApiWrapper.TodoistApiWrapper.UpdateTodoistObjects | src/gtd/api_wrapper.py:33-40 | the commands for labels, filters, then projects, sent in one request |
| ProtoSyncManager.ExistingResources | src/gtd/todoist_sync_manager.py:28-30 | the read succeeds exactly when the reply holds both `labels` and `filters`, and keeps those two lists |
| ProtoSyncManager.FirstNamedStops | src/gtd/todoist_sync_manager.py:18-21 | the match is the first resource with that name; an earlier resource without a name raises `KeyError` |
| ProtoSyncManager.FirstNamed | src/gtd/todoist_sync_manager.py:18-21 | `next` over the resources with `existing["name"]` read on each; `FirstNamedStops` states what it finds |
| ProtoSyncManager.PlanKind | src/gtd/todoist_sync_manager.py:17-23 | at most one step per desired item |
| ProtoSyncManager.PlanKindSteps | src/gtd/todoist_sync_manager.py:17-23 | one step per item, in order, each built from that item's first match, up to the first failure; a missing match fails on `.get` |
| ProtoSyncManager.StepCommands | src/gtd/todoist_sync_manager.py:41-49 | one queued command per step |
| ProtoSyncManager.StepCommandsAppend | src/gtd/todoist_sync_manager.py:41-49 | queuing one more step appends exactly its command |
| ProtoSyncManager.SyncQueuesEveryItem | src/gtd/todoist_sync_manager.py:16-23 | when nothing fails, the labels' commands then the filters' are queued, carrying each item's fields |
| ProtoSyncManager.FirstMatchAgainstLastWins | src/gtd/todoist_sync_manager.py:18-22 | with two same-named resources the prototype takes the first one's id, while the main reconciler takes the last |
| ProtoSyncManager.PlanStopsAt | src/gtd/todoist_sync_manager.py:17-23 | after a failure, no further item adds a step |
| ProtoSyncManager.TodoistSyncManager.constructor | src/gtd/todoist_sync_manager.py:8-10 | the queue starts empty |
| ProtoSyncManager.TodoistSyncManager.GetExistingResources | src/gtd/todoist_sync_manager.py:28-30 | one read of labels and filters; the result is the checked reply |
| ProtoSyncManager.TodoistSyncManager.CreateUpdateItem | src/gtd/todoist_sync_manager.py:41-49 | exactly one command is appended; earlier commands are kept |
| ProtoSyncManager.TodoistSyncManager.SyncKind | src/gtd/todoist_sync_manager.py:17-23 | the inner loop queues the plan's commands and reports its failure |
| ProtoSyncManager.TodoistSyncManager.QueueCollection | src/gtd/todoist_sync_manager.py:16-23 | the outer loop queues labels then filters, stopping at the first failure |
| ProtoSyncManager.TodoistSyncManager.Sync | src/gtd/todoist_sync_manager.py:12-26 | on success, one read and one batch holding the whole queue, never cleared; on any failure, no batch; a failed read queues and draws nothing |
| TodoistScript.GenerateTitle | todoist.py:16-19 | the emojis, a space, then exactly the title-cased name |
| TodoistScript.TitleCapitalisesName | todoist.py:18 | each name letter is upper-cased exactly when it starts a run of letters |
| TodoistScript.FilterIsShorterClause | todoist.py:21-24 | the script's filter is the prototype clause with a 40-space pad instead of 60 |
| TodoistScript.GenerateFilter | todoist.py:21-24 | the script's query for one context; `FilterIsShorterClause` relates it to the prototype clause |
| TodoistScript.CreateFilterAddRequest | todoist.py:27-42 | type `filter_add`; args are the name, query, colour and favourite flag set |
| TodoistScript.FilterAddRequests | todoist.py:59-62 | one request per context, in order, with that context's title, filter and colour |
| TodoistScript.RequestTokensDistinct | todoist.py:27-34 | with an injective token supply, temp_ids and uuids never collide |
| TodoistScript.ScriptRequests | todoist.py:46-62 | the script builds nine favourite filter requests, the first for home in orange and the last in charcoal |
| Strings.TitleAt | autodoist/gtd/gtd_state.py:36 | `title` upper-cases exactly the letters that start a run of letters |
| Strings.TitleIdempotent | autodoist/gtd/gtd_state.py:36 | title-casing twice is title-casing once |
| Strings.Capitalize | autodoist/github/markdown.py:8 | first character upper-cased, the rest lower-cased |
| Strings.ReplaceChar | autodoist/github/markdown.py:13 | every occurrence of the character is replaced and nothing else changes |
| Strings.SplitJoinRoundTrip | autodoist/gtd/gtd_state.py:50 | splitting a join gives the parts back when no part holds the separator |
| Strings.NatToStringRoundTrip | autodoist/github/markdown.py:13 | parsing the decimal text of a number gives the number |
| Environment.Requester.MakeRequest | autodoist/todoist/api_wrapper.py:25-46 | the payload is recorded and the reply is the remote's answer to it |
| Environment.TokenSupply.Draw | autodoist/todoist/api_wrapper.py:90 | each draw returns the next token of the supply |

## Left out

- HTTP transport is not modelled: `make_request`, `_make_sync_request`, `_make_batched_sync_request` and the network call in `todoist.py`. The remote Todoist is a fixed reply function, and each request is a recorded call.
- `uuid.uuid4()` is randomness. It is a `TokenSupply`: a function from position to token plus a count of tokens drawn. Distinctness lemmas assume the function is injective.
- `dataclasses_json` and `json.dumps` are not modelled. Serialisation is an explicit, ordered field list per kind. Records are structured values, not JSON text. A fetched record's fields other than the colour must already have their declared types: a wrongly typed value, which `from_dict` would store or reject, cannot be written.
- YAML loading (`load_gtd_state_from_yaml`, `autodoist/gtd/data_loader.py`) is file I/O and a foreign parser.
- The CLI (`autodoist/cli.py`), GitHub client, logging and every `print` call are left out.
- `str.title` and `str.capitalize` are ASCII-only. Every other character counts as uncased.
- The module-level requests of `todoist.py` are modelled over an explicit token function, not over fresh `uuid4()` values.
- `autodoist/gtd/gtd_state.py` imports `GTDContext`, which `autodoist/models.py` does not define. The model takes it to be `Context`.
- Dispatch by exact type supports only the three entry kinds (two in the prototype). An entry of any other type, which would raise, cannot be written.
- The `your_data_classes` module of `src/gtd/api_wrapper.py` is not part of this model. Its classes are taken to be the concrete records of `autodoist/models.py`, with `as_dict` as `to_dict` and building from keyword arguments as `from_dict`.
- `src/gtd/todoist_sync_manager.py` uses `uuid`, `requests` and `TodoistCollection` without importing them. The model assumes they are imported.
- The prototype's outer loop over its two `(type, list)` pairs is written as two calls of the per-kind loop.
- The prototype reads `id` with `.get`. A non-numeric `id` value counts as absent.
- Where the prototype's `sync` raises, the model returns an error value. Any queued commands are kept.
- The dry-run subclass is modelled as a flag on the one wrapper class.
- `ReconcilerFixed.Patch` stands for Todoist applying the emitted records to the account, so that convergence can be stated. Todoist itself is not modelled.
- The reconciler works on records already decoded. It ignores server fields that `ConcreteTodoistProject` does not declare.
- The tests' expectations differ from the code in places; the model follows the code:
  - labels with `is_favorite` False;
  - a `| Name | Value |` header;
  - colour text;
  - `tests/test_api_wrapper.py` feeds the colour code `#ffffff`, which `Color(...)` rejects (`ApiWrapper.HexColorRejected`).
- The textual Markdown sample of `tests/test_markdown.py` is not reproduced. The section structure is proved instead.
- Colours in the Markdown report print as their Python enum member name (`Color.RED`), as `str()` of an `Enum` member does.

## Findings

| source | as written | input that shows it | evidently intended | confidence | as-written member | corrected member |
|---|---|---|---|---|---|---|
| autodoist/todoist/sync_manager.py:67-70 | The update record is decoded from the diff plus `id` and `name`, so agreeing fields fall back to their class defaults. | Desired label `call` in berry_red, favourite; existing `call` in yellow, favourite, id 123. The update resets the favourite flag; the next pass resets the colour; and so on. | The update record is the desired record under the existing id, so one pass settles the account. | not executed | ReconcilerFixed.AsWrittenUpdateOscillates | ReconcilerFixed.FixedReconcileSettles |
| autodoist/todoist/sync_manager.py:60-70 | A filter update whose query already agrees has no `query` key, and `from_dict` raises `KeyError`. | Desired filter `Next` with query `@next` in berry_red; existing `Next` with query `@next` in grey, id 7. | Recolouring a filter emits an update that keeps its query. | not executed | ReconcilerFixed.AsWrittenFilterRecolourRaises | ReconcilerFixed.FixedFilterUpdateKeepsQuery |
| autodoist/todoist/api_wrapper.py:82 | `json.dumps` is called, but the file never imports `json`. | Any non-dry-run call of `update_todoist_objects`. | The commands are sent in one request. A bare `import json` would not be enough: `json.dumps` would then raise `TypeError` on the `Color` members that `to_dict()` keeps. `tests/test_app.py:104-121` expects the commands as a list of dicts, as the corrected member sends them. | not executed | ApiWrapper.TodoistApiWrapper.UpdateTodoistObjectsAsWritten | ApiWrapper.TodoistApiWrapper.UpdateTodoistObjects |
