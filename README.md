# Genie space configuration edits, modelled in Dafny

The `genie_api` example scripts create and edit Databricks Genie spaces. A space
is described by its `serialized_space`: a version-2 JSON document. Its parts are:

- `data_sources`, holding `tables` and `metric_views`, keyed by `identifier`;
- `instructions`, holding `text_instructions`, `example_question_sqls` and
  `sql_snippets` (`measures`, `filters`, `expressions`), keyed by `id`;
- `config`, holding `sample_questions`, keyed by `id`.

The service wants every id-keyed list sorted. The scripts edit the document in four ways:

- a normaliser sorts every such list (`sort_serialized_space`);
- list edits append and re-sort, filter out one identifier, or replace one branch wholesale;
- `setdefault` creates a missing branch before an append;
- the create-request builders must emit lists that are already sorted.

The cleanup script adds two more rules:

- it selects the spaces whose title contains a keyword, ignoring case;
- it drops each test object as a table, or as a view when the table drop fails.

This project models that layer and proves what the scripts rely on.

- The document is a tree of datatypes (`SpaceDoc`).
  - `Option` fields stand for keys that may be absent.
  - Each branch, and each entry of a list, keeps its unknown keys in a `rest` map.
  - Every id-keyed list is a list of `Entry` values whose `id` may be missing. The sort key reads a missing `id` as `""`, like `x.get("id", "")`.
- Python's `str` order is code-point lexicographic order (`StringOrder.LessEq`).
- Python's `sorted` (Timsort) is modelled as a stable insertion sort (`Lists.SortBy`). Lemmas prove it is ordered, a permutation, stable and idempotent; `Lists.SortByUnique` shows that every stable sort gives the same list.
- The dictionary the scripts edit in place is a class, `SpaceDoc.Space`, with one field per top-level key.
  - Each edit is a method on that object.
  - Each method is proved equal to a function on the document value.
  - Lemmas about that function state the promised properties.
  - An edit that can raise returns `Outcome` (`Pass` or `Fail(KeyError | IndexError)`). On failure the document is left exactly as it was before the raising step.
- The create-request builders are functions. Fresh ids are parameters, taken in the order in which `gen_id()` is called.
- The cleanup filter and the drop loop are methods with loops.
  - Each method is proved equal to `Filter` over the selection rule, or to the per-object fallback rule.
  - The statement service is a function parameter `exec` from statement text to its response.

Modules: `Wrappers`, `StringOrder`, `Lists`, `SpaceDoc` (document and shared accessors),
`RunTests` (run_tests.py), `Edits` (the list edits the scripts share),
`Metrics` (01_metrics.py), `ManageDataSources` (02_data_sources.py),
`Context` (04_context.py), `Demo` (demo.py) and `Cleanup` (05_cleanup.py).

## Model

| member | source | states |
|---|---|---|
| StringOrder.LessEqTotal | run_tests.py:94-96 | Python's string comparison is total: of any two strings one is at most the other |
| StringOrder.LessEqTransitive | run_tests.py:94-96 | the string order is transitive |
| StringOrder.LessEqAntisymmetric | run_tests.py:94-96 | two strings each at most the other are equal |
| StringOrder.LessEqCommonPrefix | 02_data_sources.py:63-67 | a shared prefix such as `catalog.schema.` does not affect the comparison |
| Lists.SortBy | run_tests.py:94-109 | definition: `sorted(l, key=...)`, as a stable insertion sort by the key |
| Lists.SortBySorted | run_tests.py:94-109 | the result of `sorted(..., key=...)` is non-decreasing by the key |
| Lists.SortByStable | run_tests.py:94-109 | `sorted` is stable: the entries with any one key come out in their input order |
| Lists.SortByIsStableSort | run_tests.py:94-109 | `sorted` gives an ordered permutation of its input that keeps equal keys in input order |
| Lists.SortByIdempotent | run_tests.py:94-109 | sorting a sorted list again changes nothing |
| Lists.SortByOfSorted | run_tests.py:94-109 | a list already in order is returned unchanged |
| Lists.SortByUnique | run_tests.py:94-109 | any ordered list with the same entries per key, in the same order, is the `sorted` result |
| Lists.Filter | run_tests.py:268-271 | definition: `[x for x in l if p(x)]`; the result is no longer than the input and holds only elements that pass |
| Lists.FilterCounts | run_tests.py:268-271 | the comprehension keeps every occurrence of a kept value and drops all others |
| Lists.FilterIsSubsequence | run_tests.py:268-271 | the comprehension keeps the surviving elements in their original order |
| Lists.FilterKeepsAll | 02_data_sources.py:120-123 | when every element passes the test, the comprehension returns the list unchanged |
| SpaceDoc.Space.SetDefaultDataSources | 01_metrics.py:169 | `setdefault("data_sources", {})` returns the existing branch, or a new empty one that it stores; nothing else changes |
| SpaceDoc.Space.SetDefaultInstructions | 01_metrics.py:91 | `setdefault("instructions", {})` returns the existing branch, or a new empty one that it stores; nothing else changes |
| RunTests.Normalized | run_tests.py:91-110 | definition: the document `sort_serialized_space` returns, as a value |
| RunTests.SortSerializedSpace | run_tests.py:91-110 | the in-place normaliser leaves the dictionary holding exactly `Normalized` of what it held |
| RunTests.SortTablesStep | run_tests.py:93-96 | the tables are re-sorted by identifier only when both `data_sources` and `tables` are present |
| RunTests.SortSnippetsStep | run_tests.py:97-100 | each present `measures`/`filters`/`expressions` list is re-sorted by `id`; absent keys stay absent |
| RunTests.SortInstructionListsStep | run_tests.py:101-106 | `example_question_sqls` and `text_instructions` are re-sorted only when non-empty |
| RunTests.SortSampleQuestionsStep | run_tests.py:107-109 | `sample_questions` is re-sorted only when non-empty |
| RunTests.SortedIfPresentIsStableSort | run_tests.py:97-100 | a list sorted when present is a stable sort of it; absence stays absence |
| RunTests.SortedIfNonEmptyIsStableSort | run_tests.py:101-109 | a list sorted only when non-empty is still a stable sort of it; absent or empty lists are unchanged |
| RunTests.NormalizedSortsEveryList | run_tests.py:93-109 | every listed list becomes a stable sort of itself by its key (a permutation, ordered, equal keys in input order); no branch appears or disappears |
| RunTests.NormalizedKeepsOtherKeys | run_tests.py:91-110 | `version`, `metric_views` and all unknown keys are returned untouched |
| RunTests.NormalizedIsNormalized | run_tests.py:91-110 | after normalising, every id-keyed list present is ordered |
| RunTests.SortedIfPresentOfSorted | run_tests.py:97-100 | an ordered or absent list is left as it is |
| RunTests.SortedIfNonEmptyOfSorted | run_tests.py:101-109 | an ordered, empty or absent list is left as it is |
| RunTests.NormalizedOfNormalized | run_tests.py:91-110 | a document already in order is returned unchanged |
| RunTests.NormalizedIdempotent | run_tests.py:91-110 | normalising twice is the same as normalising once |
| RunTests.UpdatedInstructions | run_tests.py:67-68 | definition: `ss["instructions"].update(extra_instructions)` on the modelled keys |
| RunTests.UpdatedInstructionsSpec | run_tests.py:67-68 | each key present in `extra_instructions` replaces the default; the other defaults stay; unknown keys of `extra` override those of the base; well-formed inputs give a well-formed result |
| RunTests.CreateTestSpace | run_tests.py:52-80 | definition: the create request of `create_test_space` up to the POST |
| RunTests.CreateTestSpaceWithoutExtras | run_tests.py:52-72 | without extras the test space is one `invoices` table and one "Test space." text instruction, at version 2 |
| RunTests.CreateTestSpaceMerge | run_tests.py:52-72 | keys of `extra_instructions` override the defaults as in `dict.update`, and the other keys keep their defaults; a non-empty `extra_config` becomes `config`; the result is normalised |
| Edits.MeasureAppended | run_tests.py:148-150 | definition: `measures.append(m)` on the document, `KeyError` when a key on the path is missing |
| Edits.AppendMeasure | run_tests.py:148-150 | the in-place append equals `MeasureAppended` of the old document, including its failure |
| Edits.SortMeasures | demo.py:292-294 | the in-place re-sort equals `MeasuresResorted` of the old document |
| Edits.MeasureAppendedSpec | run_tests.py:148-150 | the append raises `KeyError` exactly when a key on the path is missing; otherwise the measure goes to the end and nothing else changes |
| Edits.AppendMeasureThenNormalize | run_tests.py:136-159 | append then normalise: the list grows by one (two measures become three), holds the old ones plus the new one, and is sorted |
| Edits.AppendThenSortMeasures | demo.py:287-294 | append then `sorted_by_id`: one more measure, sorted, the old ones kept |
| Edits.TablesWithoutSpec | run_tests.py:268-271 | remove-by-identifier keeps exactly the tables with another identifier, in their order and number; the identifier is gone; absent means unchanged |
| Edits.TableRemoved | run_tests.py:268-271 | definition: `tables` reassigned to the comprehension that drops the identifier, `KeyError` when a key is missing |
| Edits.RemoveTable | run_tests.py:268-271 | the in-place removal equals `TableRemoved` of the old document, including its failure |
| Edits.TableRemovedSpec | run_tests.py:268-277 | removal fails exactly when `data_sources` or `tables` is missing, and then with `KeyError`; on success only the list changes |
| Edits.TableRemovedAbsent | run_tests.py:268-271 | removing an identifier no table has gives back the same document |
| Edits.TablesAssigned | run_tests.py:284-287 | definition: `config["data_sources"]["tables"] = tables`, `KeyError` without `data_sources` |
| Edits.AssignTables | run_tests.py:284-287 | the in-place assignment equals `TablesAssigned` of the old document |
| Edits.AssignTablesThenNormalize | run_tests.py:284-287 | assign then normalise: `KeyError` exactly without `data_sources`; otherwise the tables are the given ones, sorted and with the same count; `metric_views`, the unknown keys of `data_sources`, `version` and the top-level unknown keys are kept; `instructions` and `config` are normalised as they would be without the assignment |
| Edits.AppendTable | demo.py:324 | the in-place append of a bare table equals `TableAppended` of the old document |
| Edits.SortTables | demo.py:325-327 | the in-place re-sort equals `TablesResorted` of the old document |
| Edits.AddAbsentTableOnce | demo.py:324-327 | adding an identifier no table has, then sorting, leaves it in the list exactly once |
| Edits.NoKeyNoGroup | demo.py:324-327 | a list without the identifier has no entry under that key |
| Edits.RemoveThenReAddTables | demo.py:310-327 | remove, append again, sort: the list is sorted, has the identifier exactly once, and keeps every other table |
| Edits.RemoveThenReAdd | demo.py:310-327 | the same on the document: only `data_sources.tables` changes |
| Edits.InstructionContentAppended | 04_context.py:193-195 | definition: `text_instructions[0]["content"].append(line)`, with `KeyError` or `IndexError` on the way |
| Edits.AppendInstructionContent | 04_context.py:193-195 | the in-place append to `text_instructions[0].content` equals `InstructionContentAppended` of the old document |
| Edits.InstructionContentAppendedSpec | 04_context.py:193-195 | a missing `instructions` or `text_instructions` raises `KeyError`, an empty list `IndexError`, a first entry without `content` `KeyError`, and nothing else raises; otherwise the line ends the first entry's content, and the entry count, the ids, the other entries and the other branches stay as they were |
| Metrics.InlineMeasuresRequest | 01_metrics.py:24-71 | definition: the create request of `create_space_with_inline_measures` |
| Metrics.InlineMeasuresRequestSpec | 01_metrics.py:24-71 | the created document has exactly the three measures as written, sorted by `id`, one `invoices` table, and every list in order |
| Metrics.MeasuresReplaced | 01_metrics.py:91-103 | definition: the document after `update_space_measures`' edit |
| Metrics.UpdateSpaceMeasures | 01_metrics.py:91-103 | the in-place edit equals `MeasuresReplaced` of the old document |
| Metrics.MeasuresReplacedSpec | 01_metrics.py:88-103 | `measures` becomes exactly the two new entries sorted by `id`; `instructions` and `sql_snippets` are created when absent; siblings are kept; `data_sources` and `config` are untouched and not re-sorted |
| Metrics.MeasuresReplacedDiscardsPrior | 01_metrics.py:92-103 | the prior measures are discarded: the result does not depend on them, and repeating the edit changes nothing |
| Metrics.MeasuresReplacedKeepsNormalized | 01_metrics.py:88-107 | the other lists are not re-sorted, so a document in order stays in order |
| Metrics.MetricViewAttached | 01_metrics.py:169-173 | definition: the document after `attach_metric_view_to_space`'s edit |
| Metrics.AttachMetricViewToSpace | 01_metrics.py:169-173 | the in-place edit equals `MetricViewAttached` of the old document |
| Metrics.MetricViewAttachedSpec | 01_metrics.py:169-173 | `data_sources`/`metric_views` are created when absent; exactly one `mv_invoice` view is appended at the end; earlier views and `tables` keep their order |
| Metrics.AttachTwice | 01_metrics.py:171-173 | there is no duplicate check: attaching twice leaves two equal entries at the end |
| Metrics.MetricViewAttachedKeepsNormalized | 01_metrics.py:169-173 | attaching keeps a normalised document normalised |
| SpaceDoc.SortedById | demo.py:28-29 | definition: `sorted_by_id` (and `_sorted_by_id` of 04_context.py:61-63), `sorted` keyed by `x.get("id", "")` |
| SpaceDoc.QualifiedOrder | 02_data_sources.py:63-67 | the qualified names order as accounts < invoices < payments |
| ManageDataSources.DataSourcesRequest | 02_data_sources.py:55-86 | definition: the create request of `create_space_with_data_sources` |
| ManageDataSources.DataSourcesRequestSpec | 02_data_sources.py:55-86 | the created tables are exactly accounts, invoices, payments, in that order, and the document is in order |
| ManageDataSources.DataSourcesRequestTables | 02_data_sources.py:63-67 | the tables written as invoices, payments, accounts come out as accounts, invoices, payments |
| ManageDataSources.DataSourceAdded | 02_data_sources.py:99-103 | definition: the document after `add_data_source`'s edit |
| ManageDataSources.AddDataSource | 02_data_sources.py:99-103 | the in-place edit equals `DataSourceAdded` of the old document |
| ManageDataSources.AddedTablesSpec | 02_data_sources.py:100-103 | append then sort: sorted, one longer, the old tables plus `{identifier}` as a multiset, no duplicate check, input order kept among equal identifiers |
| ManageDataSources.DataSourceAddedSpec | 02_data_sources.py:99-103 | missing `data_sources`/`tables` are created empty; nothing outside `tables` changes |
| ManageDataSources.DataSourceRemoved | 02_data_sources.py:120-123 | definition: the document after `remove_data_source`'s edit, `KeyError` without `data_sources` |
| ManageDataSources.RemoveDataSource | 02_data_sources.py:120-123 | the in-place edit equals `DataSourceRemoved` of the old document, including its failure |
| ManageDataSources.DataSourceRemovedSpec | 02_data_sources.py:120-123 | raises `KeyError` exactly when `data_sources` is missing; otherwise no remaining table has the identifier, the others keep their order and number, a missing `tables` becomes `[]`, and an absent identifier changes nothing |
| ManageDataSources.BareTables | 02_data_sources.py:142 | one bare table per identifier, in the given order |
| ManageDataSources.BareTablesCount | 02_data_sources.py:142 | each identifier yields one table, with duplicates kept |
| ManageDataSources.AllDataSourcesReplaced | 02_data_sources.py:140-145 | definition: the document after `replace_all_data_sources`' edit |
| ManageDataSources.ReplaceAllDataSources | 02_data_sources.py:140-145 | the in-place edit equals `AllDataSourcesReplaced` of the old document |
| ManageDataSources.AllDataSourcesReplacedSpec | 02_data_sources.py:140-145 | `data_sources` becomes only the sorted bare tables, with a count equal to the input's; `metric_views` and `column_configs` are discarded; the other branches are unchanged |
| ManageDataSources.CreateThenRemoveAccounts | 02_data_sources.py:161-168 | the script's run (create, then remove `accounts` from the re-fetched document): when the fetched tables are the ones sent, invoices and payments remain, in that order |
| Context.SortedByIdPermutes | 04_context.py:61-63 | `_sorted_by_id` returns a permutation of its input ordered by `id`, with a missing `id` read as `""` |
| Context.FullContextTablesOrder | 04_context.py:139-150 | `invoices`, written first, sorts between `accounts` and `payments` |
| Context.FullContextListsSpec | 04_context.py:69-129 | each id-keyed list is a sorted permutation of the entries as written; the counts are 4 questions, 1 text instruction, 2 example SQLs, 2 filters, 1 expression and 3 measures |
| Context.ContextDocumentNormalized | 04_context.py:131-162 | the assembled document is in order when each of its lists is |
| Context.BuildFullContextPayload | 04_context.py:66-162 | definition: `build_full_context_payload(warehouse_id)`, with the fresh ids as a parameter |
| Context.FullContextPayloadSpec | 04_context.py:131-162 | `warehouse_id` is the argument, `version` is 2, and the tables are accounts, invoices (with column configs), payments; there are no metric views |
| Context.FullContextPayloadNormalized | 04_context.py:66-162 | every list of the payload is in order |
| Context.AppendFiscalYearRule | 04_context.py:193-195 | the update step equals `InstructionContentAppended` with the fiscal-year line |
| Context.FiscalYearRuleOnCreated | 04_context.py:187-195 | on a fetched document whose `instructions` are those the payload created, the update succeeds; one text instruction remains, its content is the written lines plus the rule, and nothing else changes |
| Demo.SpaceATablesSorted | demo.py:107-118 | Space A's tables are written in order already |
| Demo.CreateSpaceA | demo.py:46-146 | definition: the create request of `create_space_a` |
| Demo.CreateSpaceASpec | demo.py:46-146 | Space A goes to the demo's warehouse, with its title, and tables accounts, invoices (with column configs), payments |
| Demo.SpaceAMeasuresSpec | demo.py:56-61 | Space A holds the four measures as written, sorted by `id` |
| Demo.CreateSpaceANormalized | demo.py:49-118 | every id-keyed list of Space A is sorted by `id`, and its tables by `identifier` |
| Demo.MeasureAddedAndSorted | demo.py:287-294 | definition: step 3 on a document, append `revenue_per_invoice` then `sorted_by_id` |
| Demo.Step3AddMeasure | demo.py:287-294 | the in-place step equals `MeasureAddedAndSorted` of the old document |
| Demo.Step3Spec | demo.py:287-294 | step 3 adds exactly one measure and leaves the list sorted, with the old measures kept |
| Demo.Step3Frame | demo.py:287-294 | step 3 changes nothing outside `instructions` |
| Demo.Step3OnSpaceA | demo.py:287-303 | on Space A as fetched, step 3 gives five measures: the four and `revenue_per_invoice` |
| Demo.Step4RemovePayments | demo.py:310-313 | the in-place removal of `payments` equals `TableRemoved` of the old document |
| Demo.PaymentsReAdded | demo.py:324-327 | definition: step 4's re-add, append `payments` then sort by identifier |
| Demo.Step4ReAddPayments | demo.py:324-327 | the in-place re-add equals `PaymentsReAdded` of the old document |
| Demo.PaymentsReAddedTables | demo.py:324-327 | the re-add succeeds whenever the tables exist, and gives the old tables plus `payments`, sorted by identifier |
| Demo.Step4RoundTrip | demo.py:310-327 | remove then re-add: sorted, `payments` exactly once, every other table kept |
| Demo.Step4OnSpaceA | demo.py:310-327 | on Space A as fetched the removal leaves accounts and invoices in order; when the document re-fetched before the re-add holds those tables, the re-add restores the three tables as created |
| Demo.Step6AppendRule | demo.py:370-372 | the in-place step equals `InstructionContentAppended` with the overdue line |
| Demo.Step6OnSpaceA | demo.py:366-372 | on Space A re-fetched with the `instructions` it was created with, one text instruction remains, its last line is the overdue rule, and nothing outside `instructions` changes |
| Demo.SpaceBTablesSorted | demo.py:198-202 | Space B's tables are written in order already |
| Demo.CreateSpaceB | demo.py:195-232 | definition: the create request of `create_space_b(with_metric_view)` |
| Demo.CreateSpaceBSpec | demo.py:195-213 | the tables are accounts, invoices, payments; `metric_views` is present iff `with_metric_view`, and then holds only `mv_invoice` |
| Demo.CreateSpaceBTitle | demo.py:210-215 | the title and description are chosen by the same flag, and the two titles differ |
| Demo.CreateSpaceBNormalized | demo.py:195-233 | every list of Space B is in order |
| Cleanup.Lower | 05_cleanup.py:47 | `lower()` keeps the length and lower-cases each ASCII letter in place |
| Cleanup.LowerConcat | 05_cleanup.py:47 | lower-casing distributes over concatenation |
| Cleanup.ContainsAt | 05_cleanup.py:47 | `kw in title` holds exactly when the keyword occurs at some position of the title |
| Cleanup.AnyKeywordInIff | 05_cleanup.py:47 | `any(...)` holds exactly when some keyword of the list occurs in the lower-cased title |
| Cleanup.IsTestSpace | 05_cleanup.py:46-47 | definition: `any(kw.lower() in s.get("title", "").lower() for kw in keywords)` |
| Cleanup.FindTestSpaces | 05_cleanup.py:44-49 | the loop returns exactly the listed spaces that the selection rule accepts, in listing order |
| Cleanup.FindTestSpacesSpec | 05_cleanup.py:44-49 | the result is a subsequence of the listing; a space is in it iff it is listed and selected; each is kept as often as listed and never more; each selected title contains a keyword, ignoring case |
| Cleanup.NoSpacesKey | 05_cleanup.py:45 | a listing without `spaces` selects nothing |
| Cleanup.MissingTitleNeverMatches | 05_cleanup.py:46-47 | a missing `title` reads as `""` and is never selected |
| Cleanup.NothingInEmpty | 05_cleanup.py:46-47 | no list of non-empty keywords matches the empty title |
| Cleanup.KeywordPrefixSelected | 05_cleanup.py:42-47 | a title that starts with a keyword is selected, whatever follows it |
| Cleanup.CaseIgnored | 05_cleanup.py:47 | titles that are equal up to ASCII case are selected alike |
| Cleanup.ScriptTitlesSelected | 05_cleanup.py:33-40 | each of the first seven keywords, used as a title, is selected |
| Cleanup.RunnerTitlesSelected | run_tests.py:133 | the four titles under which the test runner creates its spaces (run_tests.py:133, 249, 310, 435) are selected |
| Cleanup.ExampleTitlesSelected | 05_cleanup.py:33-43 | the titles of the create requests in 01_metrics.py, 02_data_sources.py and 04_context.py are selected |
| Cleanup.DemoTitlesSelected | 05_cleanup.py:42-47 | the three "Genie API Demo — …" titles are selected through the keyword "Genie API Demo" |
| Cleanup.DropState | 05_cleanup.py:62-66 | definition: the state kept for one object, the DROP TABLE state or else the DROP VIEW state |
| Cleanup.DropStateSucceeded | 05_cleanup.py:62-66 | an object reports `SUCCEEDED` exactly when its table drop or its view drop succeeded |
| Cleanup.DropTestTables | 05_cleanup.py:52-68 | exactly four `(object, state)` pairs in the fixed object order; each state is the DROP TABLE state if that was `SUCCEEDED`, otherwise the DROP VIEW state |

## Left out

- Networking. `api_request`, `get_token`, `get_space`, `update_space`, `delete_space`, `list_spaces`, `get_space_config`, `get_context` and `execute_sql`'s transport are not modelled. A fetched document is a parameter; a statement's response comes from the function `exec`.
- config.py is not part of this model. It holds the credential bootstrap, the global host, token and warehouse, and `gen_id`. Fresh ids are parameters, and nothing is assumed about their shape.
- 03_permissions.py is not part of this model. Its functions only send one-line ACL payloads, and demo.py step 5 just calls them.
- `json.dumps`/`json.loads`: the document is modelled as structured values, not as text.
- The remote store's behaviour is not modelled: what it returns on the next GET, and whether it rejects unsorted lists. The lemmas about an edit of a re-fetched space (`Demo.Step3OnSpaceA`, `Demo.Step4OnSpaceA`, `Demo.Step6OnSpaceA`, `Context.FiscalYearRuleOnCreated`, `ManageDataSources.CreateThenRemoveAccounts`) take each fetched document as a parameter and require only that the branch they edit is the one that was sent.
- `create_metric_view`: the DDL text, its HTTP call and the JSON-decode fallback are not modelled. Its success is the flag `with_metric_view` of `create_space_b`. The `SUCCEEDED` test before `attach_metric_view_to_space` in 01_metrics.py's main is left to the caller.
- All `print` output, the `input()` confirmation, the deletion loop and the `--tables`/`--schema` switches of 05_cleanup.py are not modelled, and neither are demo.py's step 2 (print-only checks) and the test runner's main loop.
- `drop_test_schema` is a single statement with no logic, and it is not modelled.
- Cleanup.Lower: `str.lower()` is modelled for ASCII letters only; full Unicode case mapping is not.
- Cleanup.DropTestTables: `exec` is a pure function, so repeating a statement gives the same answer; side effects of one drop on the next are not modelled.
- Tables always carry an `identifier`, every entry of `text_instructions` a `content` list, and titles are strings. The `KeyError` or `TypeError` the scripts would raise on documents without them is not modelled. The one exception is the first text instruction: an entry there of another kind stands for one without `content`, and `Edits.InstructionContentAppended` raises `KeyError` on it.
- `KeyError` carries no key name.
- The literal documents that test_02 and test_04 of run_tests.py build are not modelled separately. They are assembled like `CreateTestSpace` and the 02/04 builders.
- SQL and YAML text inside snippets and DDL is kept as opaque strings.
- Nested branches are modelled as values that the edit methods reassign in the `Space` object. The scripts do hold other references to some of them: `snippets` in run_tests.py:97, `ctx` and `snippets` in run_tests.py:448-456, `ti` in demo.py:371 (read again by `len(ti)` at demo.py:376), and the caller's `extra_instructions["sql_snippets"]` that `create_test_space` places in its document (run_tests.py:67-72). Each such alias either edits that same live branch or is only read, by `print` or `assert`, so reassigning the branch gives the same document. The effect on the caller's own dictionary is not modelled.
