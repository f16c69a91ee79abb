# Xtricate.DocSet: criteria-to-SQL builder and sequence-trace recorder, in Dafny

This project models two small sequential components of the Xtricate document store and proves properties of them.

**`SqlBuilding`** (`sql_builder.dfy`) models `SqlBuilder`. It turns a query criterion (field name, operator, value) into a fragment of a SQL `WHERE` clause.
- `BuildCriteriaSelect` searches the document type's index maps for the first one whose name equals the criterion's name, ignoring case.
- If that map is multi-valued (it has a value list and no single value), an `Eq` criterion is rewritten in place to `Eqm`.
- The criterion is then rendered against the index column `[<lower-cased name>_idx]`, using one fixed template per operator.
- `BuildTagSelect` renders the tag filter. The paging clause and the table-enumeration query are constants.

Strings are `seq<char>`. A C# `null` is `Option.None`, and interpolating a null string gives `""` (`Nullable.Text`). The caller's criterion is a `Criteria` object whose `op` field the method may modify.

`Template` gives the operator table. `ParseFragment` reads a fragment back, and it is the inverse used in the round-trip lemma.

**`SeqTrace`** (`seq_trace.dfy`) models `Seq`, a recorder for sequence diagrams. Its process-wide static state is fields of one `Recorder` object:
- a caller stack (`froms`, whose top is the last element);
- an append-only list of steps;
- a title, and the `enabled` and `loggingEnabled` flags.

A `Seq` object is one `using` scope. While the recorder is enabled, the constructor pushes the callee and records a call from the current top, if there is one. With at least two callers on the stack, `DisposeCore` (`Dispose(bool)`) pops the callee. It records a return only when the popped name differs from the new top.

`Trace` is the recorder's state as a value. `Enter`, `Exit`, `Annotate` and `Cleared` give the effect of each operation on it. Every `Recorder` and `Seq` method is proved to change the state exactly as its function says. `Run` folds a list of operations, which lets lemmas describe whole sequences of calls.

`Nullable` (`nullable.dfy`) holds the `Option`, `Outcome` and `Result` types. It also holds the interpolation of nullable strings.

Two names differ from the C# code, because Dafny has no overloading:
- the three-argument `BuildCriteriaSelect(column, op, value)` is `BuildColumnSelect`;
- `Dispose(bool)` is `DisposeCore`.

## Model

| member | source | states |
|---|---|---|
| `SqlBuilding.Lower` | Xtricate.DocSet/SqlBuilder.cs:46-59 | `column.ToLower()` keeps the length of the name; `LowerAt` gives each character |
| `SqlBuilding.LowerAt` | Xtricate.DocSet/SqlBuilder.cs:46 | every character of `ToLower()` is that character lower-cased (ASCII letters only) |
| `SqlBuilding.LowerIdempotent` | Xtricate.DocSet/SqlBuilder.cs:46 | lower-casing an already lower-cased name changes nothing |
| `SqlBuilding.LowerOfLowerCase` | Xtricate.DocSet/SqlBuilder.cs:46 | a name with no upper-case letter is its own lower-case form |
| `SqlBuilding.NameMatches` | Xtricate.DocSet/SqlBuilder.cs:31 | a map's name never matches a null criterion name; under the ASCII case model, a match implies names of equal length; every name matches itself |
| `SqlBuilding.IndexMap.IsMultiValued` | Xtricate.DocSet/SqlBuilder.cs:35 | a map with a single value is never multi-valued, and neither is a map without a value list |
| `SqlBuilding.FirstMatch` | Xtricate.DocSet/SqlBuilder.cs:30-31 | `FirstOrDefault` yields a position inside the index-map sequence, or nothing |
| `SqlBuilding.FirstMatchIsFirst` | Xtricate.DocSet/SqlBuilder.cs:30-32 | the search returns the first map whose name equals the criterion's name up to case; it returns nothing exactly when no map matches, and a null criterion name matches nothing |
| `SqlBuilding.FirstMatchUnique` | Xtricate.DocSet/SqlBuilder.cs:30-31 | at most one position is the first match |
| `SqlBuilding.FirstMatchOfConcatFound` | Xtricate.DocSet/SqlBuilder.cs:30-31 | first match wins: maps after the first match are never consulted, so duplicates later in the sequence do not matter |
| `SqlBuilding.FirstMatchOfConcatSkipped` | Xtricate.DocSet/SqlBuilder.cs:30-31 | non-matching maps in front only shift the position of the match |
| `SqlBuilding.FirstMatchIgnoresCase` | Xtricate.DocSet/SqlBuilder.cs:30-31 | two criterion names equal up to case select the same map |
| `SqlBuilding.EffectiveOperator` | Xtricate.DocSet/SqlBuilder.cs:35-36 | the operator becomes `Eqm` if and only if it was `Eqm` already, or it was `Eq` and the map has values but no single value; any change is exactly that rewrite |
| `SqlBuilding.Resolve` | Xtricate.DocSet/SqlBuilder.cs:26-36 | nothing when there are no index maps or none matches the name; otherwise the first matching map's own name and the rewritten operator |
| `SqlBuilding.ResolveIgnoresCase` | Xtricate.DocSet/SqlBuilder.cs:30-31 | a criterion resolves the same way whatever the letter case of its name |
| `SqlBuilding.ResolveStableOnReuse` | Xtricate.DocSet/SqlBuilder.cs:35-36 | resolving a reused criterion after the in-place rewrite gives the same column and operator again |
| `SqlBuilding.TemplateShape` | Xtricate.DocSet/SqlBuilder.cs:45-59 | every template closes the value's quoted literal and ends with a space; `LIKE` is used exactly for `Contains` and `Eqm`; only the four range comparisons close the literal right after the value, with no trailing `\|\|` |
| `SqlBuilding.ColumnReference` | Xtricate.DocSet/SqlBuilder.cs:46-59 | ` AND [`, then the lower-cased column, then the `_idx` suffix and `] ` |
| `SqlBuilding.SqlBuilder.constructor` | Xtricate.DocSet/SqlBuilder.cs:15 | the builder keeps the options it is given |
| `SqlBuilding.SqlBuilder.Create` | Xtricate.DocSet/SqlBuilder.cs:11-16 | construction fails with `ArgumentNullException("options")` if and only if `options` is null |
| `SqlBuilding.SqlBuilder.BuildTagSelect` | Xtricate.DocSet/SqlBuilder.cs:19-22 | the tag filter never fails; it is the fixed head ` AND [tags] LIKE '%\|\|`, the tag spliced in verbatim (null as empty), then the fixed tail `\|\|%'` |
| `SqlBuilding.SqlBuilder.BuildColumnSelect` | Xtricate.DocSet/SqlBuilder.cs:41-60 | nothing if and only if the column is null or empty; otherwise the column reference ` AND [<lower(column)>_idx] ` followed by the operator's template around the value, per the `Template` table (`Eq` also covers any other operator) |
| `SqlBuilding.SqlBuilder.BuildPagingSelect` | Xtricate.DocSet/SqlBuilder.cs:62-66 | the paging clause is empty for every skip and take: paging never restricts a query |
| `SqlBuilding.SqlBuilder.TableNamesSelect` | Xtricate.DocSet/SqlBuilder.cs:68-73 | the table-enumeration query is the same fixed text on every call |
| `SqlBuilding.SqlBuilder.BuildCriteriaSelect` | Xtricate.DocSet/SqlBuilder.cs:24-39 | returns nothing and leaves the criterion unchanged when the maps are null or empty, the criterion is null, or no map matches; otherwise it sets the criterion's operator to the resolved one, changes no other field, and returns the fragment for the matched map's name, the new operator and the criterion's value |
| `SqlBuilding.ParseBuiltFragment` | Xtricate.DocSet/SqlBuilder.cs:41-60 | round trip: reading a rendered fragment back gives the operator and the value it was rendered from |
| `SqlBuilding.ParseRendered` | Xtricate.DocSet/SqlBuilder.cs:45-59 | a column reference followed by any operator template around a value reads back as that operator and value |
| `SqlBuilding.OperatorOfTemplate` | Xtricate.DocSet/SqlBuilder.cs:45-59 | each operator's template can be told apart from every other operator's template by its first characters |
| `SqlBuilding.BuildColumnSelectInjective` | Xtricate.DocSet/SqlBuilder.cs:41-60 | for one column, two fragments are equal if and only if their operators and their value texts are equal: different operators or different values never render the same fragment |
| `SqlBuilding.BuildColumnSelectIgnoresCase` | Xtricate.DocSet/SqlBuilder.cs:43-59 | the fragment depends only on the lower-cased column name |
| `SqlBuilding.ResolvedColumnRendersAsCriterionName` | Xtricate.DocSet/SqlBuilder.cs:38 | under the ASCII case model, the column is rendered from the matched map's name, and that renders exactly as the criterion's own name would. Under .NET culture rules the search and the render can disagree (see `SqlBuilding.Lower` under Left out) |
| `SqlBuildingExamples.SingleValuedKeepsEq` | Xtricate.DocSet/SqlBuilder.cs:35-36 | a map with a single value keeps an `Eq` criterion as `Eq` |
| `SqlBuildingExamples.MultiValuedRewritesEq` | Xtricate.DocSet/SqlBuilder.cs:35-36 | a map with a value list and no single value turns `Eq` into `Eqm` |
| `SqlBuildingExamples.MatchIgnoresCase` | Xtricate.DocSet/SqlBuilder.cs:30-38 | criterion `price` matches map `Price`, and the map's name is the one carried on |
| `SqlBuildingExamples.PriceLowerCase` | Xtricate.DocSet/SqlBuilder.cs:46 | `Price` lower-cases to `price` |
| `SqlBuildingExamples.MissingField` | Xtricate.DocSet/SqlBuilder.cs:32 | a criterion on a field with no index map resolves to nothing |
| `SqlBuildingExamples.StatusEqFragment` | Xtricate.DocSet/SqlBuilder.cs:59 | `status` `Eq` `done` renders as ` AND [status_idx] = '\|\|done\|\|' ` |
| `SqlBuildingExamples.TagsEqmFragment` | Xtricate.DocSet/SqlBuilder.cs:55-56 | `tags` `Eqm` `a` renders as ` AND [tags_idx] LIKE '%\|\|a\|\|%' ` |
| `SqlBuildingExamples.PriceGtFragment` | Xtricate.DocSet/SqlBuilder.cs:45-46 | `price` `Gt` `5` renders as ` AND [price_idx] > '\|\|5' ` |
| `SqlBuildingExamples.TagFilterExample` | Xtricate.DocSet/SqlBuilder.cs:19-22 | the tag filter for `urgent` is ` AND [tags] LIKE '%\|\|urgent\|\|%'` |
| `SqlBuildingExamples.PagingExample` | Xtricate.DocSet/SqlBuilder.cs:62-66 | paging with skip 5 and take 10 is the empty clause |
| `SeqTrace.Enter` | src/Xtricate.Core.Common/Seq/Seq.cs:20-41 | the constructor's transition (`WithFlags`, then `Record`): the stack grows by one exactly when the recorder ends enabled, the steps only grow, by at most one, and the title is either kept or the given one; `EnterEffect` states it in full |
| `SeqTrace.WithFlags` | src/Xtricate.Core.Common/Seq/Seq.cs:23-24 | setting the flags touches neither stack, steps nor title, and a flag not given keeps its value |
| `SeqTrace.Record` | src/Xtricate.Core.Common/Seq/Seq.cs:25-40 | the flags are kept; disabled, nothing changes; enabled, the callee is pushed on top of the unchanged stack |
| `SeqTrace.RenderSteps` | src/Xtricate.Core.Common/Seq/Seq.cs:103-106 | no steps render as the empty text and one step as that step's own text; `RenderStepsAppend` gives the rest |
| `SeqTrace.EnterEffect` | src/Xtricate.Core.Common/Seq/Seq.cs:20-41 | the flags given are applied. While disabled, stack, steps and title are unchanged. While enabled, the stack grows by exactly one with `from` on top, and a non-empty title replaces the old one. Exactly one step is appended if and only if the stack was not empty: from the old top to `from`, of type `CallSelf` exactly when the old top equals `from`, otherwise `Call` |
| `SeqTrace.Exit` | src/Xtricate.Core.Common/Seq/Seq.cs:111-132 | nothing changes when not disposing, when disabled, or with fewer than two callers. Otherwise exactly the top is popped, and a `Return` step from the popped name to the new top is appended if and only if they differ. Title and flags are never changed |
| `SeqTrace.Annotate` | src/Xtricate.Core.Common/Seq/Seq.cs:60-86 | fails (`Peek` on an empty stack) exactly when enabled with an empty stack. Disabled, nothing changes. Otherwise one step of the given kind is appended, from the top to the top, and the stack, title and flags are unchanged |
| `SeqTrace.Cleared` | src/Xtricate.Core.Common/Seq/Seq.cs:88-94 | after a reset the stack and the steps are empty and the title is null; the flags are kept |
| `SeqTrace.RenderStepsAppend` | src/Xtricate.Core.Common/Seq/Seq.cs:103-106 | rendering a step list is rendering its parts one after the other, so appending steps only extends the rendered text |
| `SeqTrace.ScopeRecordsCallAndReturn` | src/Xtricate.Core.Common/Seq/Seq.cs:29-131 | a scope opened and then disposed below an existing caller restores the stack. It records either a `Call` followed by the matching `Return`, or a single `CallSelf` when the callee is the caller |
| `SeqTrace.RootScopeStays` | src/Xtricate.Core.Common/Seq/Seq.cs:116 | the first scope opened on an empty stack is not popped by its own disposal |
| `SeqTrace.RunConcat` | src/Xtricate.Core.Common/Seq/Seq.cs:11-132 | two runs of operations back to back equal the run of their concatenation |
| `SeqTrace.RunOnlyAppends` | src/Xtricate.Core.Common/Seq/Seq.cs:31-121 | between resets the step list only grows: earlier steps are never changed, and at most one step is added per operation |
| `SeqTrace.RunWhileDisabled` | src/Xtricate.Core.Common/Seq/Seq.cs:23-25 | while the recorder stays disabled, no operation touches the stack, the steps or the title |
| `SeqTrace.NestedScopesRestoreStack` | src/Xtricate.Core.Common/Seq/Seq.cs:40-118 | nested scopes below a root caller, each disposed on the way out, leave the caller stack as it was |
| `SeqTrace.Recorder.constructor` | src/Xtricate.Core.Common/Seq/Seq.cs:14-43 | the static initial state: empty stack and steps, null title, both flags off |
| `SeqTrace.Recorder.IsEnabled` | src/Xtricate.Core.Common/Seq/Seq.cs:51 | reports the enable flag of the shared state |
| `SeqTrace.Recorder.Open` | src/Xtricate.Core.Common/Seq/Seq.cs:20-41 | the constructor's effect on the shared state is `Enter` |
| `SeqTrace.Recorder.SetFlags` | src/Xtricate.Core.Common/Seq/Seq.cs:23-24 | each flag that is given replaces the stored one |
| `SeqTrace.Recorder.RecordCall` | src/Xtricate.Core.Common/Seq/Seq.cs:25-40 | while enabled: a non-empty title replaces the old one, the call is recorded if there is a caller, and `from` is pushed, as `Record` states; disabled, nothing changes |
| `SeqTrace.Recorder.Self` | src/Xtricate.Core.Common/Seq/Seq.cs:60-72 | changes the state as `Annotate` with kind `Self` states, or fails with no change |
| `SeqTrace.Recorder.Note` | src/Xtricate.Core.Common/Seq/Seq.cs:74-86 | changes the state as `Annotate` with kind `Note` states, or fails with no change |
| `SeqTrace.Recorder.Reset` | src/Xtricate.Core.Common/Seq/Seq.cs:88-94 | leaves the state `Cleared` |
| `SeqTrace.Recorder.Render` | src/Xtricate.Core.Common/Seq/Seq.cs:96-109 | the text is `"\ntitle " + title + "\n"` (null title as empty), followed by the render of every step in order |
| `SeqTrace.Seq.constructor` | src/Xtricate.Core.Common/Seq/Seq.cs:20-41 | the shared state changes as `Enter` states; the scope keeps its return description only when the recorder is enabled |
| `SeqTrace.Seq.Call` | src/Xtricate.Core.Common/Seq/Seq.cs:53-58 | disabled: returns null and changes nothing; enabled: returns a new scope and changes the state as `Enter` with no flag changes |
| `SeqTrace.Seq.Dispose` | src/Xtricate.Core.Common/Seq/Seq.cs:45-49 | disposes as `Exit` with `disposing` true |
| `SeqTrace.Seq.DisposeCore` | src/Xtricate.Core.Common/Seq/Seq.cs:111-132 | the shared state changes exactly as `Exit` states, using this scope's return description |

## Left out

- `Seq.RenderDiagram` (both overloads) is not modelled. It does HTTP requests, temporary files and stream I/O.
- `SeqStep.Render()` is not part of this model. `Recorder.Render` takes the rendering of one step as a function parameter.
- The commented-out logging calls are not modelled, nor is the commented-out `Start`/`Sequence` code. `loggingEnabled` is stored and updated, but nothing reads it.
- The `Seq` state is process-wide static state in the C# code. Here it is one `Recorder` object that every `Seq` refers to. Races between threads are not modelled.
- `GC.SuppressFinalize` in `Dispose()` is not modelled. It only affects the garbage collector.
- `Steps` has a public setter, so other code could replace the list or set it to null. The model keeps the steps as a field that only these operations change, so the `Steps != null` test in `Render` is always true here.
- Participant names (`from`) are non-null strings. A null `from` would be pushed and compared like any other name in C#, but the model does not cover it.
- `SqlBuilding.Lower`: `ToLower()` and `InvariantCultureIgnoreCase` follow .NET culture rules. The model lower-cases ASCII letters only, and compares names after lower-casing. The search compares with the invariant culture (SqlBuilder.cs:31) but the render lower-cases with the current culture (SqlBuilder.cs:46). Under a Turkish culture, criterion `id` matches map `ID`, which renders as `[ıd_idx]`. `ResolvedColumnRendersAsCriterionName` holds only under the ASCII model. The invariant-culture comparison also ignores zero-width characters such as the soft hyphen U+00AD, so in .NET names of different lengths can match; the equal-length clause of `NameMatches` holds only under the ASCII model.
- Index-map names are non-null. A null `Name` makes the C# search throw `NullReferenceException`, and that error path is not modelled. Null elements in the index-map sequence are not modelled either.
- `IStorageOptions`, `IIndexMap<TDoc>`, `ICriteria` and `ISqlBuilder` are not part of this model. They are replaced by records holding only the fields the code reads: `Name`, `Value`, `Values` and `Operator`. The document type parameter `TDoc` plays no role.
- `CriteriaOperator` may have more members in C#; its definition is not part of this model. The model has the seven operators the builder names. Any other operator would render with the `Eq` template.
- `IndexColumnNameSuffix` is a virtual property, so a subclass could override it. The model uses the base value `"_idx"` and does not model subclasses.
- What the emitted SQL means when a database runs it (what `LIKE` matches, string ordering, injection) is not modelled. Only the exact text is.

Two facts about the code that the model keeps:
- The index-column suffix is the constant `_idx` of the virtual property `IndexColumnNameSuffix` (Xtricate.DocSet/SqlBuilder.cs:17). No option sets it.
- The tag filter frames the tag as `%||tag||%` (Xtricate.DocSet/SqlBuilder.cs:21). That is the `Eqm` framing, not the `Contains` framing `||%value%||`.
