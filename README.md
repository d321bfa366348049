# ShardingSphere DML statement binders, modelled in Dafny

Apache ShardingSphere binds a parsed SQL statement before routing it. Binding resolves every table
and column reference against the metadata and against the tables in scope. The statement
binders in `infra/binder/.../statement/dml` each build a new bound statement from an unbound one. To do
that they create table scope maps (alias to table binder context), hand those maps to segment
binders in a fixed order, copy clauses that need no resolution, and assemble the parameter markers.
This project models three of them:

- **SelectStatementBinder**: one scope map, created empty, is threaded through WITH, FROM,
  projections, WHERE and LOCK. GROUP BY, HAVING, ORDER BY, LIMIT, WINDOW and MODEL are carried over.
  There are three entry points, which differ only in the outer and external scopes they pass.
- **DeleteStatementBinder**: the target table is bound into a new scope map. WHERE is bound against
  that map. The other clauses are copied.
- **MergeStatementBinder**:
  - The MERGE target and source are bound into separate case-insensitive maps.
  - The ON condition is bound against a plain map that holds both.
  - The WHEN NOT MATCHED INSERT and the WHEN MATCHED UPDATE are bound in a context whose external
    scopes are the MERGE's external scopes overlaid with the source.
  - A VALUES parameter marker is paired with the column at its position. A SET marker is paired with
    the assignment's first column. The pairing gives each marker its bound-column information.
  - The MERGE's marker list is the source subquery's markers, then the INSERT's, then the UPDATE's.

Files:

- `wrappers.dfy`: Option and Result.
- `scopes.dfy`: scope maps as insertion-ordered association lists.
  - A case-insensitive map is the `CaseInsensitiveMap` kind; a plain one is the `LinkedHashMap` kind.
  - `Put` keeps the first spelling and the position of a key and replaces its value.
- `statements.dfy`: the statement and segment trees.
- `binder_context.dfy`: the binder context, the errors a bind can end in, and the segment binders
  the statement binders call.
- `parameter_markers.dfy`: attaching column information to markers.
- `select_binder.dfy`, `delete_binder.dfy`, `merge_binder.dfy`: one module per statement binder.

Each statement binder is written twice:

- a function that states the bound statement as a value (`BoundSelect`, `BoundDelete`, `BoundMerge`, ...);
- a method that builds it the way the Java code does, step by step and loop by loop, proved equal to that function.

The properties are proved about the functions. A bind that throws in Java returns `Err` here.

## Model

| member | source | states |
|---|---|---|
| Scopes.Put | infra/binder/src/main/java/org/apache/shardingsphere/infra/binder/statement/dml/MergeStatementBinder.java:82-84 | after a put, a key equivalent to the new one reads the new value and every other key reads what it read before; old keys keep their place and only the new key can be added; a valid map (no two equivalent keys) stays valid |
| Scopes.PutEntriesLookup | infra/binder/src/main/java/org/apache/shardingsphere/infra/binder/statement/dml/MergeStatementBinder.java:82-84 | `putAll` (`PutAll`, which puts `PutEntries` one by one): afterwards a key reads the last value the added map holds for it, or its old value when the added map has none |
| Scopes.PutEntriesKeys | infra/binder/src/main/java/org/apache/shardingsphere/infra/binder/statement/dml/MergeStatementBinder.java:82-84 | `putAll` (`PutAll`/`PutEntries`) keeps the old keys in front, adds only keys of the added map, and keeps the map valid |
| Scopes.PutEntriesFresh | infra/binder/src/main/java/org/apache/shardingsphere/infra/binder/statement/dml/MergeStatementBinder.java:82-83 | `putAll` (`PutEntries`) of entries whose keys are all new appends them unchanged and in order |
| Scopes.PutAllIntoEmpty | infra/binder/src/main/java/org/apache/shardingsphere/infra/binder/statement/dml/MergeStatementBinder.java:124-126 | copying a valid map into a new empty map of its own kind reproduces it exactly |
| Scopes.LookupLastIsLookup | infra/binder/src/main/java/org/apache/shardingsphere/infra/binder/statement/dml/MergeStatementBinder.java:126-127 | in a valid map, the value a series of puts leaves for a key is the value `get` returns |
| BinderContexts.NewContext | infra/binder/src/main/java/org/apache/shardingsphere/infra/binder/statement/dml/SelectStatementBinder.java:54-55 | a new context carries the metadata, database name, database type and variable names it was given, and valid case-insensitive external scopes |
| BinderContexts.NewContextKeepsExternal | infra/binder/src/main/java/org/apache/shardingsphere/infra/binder/statement/dml/SelectStatementBinder.java:54-55 | external scopes whose names are unique under case folding are taken over by the new context unchanged, as a case-insensitive map |
| BinderContexts.BindOptionalWhere | infra/binder/src/main/java/org/apache/shardingsphere/infra/binder/statement/dml/SelectStatementBinder.java:61 | no WHERE binds to no WHERE; a WHERE binds to the WHERE binder's result, and the binder's error is the result's error |
| ParameterMarkers.BindMarkers | infra/binder/src/main/java/org/apache/shardingsphere/infra/binder/statement/dml/MergeStatementBinder.java:159 | the marker list keeps its length, order, positions and indexes; a marker that is a key of the map gets that column information, the others keep theirs |
| SelectStatementBinder.WithPhase | infra/binder/src/main/java/org/apache/shardingsphere/infra/binder/statement/dml/SelectStatementBinder.java:56-57 | with no WITH nothing changes; otherwise WITH is bound against the empty table map and the context's own external scopes, the result carries the bound WITH, the map it filled and the context with only its external scopes replaced, and the binder's error is the result's error |
| SelectStatementBinder.FromPhase | infra/binder/src/main/java/org/apache/shardingsphere/infra/binder/statement/dml/SelectStatementBinder.java:58-59 | with no FROM the map is unchanged; otherwise FROM is bound against the map WITH left, with the caller's outer scopes, the result is the bound FROM and the map it filled, and the binder's error is the result's error |
| SelectStatementBinder.BoundSelect | infra/binder/src/main/java/org/apache/shardingsphere/infra/binder/statement/dml/SelectStatementBinder.java:50-74 | the bind fails exactly when WITH, FROM, projections, WHERE, combine or LOCK fails, with the first failure's error; every optional clause is present iff it was; the one map goes from WITH to FROM to projections, WHERE and LOCK; projections get the bound FROM (none when absent); GROUP BY, HAVING, ORDER BY, LIMIT, WINDOW, MODEL, markers and comments come through unchanged; the fresh statement's variable names are empty |
| SelectStatementBinder.SelectContextIsCallers | infra/binder/src/main/java/org/apache/shardingsphere/infra/binder/statement/dml/SelectStatementBinder.java:54-55 | for external scopes with names unique under case folding, the context is the statement's database type and variable names over the caller's metadata and the caller's external entries unchanged |
| SelectStatementBinder.SelectWithoutWithBindsInCallerScopes | infra/binder/src/main/java/org/apache/shardingsphere/infra/binder/statement/dml/SelectStatementBinder.java:53-61 | with no WITH and a FROM, FROM is bound in a new empty map under the caller's external entries; its failure is the result; on success the bound FROM is the result's and WHERE sees the map FROM filled |
| SelectStatementBinder.Bind | infra/binder/src/main/java/org/apache/shardingsphere/infra/binder/statement/dml/SelectStatementBinder.java:45-47 | plain binding passes no outer and no external scopes |
| SelectStatementBinder.BindCorrelateSubquery | infra/binder/src/main/java/org/apache/shardingsphere/infra/binder/statement/dml/SelectStatementBinder.java:86-89 | a correlated subquery passes both the outer and the external scopes on unchanged |
| SelectStatementBinder.BindWithExternalTableContexts | infra/binder/src/main/java/org/apache/shardingsphere/infra/binder/statement/dml/SelectStatementBinder.java:100-103 | no outer scopes; the external scopes are the caller's |
| SelectStatementBinder.BindWithScopes | infra/binder/src/main/java/org/apache/shardingsphere/infra/binder/statement/dml/SelectStatementBinder.java:49-74 | the phase-by-phase construction of a fresh SELECT yields BoundSelect |
| DeleteStatementBinder.BoundDelete | infra/binder/src/main/java/org/apache/shardingsphere/infra/binder/statement/dml/DeleteStatementBinder.java:44-61 | the table is bound into a new empty map with no outer scopes, and its failure is the result; then the bind fails exactly when WHERE fails, with WHERE's error; WHERE is present iff it was and sees the map the table filled; ORDER BY, LIMIT, WITH, OUTPUT, markers and comments come through unchanged; the fresh statement's variable names are empty |
| DeleteStatementBinder.DeleteBindsInCallerScopes | infra/binder/src/main/java/org/apache/shardingsphere/infra/binder/statement/dml/DeleteStatementBinder.java:40-53 | for any external entries with names unique under case folding (the empty map of plain binding among them), the table and WHERE are bound under exactly those entries; a failure of the table is the result |
| DeleteStatementBinder.Bind | infra/binder/src/main/java/org/apache/shardingsphere/infra/binder/statement/dml/DeleteStatementBinder.java:39-42 | plain binding passes no external scopes |
| DeleteStatementBinder.BindWithExternal | infra/binder/src/main/java/org/apache/shardingsphere/infra/binder/statement/dml/DeleteStatementBinder.java:44-61 | the clause-by-clause construction of a fresh DELETE yields BoundDelete |
| MergeStatementBinder.SourceIntoPlainMap | infra/binder/src/main/java/org/apache/shardingsphere/infra/binder/statement/dml/MergeStatementBinder.java:82-83 | copying the case-insensitive source map into the new plain map keeps its entries as they are |
| MergeStatementBinder.OnScopes | infra/binder/src/main/java/org/apache/shardingsphere/infra/binder/statement/dml/MergeStatementBinder.java:82-84 | the ON scope is a plain (case-sensitive) map |
| MergeStatementBinder.OnScopesTargetWins | infra/binder/src/main/java/org/apache/shardingsphere/infra/binder/statement/dml/MergeStatementBinder.java:82-84 | in the ON scope every target table reads its own context |
| MergeStatementBinder.OnScopesSourceKept | infra/binder/src/main/java/org/apache/shardingsphere/infra/binder/statement/dml/MergeStatementBinder.java:82-84 | in the ON scope a source table whose name the target does not use reads its own context |
| MergeStatementBinder.OnScopesKeys | infra/binder/src/main/java/org/apache/shardingsphere/infra/binder/statement/dml/MergeStatementBinder.java:82-84 | the ON scope is a valid plain map whose names are exactly the source's and the target's |
| MergeStatementBinder.OnScopesJoinSourceAndTarget | infra/binder/src/main/java/org/apache/shardingsphere/infra/binder/statement/dml/MergeStatementBinder.java:82-84 | the ON scope holds every source and every target table; on an equal name the target's context wins |
| MergeStatementBinder.NestedContext | infra/binder/src/main/java/org/apache/shardingsphere/infra/binder/statement/dml/MergeStatementBinder.java:180-183 | the nested UPDATE context is built the same way as the INSERT one: the parent context with only its external scopes replaced by case-insensitive ones |
| MergeStatementBinder.NestedContextSeesSource | infra/binder/src/main/java/org/apache/shardingsphere/infra/binder/statement/dml/MergeStatementBinder.java:124-127 | the nested INSERT context sees a source table over an external one of the same name, and every other external table as before; the rest of the parent context is shared and the parent is left as it was |
| MergeStatementBinder.VisibleColumnsAppend | infra/binder/src/main/java/org/apache/shardingsphere/infra/binder/statement/dml/MergeStatementBinder.java:164-172 | the visible columns of two projection lists joined are the two results joined |
| MergeStatementBinder.VisibleColumnsMembers | infra/binder/src/main/java/org/apache/shardingsphere/infra/binder/statement/dml/MergeStatementBinder.java:164-172 | a column is among the visible columns exactly when a visible column projection carries it |
| MergeStatementBinder.GetVisibleColumns | infra/binder/src/main/java/org/apache/shardingsphere/infra/binder/statement/dml/MergeStatementBinder.java:164-172 | the loop returns exactly the visible column projections' columns, in order |
| MergeStatementBinder.ProjectionMarkersAppend | infra/binder/src/main/java/org/apache/shardingsphere/infra/binder/statement/dml/MergeStatementBinder.java:113-117 | the markers of two projection lists joined are the two results joined |
| MergeStatementBinder.ProjectionMarkersMembers | infra/binder/src/main/java/org/apache/shardingsphere/infra/binder/statement/dml/MergeStatementBinder.java:113-117 | a marker is collected exactly when it is a marker projection |
| MergeStatementBinder.GetSourceSubqueryTableProjectionParameterMarkers | infra/binder/src/main/java/org/apache/shardingsphere/infra/binder/statement/dml/MergeStatementBinder.java:107-119 | a source that is not a subquery gives no markers; a subquery gives its marker projections in order, and nothing else |
| MergeStatementBinder.ValuesColumns | infra/binder/src/main/java/org/apache/shardingsphere/infra/binder/statement/dml/MergeStatementBinder.java:135-136 | the VALUES columns are the bound column list when there is one; otherwise the visible columns of the first target table, exactly the visible column projections' columns; with neither, the bind fails with NoSuchElement |
| MergeStatementBinder.BoundInsertColumns | infra/binder/src/main/java/org/apache/shardingsphere/infra/binder/statement/dml/MergeStatementBinder.java:130-131 | no column list binds to none; a column list is bound against the parent context and the target map, and the binder's error is the result's error |
| MergeStatementBinder.BoundRow | infra/binder/src/main/java/org/apache/shardingsphere/infra/binder/statement/dml/MergeStatementBinder.java:140-146 | a row binds iff every slot binds and every marker slot is within the column list (which error a failing row carries: BoundRowFails); slots keep count and order; the map gains exactly the row's markers, keeps other entries, and maps a marker written once to the column at its position |
| MergeStatementBinder.BoundRowFails | infra/binder/src/main/java/org/apache/shardingsphere/infra/binder/statement/dml/MergeStatementBinder.java:140-146 | a row that fails fails with the error of its first failing slot: that slot's binder error, or IndexOutOfBounds(position, column count) for a marker past the column list (line 143); every earlier slot raises neither |
| MergeStatementBinder.BoundRowPrefixErr | infra/binder/src/main/java/org/apache/shardingsphere/infra/binder/statement/dml/MergeStatementBinder.java:140-146 | once a prefix of a row fails, the row fails with the same error |
| MergeStatementBinder.BoundRows | infra/binder/src/main/java/org/apache/shardingsphere/infra/binder/statement/dml/MergeStatementBinder.java:137-149 | the rows bind iff every slot binds and every marker slot is within the column list (which error: BoundRowsFails); rows keep count, order, spans and slot counts; the map holds exactly the markers written in VALUES |
| MergeStatementBinder.BoundRowsFails | infra/binder/src/main/java/org/apache/shardingsphere/infra/binder/statement/dml/MergeStatementBinder.java:137-149 | rows that fail fail with the error of the first failing slot of the first failing row, as a row does; every earlier row and every earlier slot of that row raises no error |
| MergeStatementBinder.BoundRowsPrefixErr | infra/binder/src/main/java/org/apache/shardingsphere/infra/binder/statement/dml/MergeStatementBinder.java:137-149 | once a prefix of the rows fails, all rows fail with the same error |
| MergeStatementBinder.BoundRowsPairsMarker | infra/binder/src/main/java/org/apache/shardingsphere/infra/binder/statement/dml/MergeStatementBinder.java:140-146 | a marker written once in VALUES is mapped to the column at its position, which exists |
| MergeStatementBinder.BoundColumns | infra/binder/src/main/java/org/apache/shardingsphere/infra/binder/statement/dml/MergeStatementBinder.java:186-188 | the columns bind iff each binds (which error: BoundColumnsFails); count, order and each bound column are the column binder's |
| MergeStatementBinder.BoundColumnsFails | infra/binder/src/main/java/org/apache/shardingsphere/infra/binder/statement/dml/MergeStatementBinder.java:186-188 | a column list that fails fails with the column binder's error on its first failing column; every earlier column binds |
| MergeStatementBinder.BoundColumnsPrefixErr | infra/binder/src/main/java/org/apache/shardingsphere/infra/binder/statement/dml/MergeStatementBinder.java:186-188 | once a prefix of the columns fails, the list fails with the same error |
| MergeStatementBinder.BoundAssignments | infra/binder/src/main/java/org/apache/shardingsphere/infra/binder/statement/dml/MergeStatementBinder.java:185-195 | the assignments bind iff each one's columns and value bind and a marker value has a column (which error: BoundAssignmentsFails); count, order and spans are kept |
| MergeStatementBinder.BoundAssignmentsFails | infra/binder/src/main/java/org/apache/shardingsphere/infra/binder/statement/dml/MergeStatementBinder.java:185-195 | assignments that fail fail with the error of the first failing assignment: its first failing column's, else its value's, else IndexOutOfBounds(0, 0) for a marker value without columns (line 193); every earlier assignment raises none of these |
| MergeStatementBinder.BoundAssignmentsPrefixErr | infra/binder/src/main/java/org/apache/shardingsphere/infra/binder/statement/dml/MergeStatementBinder.java:185-195 | once a prefix of the assignments fails, all fail with the same error |
| MergeStatementBinder.BoundAssignmentsMarkers | infra/binder/src/main/java/org/apache/shardingsphere/infra/binder/statement/dml/MergeStatementBinder.java:192-194 | the marker map holds exactly the markers that bound SET values are |
| MergeStatementBinder.BoundAssignmentsPairsMarker | infra/binder/src/main/java/org/apache/shardingsphere/infra/binder/statement/dml/MergeStatementBinder.java:192-194 | a marker value that no later assignment repeats is mapped to the first column of its assignment, which exists |
| MergeStatementBinder.BoundMergeInsert | infra/binder/src/main/java/org/apache/shardingsphere/infra/binder/statement/dml/MergeStatementBinder.java:121-162 | the bind fails exactly when the column list, the VALUES columns, a row or WHERE fails, with the first failure's error (no column list and an empty target map give NoSuchElement); the table is the bound target; the column list is bound against the parent context and the target; rows keep count, spans and slot counts, and each slot is bound in the nested context against target and source; WHERE likewise; the other clauses and comments come through unchanged; every marker keeps its position and index |
| MergeStatementBinder.BoundMergeInsertBindsMarkerToColumn | infra/binder/src/main/java/org/apache/shardingsphere/infra/binder/statement/dml/MergeStatementBinder.java:135-159 | a VALUES marker written once gets the bound information of the column at its position: the bound column list's, or the first target table's visible columns' |
| MergeStatementBinder.BoundMergeInsertMarkersWithinColumns | infra/binder/src/main/java/org/apache/shardingsphere/infra/binder/statement/dml/MergeStatementBinder.java:135-146 | every VALUES marker sits at a position the column list covers; a marker past the end makes the INSERT fail |
| MergeStatementBinder.BoundMergeInsertKeepsOtherMarkers | infra/binder/src/main/java/org/apache/shardingsphere/infra/binder/statement/dml/MergeStatementBinder.java:159 | a marker no VALUES slot holds keeps the bound information it had |
| MergeStatementBinder.BoundMergeUpdate | infra/binder/src/main/java/org/apache/shardingsphere/infra/binder/statement/dml/MergeStatementBinder.java:174-206 | the bind fails exactly when an assignment, WHERE or DELETE WHERE fails, with the first failure's error; the table is the bound target; the SET segment keeps its span and assignment count; each assignment keeps its span and column count, and has each column and its value bound in the nested context against the target alone; WHERE and DELETE WHERE likewise; ORDER BY, LIMIT, WITH and comments come through unchanged; every marker keeps its position and index |
| MergeStatementBinder.BoundMergeUpdateBindsMarkerToColumn | infra/binder/src/main/java/org/apache/shardingsphere/infra/binder/statement/dml/MergeStatementBinder.java:192-203 | a marker that a SET value binds to, and no later one, gets the bound information of that assignment's first column |
| MergeStatementBinder.BoundMergeUpdateKeepsOtherMarkers | infra/binder/src/main/java/org/apache/shardingsphere/infra/binder/statement/dml/MergeStatementBinder.java:203 | a marker that no bound SET value is keeps the bound information it had |
| MergeStatementBinder.BoundOn | infra/binder/src/main/java/org/apache/shardingsphere/infra/binder/statement/dml/MergeStatementBinder.java:85-90 | no ON binds to none; an ON condition is bound as a join condition against the ON scope with no outer scopes, keeping its span and its own markers, and the binder's error is the result's error |
| MergeStatementBinder.BoundMerge | infra/binder/src/main/java/org/apache/shardingsphere/infra/binder/statement/dml/MergeStatementBinder.java:70-98 | the bind fails exactly when the target, the source, ON, INSERT or UPDATE fails, with the first failure's error (ClassCast for an INSERT or UPDATE on a target that is not a simple table); target and source are bound into new case-insensitive maps; ON, INSERT and UPDATE are present iff they were; the ON clause is exactly BoundOn's result over the ON scope, so its span and its own markers are kept; the simple target becomes the INSERT's and UPDATE's table; the markers are the source subquery's, then the INSERT's, then the UPDATE's, and not the ON condition's; comments are kept |
| MergeStatementBinder.BoundMergeScopes | infra/binder/src/main/java/org/apache/shardingsphere/infra/binder/statement/dml/MergeStatementBinder.java:72-84 | when the table binder registers what it binds into the map it is given, the ON scope of a MERGE is valid, holds every target table and every source table the target does not shadow, and nothing else; the nested INSERT/UPDATE context sees the source over the caller's external scopes |
| MergeStatementBinder.Bind | infra/binder/src/main/java/org/apache/shardingsphere/infra/binder/statement/dml/MergeStatementBinder.java:65-68 | plain binding passes no external scopes |
| MergeStatementBinder.BindWithExternal | infra/binder/src/main/java/org/apache/shardingsphere/infra/binder/statement/dml/MergeStatementBinder.java:70-98 | the step-by-step construction of a fresh MERGE yields BoundMerge |
| MergeStatementBinder.AddParameterMarkerSegments | infra/binder/src/main/java/org/apache/shardingsphere/infra/binder/statement/dml/MergeStatementBinder.java:100-105 | appends the source subquery's markers, then the INSERT's, then the UPDATE's, and changes nothing else |
| MergeStatementBinder.BindValuesRow | infra/binder/src/main/java/org/apache/shardingsphere/infra/binder/statement/dml/MergeStatementBinder.java:138-146 | the slot loop over one row yields BoundRow, including its index error |
| MergeStatementBinder.BindValues | infra/binder/src/main/java/org/apache/shardingsphere/infra/binder/statement/dml/MergeStatementBinder.java:133-149 | the row loop yields BoundRows, sharing one marker map across rows |
| MergeStatementBinder.BindMergeInsert | infra/binder/src/main/java/org/apache/shardingsphere/infra/binder/statement/dml/MergeStatementBinder.java:121-162 | the setter-by-setter construction of the INSERT yields BoundMergeInsert |
| MergeStatementBinder.BindAssignedColumns | infra/binder/src/main/java/org/apache/shardingsphere/infra/binder/statement/dml/MergeStatementBinder.java:186-188 | the column loop of one assignment yields BoundColumns |
| MergeStatementBinder.BindAssignments | infra/binder/src/main/java/org/apache/shardingsphere/infra/binder/statement/dml/MergeStatementBinder.java:184-195 | the assignment loop yields BoundAssignments, including the error of a marker value without columns |
| MergeStatementBinder.BindMergeUpdate | infra/binder/src/main/java/org/apache/shardingsphere/infra/binder/statement/dml/MergeStatementBinder.java:174-206 | the setter-by-setter construction of the UPDATE yields BoundMergeUpdate |

## Left out

- The segment binders are not part of this model: TableSegmentBinder, WithSegmentBinder,
  ProjectionsSegmentBinder, WhereSegmentBinder, CombineSegmentBinder, LockSegmentBinder,
  ExpressionSegmentBinder, ColumnSegmentBinder and InsertColumnsSegmentBinder.
  - Each is an arbitrary function of what it is given.
  - The table binder and the WITH binder return the maps they fill. The others are taken to only
    read their maps.
  - What the table binder does to the map is unconstrained, except in `BoundMergeScopes`, which
    assumes it only adds tables to the map it is given (`TableBinderRegisters`).
  - SQL column resolution itself is not modelled.
- ParameterMarkerSegmentBinder is not part of this model. It is modelled by `BindMarkers`: same
  length and order, and a marker that is a key of the map gets that column's information.
- The metadata catalog (ShardingSphereMetaData) is carried as an opaque value.
- Reflection: a fresh result of the same statement class is a datatype value with the same
  `dialect` tag and empty fields. Its variable names are empty, because these binders never set them.
- In-place update and aliasing:
  - Statements and scope maps are values here. A Java segment binder fills the map object it is
    given; here it returns the filled map.
  - Later changes through a shared Java map object (the context's external map handed to the WITH
    binder, for one) are seen only through what the binder returns.
- Case-insensitive keys use ASCII lower-casing. The CaseInsensitiveMap library is not part of this model.
- The external scope map of SQLStatementBinderContext is taken to be case-insensitive; that class is
  not part of this model.
- Markers are map keys by value (position, index and bound information). The Java map uses the
  marker segment's own equality, and ParameterMarkerExpressionSegment is not part of this model.
- Exceptions: a `ClassCastException`, a `NoSuchElementException`, an `IndexOutOfBoundsException` or
  a segment binder's exception ends the bind with an `Err` carrying the matching `BindError`.
  Messages and stack traces are not modelled.
- MergeStatementBinder.BoundMergeUpdate: an UPDATE whose SET segment is missing (a null in Java,
  which fails at line 184) is not representable, because the SET segment is a required field here.
- MergeStatementBinder.BoundMergeInsertBindsMarkerToColumn and MergeStatementBinder.BoundMergeUpdateBindsMarkerToColumn:
  they cover markers written once (or last, for SET). For a marker written twice, the map keeps
  the last column, which only the function bodies state.
- The ON condition's markers are not added to the MERGE's marker list. The source marks this as
  unfinished, and the model follows the code.
