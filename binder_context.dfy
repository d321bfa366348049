/**
  What a statement binder works with besides the statement: the binder context, the
  table binder contexts its scope maps hold, the errors a bind can end in, and the
  segment binders it delegates to.
*/
module BinderContexts {
  import opened Wrappers
  import opened Scopes
  import opened Statements

  /** The catalog, read and never written by binding: columns per (database, table). */
  datatype MetaData = MetaData(tables: map<(string, string), seq<ColumnSegment>>)

  /** What a bound table exposes to column resolution: its projections in registration order. */
  datatype TableBinderContext = TableBinderContext(projections: seq<Projection>)

  type TableScopes = ScopeMap<TableBinderContext>

  /** `Collections.emptyMap()`, passed where a binder is given no outer scopes. */
  const NoScopes: TableScopes := Empty(false)

  /** Per-statement binder state; `external` holds the externally visible table scopes. */
  datatype BinderContext = BinderContext(
    metaData: MetaData,
    currentDatabaseName: string,
    databaseType: Dialect,
    variableNames: seq<string>,
    external: TableScopes)

  /** A new binder context whose external scopes are a case-insensitive copy of `external`. */
  function NewContext(metaData: MetaData, currentDatabaseName: string, databaseType: Dialect,
                      variableNames: seq<string>, external: TableScopes): (ctx: BinderContext)
    ensures ctx.external.caseInsensitive && Valid(ctx.external)
    ensures ctx.metaData == metaData && ctx.currentDatabaseName == currentDatabaseName
    ensures ctx.databaseType == databaseType && ctx.variableNames == variableNames
  {
    PutEntriesKeys(Empty(true), external.entries);
    BinderContext(metaData, currentDatabaseName, databaseType, variableNames, PutAll(Empty(true), external))
  }

  /**
    External scopes whose names are distinct even ignoring case are taken over by a new
    context entry for entry, whichever kind of map they came in (an empty plain map included).
  */
  lemma NewContextKeepsExternal(metaData: MetaData, currentDatabaseName: string, databaseType: Dialect,
                                variableNames: seq<string>, external: TableScopes)
    requires Unique(true, external.entries)
    ensures NewContext(metaData, currentDatabaseName, databaseType, variableNames, external).external
              == ScopeMap(true, external.entries)
  {
    PutAllIntoEmpty(ScopeMap(true, external.entries));
  }

  /** Where in a statement a segment is being bound. */
  datatype SegmentType = Projection | Predicate | JoinOn | Values | SetAssignment | Lock

  datatype BindError =
    | SegmentBindFailure(message: string)  // an unknown table or column, an ambiguous column, ... reported by a segment binder
    | ClassCast                            // the bound MERGE target is not a simple table
    | NoSuchElement                        // the target scope map is empty when INSERT has no column list
    | IndexOutOfBounds(index: int, size: int)

  type Bound<T> = Result<T, BindError>

  /**
    The segment binders the statement binders call. They are not part of this model;
    each is taken as an arbitrary function of what it is given. The table binder
    returns the scope map after registering the tables it bound (TableBinderRegisters
    below states what that means; only the lemmas that need it assume it); the WITH
    binder returns the table scope map and the external scope map as it leaves them. The others read the maps they are given and return the bound segment.
  */
  datatype SegmentBinders = SegmentBinders(
    table: (TableSegment, BinderContext, TableScopes, TableScopes) -> Bound<(TableSegment, TableScopes)>,
    withClause: (Clause, BinderContext, TableScopes, TableScopes) -> Bound<(Clause, TableScopes, TableScopes)>,
    projections: (ProjectionsSegment, BinderContext, Option<TableSegment>, TableScopes, TableScopes) -> Bound<ProjectionsSegment>,
    where: (WhereSegment, BinderContext, TableScopes, TableScopes) -> Bound<WhereSegment>,
    combine: (Clause, BinderContext) -> Bound<Clause>,
    lock: (Clause, BinderContext, TableScopes, TableScopes) -> Bound<Clause>,
    expression: (Expr, SegmentType, BinderContext, TableScopes, TableScopes) -> Bound<Expr>,
    column: (ColumnSegment, SegmentType, BinderContext, TableScopes, TableScopes) -> Bound<ColumnSegment>,
    insertColumns: (InsertColumnsSegment, BinderContext, TableScopes) -> Bound<InsertColumnsSegment>)

  /**
    What the statement binders rely on from TableSegmentBinder when they reason about the
    maps it fills: it registers tables into the map it is given, so the map keeps its kind,
    its old entries in front, and distinct names. The functions above do not assume this;
    the lemmas that need it say so.
  */
  ghost predicate TableBinderRegisters(binders: SegmentBinders) {
    forall t, ctx, m, outer :: binders.table(t, ctx, m, outer).Ok? ==>
      && binders.table(t, ctx, m, outer).value.1.caseInsensitive == m.caseInsensitive
      && m.entries <= binders.table(t, ctx, m, outer).value.1.entries
      && (Valid(m) ==> Valid(binders.table(t, ctx, m, outer).value.1))
  }

  /** Binds an optional WHERE, or passes its absence on. */
  function BindOptionalWhere(where: Option<WhereSegment>, ctx: BinderContext, tableScopes: TableScopes,
                             outer: TableScopes, binders: SegmentBinders): (r: Bound<Option<WhereSegment>>)
    ensures where.None? ==> r == Ok(None)
    ensures r.Ok? ==> (r.value.Some? <==> where.Some?)
    ensures where.Some? ==> match binders.where(where.value, ctx, tableScopes, outer)
                            case Ok(w) => r == Ok(Some(w))
                            case Err(e) => r == Err(e)
  {
    if where.None? then Ok(None)
    else
      var w :- binders.where(where.value, ctx, tableScopes, outer);
      Ok(Some(w))
  }
}
