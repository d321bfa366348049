/**
  DeleteStatementBinder: binds the target table into a new scope map, binds WHERE
  against it, and carries the remaining clauses over unchanged.
*/
module DeleteStatementBinder {
  import opened Wrappers
  import opened Scopes
  import opened Statements
  import opened BinderContexts

  /** The bound DELETE, as a function of the statement and the external scopes. */
  function BoundDelete(stmt: DeleteStatement, metaData: MetaData, currentDatabaseName: string,
                       external: TableScopes, binders: SegmentBinders): (r: Bound<DeleteStatement>)
    // the target table is bound into a new, empty map with no outer scopes
    ensures var ctx := NewContext(metaData, currentDatabaseName, stmt.dialect, stmt.variableNames, external);
            var t := binders.table(stmt.table, ctx, Empty(false), NoScopes);
            && (t.Err? ==> r == Err(t.error))
            // after the table, the bind fails exactly when WHERE does, with its error
            && (t.Ok? ==> var where := BindOptionalWhere(stmt.where, ctx, t.value.1, NoScopes, binders);
                          && (where.Err? ==> r == Err(where.error))
                          && (where.Ok? ==> r.Ok?))
            && (r.Ok? ==> t.Ok? && r.value.table == t.value.0
                          // WHERE sees the map the table binder filled, again with no outer scopes
                          && (r.value.where.Some? <==> stmt.where.Some?)
                          && (stmt.where.Some? ==> binders.where(stmt.where.value, ctx, t.value.1, NoScopes) == Ok(r.value.where.value)))
    ensures r.Ok? ==>
      && r.value.dialect == stmt.dialect
      && r.value.variableNames == []
      && r.value.orderBy == stmt.orderBy
      && r.value.limit == stmt.limit
      && r.value.withSegment == stmt.withSegment
      && r.value.output == stmt.output
      && r.value.parameterMarkers == stmt.parameterMarkers
      && r.value.comments == stmt.comments
  {
    var ctx := NewContext(metaData, currentDatabaseName, stmt.dialect, stmt.variableNames, external);
    var bound :- binders.table(stmt.table, ctx, Empty(false), NoScopes);
    var (table, tableScopes) := bound;
    var where :- BindOptionalWhere(stmt.where, ctx, tableScopes, NoScopes, binders);
    Ok(DeleteStatement(stmt.dialect, [], table, where, stmt.orderBy, stmt.limit, stmt.withSegment,
                       stmt.output, stmt.parameterMarkers, stmt.comments))
  }

  /**
    The table and WHERE are bound under the caller's own external entries, in a case-insensitive
    map, when the caller's names are distinct ignoring case (the empty plain map of `bind` included).
  */
  lemma DeleteBindsInCallerScopes(stmt: DeleteStatement, metaData: MetaData, currentDatabaseName: string,
                                  external: TableScopes, binders: SegmentBinders)
    requires Unique(true, external.entries)
    ensures var r := BoundDelete(stmt, metaData, currentDatabaseName, external, binders);
            var ctx := BinderContext(metaData, currentDatabaseName, stmt.dialect, stmt.variableNames, ScopeMap(true, external.entries));
            var t := binders.table(stmt.table, ctx, Empty(false), NoScopes);
            && (t.Err? ==> r == Err(t.error))
            && (r.Ok? ==> t.Ok? && r.value.table == t.value.0
                          && (stmt.where.Some? ==> binders.where(stmt.where.value, ctx, t.value.1, NoScopes) == Ok(r.value.where.value)))
  {
    NewContextKeepsExternal(metaData, currentDatabaseName, stmt.dialect, stmt.variableNames, external);
  }

  /** Public entry point: no external scopes. */
  method Bind(stmt: DeleteStatement, metaData: MetaData, currentDatabaseName: string, binders: SegmentBinders)
    returns (r: Bound<DeleteStatement>)
    ensures r == BoundDelete(stmt, metaData, currentDatabaseName, NoScopes, binders)
  {
    r := BindWithExternal(stmt, metaData, currentDatabaseName, NoScopes, binders);
  }

  /** The private `bind`: fills a fresh DELETE of the same kind one clause at a time. */
  method BindWithExternal(stmt: DeleteStatement, metaData: MetaData, currentDatabaseName: string,
                          external: TableScopes, binders: SegmentBinders)
    returns (r: Bound<DeleteStatement>)
    ensures r == BoundDelete(stmt, metaData, currentDatabaseName, external, binders)
  {
    var tableScopes: TableScopes := Empty(false);
    var ctx := NewContext(metaData, currentDatabaseName, stmt.dialect, stmt.variableNames, external);
    var bound :- binders.table(stmt.table, ctx, tableScopes, NoScopes);
    var result := DeleteStatement(stmt.dialect, [], bound.0, None, None, None, None, None, [], []);
    tableScopes := bound.1;
    if stmt.where.Some? {
      var where :- binders.where(stmt.where.value, ctx, tableScopes, NoScopes);
      result := result.(where := Some(where));
    }
    // `ifPresent(result::setX)` on a fresh result: an absent clause leaves the field empty
    result := result.(orderBy := stmt.orderBy, limit := stmt.limit, withSegment := stmt.withSegment, output := stmt.output);
    assert [] + stmt.parameterMarkers == stmt.parameterMarkers && [] + stmt.comments == stmt.comments;
    result := result.(parameterMarkers := result.parameterMarkers + stmt.parameterMarkers);
    result := result.(comments := result.comments + stmt.comments);
    return Ok(result);
  }
}
