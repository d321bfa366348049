/**
  SelectStatementBinder: one table scope map is created empty and threaded through the
  phases WITH, FROM, projections, WHERE and LOCK; GROUP BY, HAVING, ORDER BY, LIMIT,
  WINDOW and MODEL are carried over; COMBINE goes to its own binder. Three entry points
  differ only in the outer and external scopes they pass.
*/
module SelectStatementBinder {
  import opened Wrappers
  import opened Scopes
  import opened Statements
  import opened BinderContexts

  /** What the phases hand on: the binder context and the statement's table scope map. */
  datatype Phase = Phase(ctx: BinderContext, tableScopes: TableScopes)

  /** The context a SELECT is bound in. */
  function SelectContext(stmt: SelectStatement, metaData: MetaData, currentDatabaseName: string,
                         external: TableScopes): BinderContext
  {
    NewContext(metaData, currentDatabaseName, stmt.dialect, stmt.variableNames, external)
  }

  /** WITH: bound against the empty table scope map and the context's own external scopes. */
  function WithPhase(stmt: SelectStatement, ctx: BinderContext, binders: SegmentBinders): (r: Bound<(Option<Clause>, Phase)>)
    ensures stmt.withSegment.None? ==> r == Ok((None, Phase(ctx, Empty(false))))
    ensures stmt.withSegment.Some? ==>
      match binders.withClause(stmt.withSegment.value, ctx, Empty(false), ctx.external)
      case Ok(b) => r == Ok((Some(b.0), Phase(ctx.(external := b.2), b.1)))
      case Err(e) => r == Err(e)
  {
    if stmt.withSegment.None? then Ok((None, Phase(ctx, Empty(false))))
    else
      var bound :- binders.withClause(stmt.withSegment.value, ctx, Empty(false), ctx.external);
      Ok((Some(bound.0), Phase(ctx.(external := bound.2), bound.1)))
  }

  /** FROM: bound against the map WITH left, with the caller's outer scopes; it registers its tables there. */
  function FromPhase(stmt: SelectStatement, p: Phase, outer: TableScopes, binders: SegmentBinders)
    : (r: Bound<(Option<TableSegment>, TableScopes)>)
    ensures stmt.from.None? ==> r == Ok((None, p.tableScopes))
    ensures stmt.from.Some? ==>
      match binders.table(stmt.from.value, p.ctx, p.tableScopes, outer)
      case Ok(b) => r == Ok((Some(b.0), b.1))
      case Err(e) => r == Err(e)
  {
    if stmt.from.None? then Ok((None, p.tableScopes))
    else
      var bound :- binders.table(stmt.from.value, p.ctx, p.tableScopes, outer);
      Ok((Some(bound.0), bound.1))
  }

  /** The bound SELECT, as a function of the statement and the outer and external scopes. */
  function BoundSelect(stmt: SelectStatement, metaData: MetaData, currentDatabaseName: string,
                       outer: TableScopes, external: TableScopes, binders: SegmentBinders): (r: Bound<SelectStatement>)
    // every optional clause is present exactly when it was
    ensures r.Ok? ==>
      && (r.value.withSegment.Some? <==> stmt.withSegment.Some?)
      && (r.value.from.Some? <==> stmt.from.Some?)
      && (r.value.where.Some? <==> stmt.where.Some?)
      && (r.value.combine.Some? <==> stmt.combine.Some?)
      && (r.value.lock.Some? <==> stmt.lock.Some?)
    // the one table scope map: empty for WITH, then what WITH left for FROM, then what FROM left
    // for projections, WHERE and LOCK; every phase after WITH sees the context WITH left
    ensures r.Ok? ==>
      var w := WithPhase(stmt, SelectContext(stmt, metaData, currentDatabaseName, external), binders);
      && w.Ok?
      && var p := w.value.1;
      && var f := FromPhase(stmt, p, outer, binders);
      && f.Ok?
      && r.value.withSegment == w.value.0
      && r.value.from == f.value.0
      && binders.projections(stmt.projections, p.ctx, f.value.0, f.value.1, outer) == Ok(r.value.projections)
      && (stmt.where.Some? ==> binders.where(stmt.where.value, p.ctx, f.value.1, outer) == Ok(r.value.where.value))
      && (stmt.combine.Some? ==> binders.combine(stmt.combine.value, p.ctx) == Ok(r.value.combine.value))
      && (stmt.lock.Some? ==> binders.lock(stmt.lock.value, p.ctx, f.value.1, outer) == Ok(r.value.lock.value))
    // the bind fails exactly when a phase fails, with the first failing phase's error
    ensures
      var w := WithPhase(stmt, SelectContext(stmt, metaData, currentDatabaseName, external), binders);
      && (w.Err? ==> r == Err(w.error))
      && (w.Ok? ==>
            var p := w.value.1;
            var f := FromPhase(stmt, p, outer, binders);
            && (f.Err? ==> r == Err(f.error))
            && (f.Ok? ==>
                  var projections := binders.projections(stmt.projections, p.ctx, f.value.0, f.value.1, outer);
                  && (projections.Err? ==> r == Err(projections.error))
                  && (projections.Ok? ==>
                        var where := BindOptionalWhere(stmt.where, p.ctx, f.value.1, outer, binders);
                        && (where.Err? ==> r == Err(where.error))
                        && (where.Ok? ==>
                              && (stmt.combine.Some? && binders.combine(stmt.combine.value, p.ctx).Err? ==>
                                    r == Err(binders.combine(stmt.combine.value, p.ctx).error))
                              && ((stmt.combine.Some? ==> binders.combine(stmt.combine.value, p.ctx).Ok?) ==>
                                    && (stmt.lock.Some? && binders.lock(stmt.lock.value, p.ctx, f.value.1, outer).Err? ==>
                                          r == Err(binders.lock(stmt.lock.value, p.ctx, f.value.1, outer).error))
                                    && ((stmt.lock.Some? ==> binders.lock(stmt.lock.value, p.ctx, f.value.1, outer).Ok?) ==> r.Ok?))))))
    // a fresh statement of the same kind: clauses that need no resolution come through
    // unchanged, as do markers and comments; variable names are not carried over
    ensures r.Ok? ==>
      && r.value.dialect == stmt.dialect
      && r.value.variableNames == []
      && r.value.groupBy == stmt.groupBy
      && r.value.having == stmt.having
      && r.value.orderBy == stmt.orderBy
      && r.value.limit == stmt.limit
      && r.value.window == stmt.window
      && r.value.modelSegment == stmt.modelSegment
      && r.value.parameterMarkers == stmt.parameterMarkers
      && r.value.comments == stmt.comments
  {
    var ctx := SelectContext(stmt, metaData, currentDatabaseName, external);
    var w :- WithPhase(stmt, ctx, binders);
    var (withSegment, p) := w;
    var f :- FromPhase(stmt, p, outer, binders);
    var (from, tableScopes) := f;
    var projections :- binders.projections(stmt.projections, p.ctx, from, tableScopes, outer);
    var where :- BindOptionalWhere(stmt.where, p.ctx, tableScopes, outer, binders);
    var combine :- if stmt.combine.None? then Ok(None)
                   else match binders.combine(stmt.combine.value, p.ctx)
                        case Ok(c) => Ok(Some(c))
                        case Err(e) => Err(e);
    var lock :- if stmt.lock.None? then Ok(None)
                else match binders.lock(stmt.lock.value, p.ctx, tableScopes, outer)
                     case Ok(l) => Ok(Some(l))
                     case Err(e) => Err(e);
    Ok(SelectStatement(stmt.dialect, [], withSegment, from, projections, where, stmt.groupBy, stmt.having,
                       stmt.orderBy, combine, stmt.limit, lock, stmt.window, stmt.modelSegment,
                       stmt.parameterMarkers, stmt.comments))
  }

  /**
    The context's external scopes are the caller's entries, in a case-insensitive map, when the
    caller's names are distinct ignoring case (the empty plain map of `bind` included).
  */
  lemma SelectContextIsCallers(stmt: SelectStatement, metaData: MetaData, currentDatabaseName: string, external: TableScopes)
    requires Unique(true, external.entries)
    ensures SelectContext(stmt, metaData, currentDatabaseName, external)
              == BinderContext(metaData, currentDatabaseName, stmt.dialect, stmt.variableNames, ScopeMap(true, external.entries))
  {
    NewContextKeepsExternal(metaData, currentDatabaseName, stmt.dialect, stmt.variableNames, external);
  }

  /**
    Without WITH, FROM is bound in a new empty map under the caller's own external scopes,
    and WHERE sees the map FROM filled, under the same context.
  */
  lemma SelectWithoutWithBindsInCallerScopes(stmt: SelectStatement, metaData: MetaData, currentDatabaseName: string,
                                             outer: TableScopes, external: TableScopes, binders: SegmentBinders)
    requires Unique(true, external.entries)
    requires stmt.withSegment.None? && stmt.from.Some?
    ensures var r := BoundSelect(stmt, metaData, currentDatabaseName, outer, external, binders);
            var ctx := BinderContext(metaData, currentDatabaseName, stmt.dialect, stmt.variableNames, ScopeMap(true, external.entries));
            var t := binders.table(stmt.from.value, ctx, Empty(false), outer);
            && (t.Err? ==> r == Err(t.error))
            && (r.Ok? ==> t.Ok? && r.value.from == Some(t.value.0)
                          && (stmt.where.Some? ==> binders.where(stmt.where.value, ctx, t.value.1, outer) == Ok(r.value.where.value)))
  {
    SelectContextIsCallers(stmt, metaData, currentDatabaseName, external);
  }

  /** A fresh SELECT of the given kind, before any setter has run. */
  function FreshSelect(dialect: Dialect): SelectStatement {
    SelectStatement(dialect, [], None, None, ProjectionsSegment(0, 0, false, []), None, None, None, None,
                    None, None, None, None, None, [], [])
  }

  /** Public entry point: no outer and no external scopes. */
  method Bind(stmt: SelectStatement, metaData: MetaData, currentDatabaseName: string, binders: SegmentBinders)
    returns (r: Bound<SelectStatement>)
    ensures r == BoundSelect(stmt, metaData, currentDatabaseName, NoScopes, NoScopes, binders)
  {
    r := BindWithScopes(stmt, metaData, currentDatabaseName, NoScopes, NoScopes, binders);
  }

  /** A correlated subquery: the enclosing statement's scopes are passed on as they are. */
  method BindCorrelateSubquery(stmt: SelectStatement, metaData: MetaData, currentDatabaseName: string,
                               outer: TableScopes, external: TableScopes, binders: SegmentBinders)
    returns (r: Bound<SelectStatement>)
    ensures r == BoundSelect(stmt, metaData, currentDatabaseName, outer, external, binders)
  {
    r := BindWithScopes(stmt, metaData, currentDatabaseName, outer, external, binders);
  }

  /** Binding with caller-supplied external scopes and no outer scopes. */
  method BindWithExternalTableContexts(stmt: SelectStatement, metaData: MetaData, currentDatabaseName: string,
                                       external: TableScopes, binders: SegmentBinders)
    returns (r: Bound<SelectStatement>)
    ensures r == BoundSelect(stmt, metaData, currentDatabaseName, NoScopes, external, binders)
  {
    r := BindWithScopes(stmt, metaData, currentDatabaseName, NoScopes, external, binders);
  }

  /** The private `bind`: fills a fresh SELECT one phase at a time. */
  method BindWithScopes(stmt: SelectStatement, metaData: MetaData, currentDatabaseName: string,
                        outer: TableScopes, external: TableScopes, binders: SegmentBinders)
    returns (r: Bound<SelectStatement>)
    ensures r == BoundSelect(stmt, metaData, currentDatabaseName, outer, external, binders)
  {
    var result := FreshSelect(stmt.dialect);
    assert [] + stmt.parameterMarkers == stmt.parameterMarkers && [] + stmt.comments == stmt.comments;
    var tableScopes: TableScopes := Empty(false);
    var ctx := NewContext(metaData, currentDatabaseName, stmt.dialect, stmt.variableNames, external);
    ghost var ctx0 := ctx;
    if stmt.withSegment.Some? {
      var bound :- binders.withClause(stmt.withSegment.value, ctx, tableScopes, ctx.external);
      result := result.(withSegment := Some(bound.0));
      tableScopes := bound.1;
      ctx := ctx.(external := bound.2);
    }
    assert WithPhase(stmt, ctx0, binders) == Ok((result.withSegment, Phase(ctx, tableScopes)));
    ghost var p := Phase(ctx, tableScopes);
    var from: Option<TableSegment> := None;
    if stmt.from.Some? {
      var bound :- binders.table(stmt.from.value, ctx, tableScopes, outer);
      from := Some(bound.0);
      tableScopes := bound.1;
      result := result.(from := from);
    }
    assert FromPhase(stmt, p, outer, binders) == Ok((from, tableScopes));
    assert result == FreshSelect(stmt.dialect).(withSegment := result.withSegment, from := from);
    var projections :- binders.projections(stmt.projections, ctx, from, tableScopes, outer);
    result := result.(projections := projections);
    if stmt.where.Some? {
      var where :- binders.where(stmt.where.value, ctx, tableScopes, outer);
      result := result.(where := Some(where));
    }
    assert BindOptionalWhere(stmt.where, ctx, tableScopes, outer, binders) == Ok(result.where);
    // `ifPresent(result::setX)` on a fresh result: an absent clause leaves the field empty
    result := result.(groupBy := stmt.groupBy, having := stmt.having, orderBy := stmt.orderBy);
    if stmt.combine.Some? {
      var combine :- binders.combine(stmt.combine.value, ctx);
      result := result.(combine := Some(combine));
    }
    result := result.(limit := stmt.limit);
    if stmt.lock.Some? {
      var lock :- binders.lock(stmt.lock.value, ctx, tableScopes, outer);
      result := result.(lock := Some(lock));
    }
    result := result.(window := stmt.window, modelSegment := stmt.modelSegment);
    result := result.(parameterMarkers := result.parameterMarkers + stmt.parameterMarkers);
    result := result.(comments := result.comments + stmt.comments);
    return Ok(result);
  }
}
