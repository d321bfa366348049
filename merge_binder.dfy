/**
  MergeStatementBinder: binds MERGE INTO target USING source ON condition, with an
  optional WHEN NOT MATCHED INSERT and an optional WHEN MATCHED UPDATE.

  Target and source are bound into separate case-insensitive scope maps; the ON
  condition sees both; the nested INSERT and UPDATE see the source as external scopes.
  INSERT values and SET values that are parameter markers are given the bound
  information of the column they fill.
*/
module MergeStatementBinder {
  import opened Wrappers
  import opened Scopes
  import opened Statements
  import opened BinderContexts
  import opened ParameterMarkers

  // ---------------------------------------------------------------------------
  // Scope maps

  /** The plain map the ON condition is bound against: the source's entries, then the target's. */
  function OnScopes(source: TableScopes, target: TableScopes): (on: TableScopes)
    ensures !on.caseInsensitive
  {
    PutAll(PutAll(Empty(false), source), target)
  }

  /** Copying a case-insensitive map into a new plain map keeps its entries as they are. */
  lemma SourceIntoPlainMap(source: TableScopes)
    requires source.caseInsensitive && Valid(source)
    ensures PutAll(Empty(false), source) == ScopeMap(false, source.entries)
    ensures Valid(ScopeMap(false, source.entries))
  {
    UniqueExact(source.entries);
    PutAllIntoEmpty(ScopeMap(false, source.entries));
  }

  /** In the ON scope a target table reads its own context. */
  lemma OnScopesTargetWins(source: TableScopes, target: TableScopes, j: nat)
    requires source.caseInsensitive && Valid(source)
    requires target.caseInsensitive && Valid(target)
    requires j < |target.entries|
    ensures Lookup(OnScopes(source, target), target.entries[j].key) == Some(target.entries[j].value)
  {
    UniqueExact(target.entries);
    PutEntriesLookup(PutAll(Empty(false), source), target.entries, target.entries[j].key);
    UniqueLookupLast(false, target.entries, j);
  }

  /** In the ON scope a source table whose name the target does not use reads its own context. */
  lemma OnScopesSourceKept(source: TableScopes, target: TableScopes, j: nat)
    requires source.caseInsensitive && Valid(source)
    requires target.caseInsensitive && Valid(target)
    requires j < |source.entries| && source.entries[j].key !in Keys(target)
    ensures Lookup(OnScopes(source, target), source.entries[j].key) == Some(source.entries[j].value)
  {
    var k := source.entries[j].key;
    SourceIntoPlainMap(source);
    PutEntriesLookup(PutAll(Empty(false), source), target.entries, k);
    forall i | 0 <= i < |target.entries|
      ensures !SameKey(false, target.entries[i].key, k)
    {
      assert Keys(target)[i] == target.entries[i].key;
    }
    LookupLastIsLookup(ScopeMap(false, source.entries), k);
    UniqueLookupLast(false, source.entries, j);
  }

  /** The ON scope's names are the source's names followed by the target's new ones. */
  lemma OnScopesKeys(source: TableScopes, target: TableScopes)
    requires source.caseInsensitive && Valid(source)
    requires target.caseInsensitive && Valid(target)
    ensures !OnScopes(source, target).caseInsensitive && Valid(OnScopes(source, target))
    ensures forall k :: k in Keys(OnScopes(source, target)) <==> k in Keys(source) || k in Keys(target)
    ensures Keys(source) <= Keys(OnScopes(source, target))
  {
    var first := PutAll(Empty<TableBinderContext>(false), source);
    var on := OnScopes(source, target);
    SourceIntoPlainMap(source);
    assert Keys(first) == Keys(source);
    PutEntriesKeys(first, target.entries);
    forall k | k in Keys(target)
      ensures k in Keys(on)
    {
      var j :| 0 <= j < |Keys(target)| && Keys(target)[j] == k;
      OnScopesTargetWins(source, target, j);
      var i := IndexOf(false, on.entries, k).value;
      assert Keys(on)[i] == k;
    }
    forall k | k in Keys(on)
      ensures k in Keys(source) || k in Keys(target)
    {
      if k !in Keys(first) {
        var j :| 0 <= j < |target.entries| && target.entries[j].key == k;
        assert Keys(target)[j] == k;
      }
    }
  }

  /** The ON scope holds every source and every target table; the target's context wins on an equal name. */
  lemma OnScopesJoinSourceAndTarget(source: TableScopes, target: TableScopes)
    requires source.caseInsensitive && Valid(source)
    requires target.caseInsensitive && Valid(target)
    ensures !OnScopes(source, target).caseInsensitive && Valid(OnScopes(source, target))
    ensures forall e :: e in target.entries ==> Lookup(OnScopes(source, target), e.key) == Some(e.value)
    ensures forall e :: e in source.entries && e.key !in Keys(target) ==> Lookup(OnScopes(source, target), e.key) == Some(e.value)
    ensures forall k :: k in Keys(OnScopes(source, target)) <==> k in Keys(source) || k in Keys(target)
  {
    OnScopesKeys(source, target);
    forall e | e in target.entries
      ensures Lookup(OnScopes(source, target), e.key) == Some(e.value)
    {
      var j :| 0 <= j < |target.entries| && target.entries[j] == e;
      OnScopesTargetWins(source, target, j);
    }
    forall e | e in source.entries && e.key !in Keys(target)
      ensures Lookup(OnScopes(source, target), e.key) == Some(e.value)
    {
      var j :| 0 <= j < |source.entries| && source.entries[j] == e;
      OnScopesSourceKept(source, target, j);
    }
  }

  /**
    The context of the nested INSERT or UPDATE: the MERGE's own context, with the source
    scopes put over the MERGE's external scopes in a new map.
  */
  function NestedContext(ctx: BinderContext, source: TableScopes): (nested: BinderContext)
    ensures nested == ctx.(external := nested.external)
    ensures nested.external.caseInsensitive
  {
    BinderContext(ctx.metaData, ctx.currentDatabaseName, ctx.databaseType, ctx.variableNames,
                  PutAll(PutAll(Empty(true), ctx.external), source))
  }

  /** The nested context sees the source over the parent's external scopes; the rest of the context is shared. */
  lemma NestedContextSeesSource(ctx: BinderContext, source: TableScopes, k: string)
    requires ctx.external.caseInsensitive && Valid(ctx.external)
    requires source.caseInsensitive && Valid(source)
    ensures NestedContext(ctx, source) == ctx.(external := NestedContext(ctx, source).external)
    ensures NestedContext(ctx, source).external.caseInsensitive && Valid(NestedContext(ctx, source).external)
    ensures Lookup(NestedContext(ctx, source).external, k) ==
      if Lookup(source, k).Some? then Lookup(source, k) else Lookup(ctx.external, k)
    ensures Keys(ctx.external) <= Keys(NestedContext(ctx, source).external)
  {
    PutAllIntoEmpty(ctx.external);
    PutEntriesLookup(ctx.external, source.entries, k);
    LookupLastIsLookup(source, k);
    PutEntriesKeys(ctx.external, source.entries);
  }

  // ---------------------------------------------------------------------------
  // Filters over projections

  /** The columns of the visible column projections, in order. */
  function VisibleColumns(ps: seq<Projection>): seq<ColumnSegment> {
    if |ps| == 0 then []
    else (if ps[0].ColumnProjection? && ps[0].visible then [ps[0].column] else []) + VisibleColumns(ps[1..])
  }

  lemma {:induction false} VisibleColumnsAppend(a: seq<Projection>, b: seq<Projection>)
    ensures VisibleColumns(a + b) == VisibleColumns(a) + VisibleColumns(b)
  {
    if |a| > 0 {
      assert (a + b)[1..] == a[1..] + b;
      VisibleColumnsAppend(a[1..], b);
    } else {
      assert a + b == b;
    }
  }

  /** A column is a default INSERT column exactly when a visible column projection carries it. */
  lemma {:induction false} VisibleColumnsMembers(ps: seq<Projection>)
    ensures forall c :: c in VisibleColumns(ps) <==> ColumnProjection(c, true) in ps
  {
    if |ps| > 0 {
      VisibleColumnsMembers(ps[1..]);
      assert ps == [ps[0]] + ps[1..];
    }
  }

  method GetVisibleColumns(projections: seq<Projection>) returns (r: seq<ColumnSegment>)
    ensures r == VisibleColumns(projections)
  {
    r := [];
    var i := 0;
    while i < |projections|
      invariant 0 <= i <= |projections|
      invariant r == VisibleColumns(projections[..i])
    {
      var each := projections[i];
      if each.ColumnProjection? && each.visible {
        r := r + [each.column];
      }
      assert projections[..i + 1] == projections[..i] + [each];
      VisibleColumnsAppend(projections[..i], [each]);
      i := i + 1;
    }
    assert projections[..i] == projections;
  }

  /** The parameter markers among the projections, in order. */
  function ProjectionMarkers(ps: seq<Projection>): seq<ParameterMarker> {
    if |ps| == 0 then []
    else (if ps[0].MarkerProjection? then [ps[0].marker] else []) + ProjectionMarkers(ps[1..])
  }

  lemma {:induction false} ProjectionMarkersAppend(a: seq<Projection>, b: seq<Projection>)
    ensures ProjectionMarkers(a + b) == ProjectionMarkers(a) + ProjectionMarkers(b)
  {
    if |a| > 0 {
      assert (a + b)[1..] == a[1..] + b;
      ProjectionMarkersAppend(a[1..], b);
    } else {
      assert a + b == b;
    }
  }

  lemma {:induction false} ProjectionMarkersMembers(ps: seq<Projection>)
    ensures forall m :: m in ProjectionMarkers(ps) <==> MarkerProjection(m) in ps
  {
    if |ps| > 0 {
      ProjectionMarkersMembers(ps[1..]);
      assert ps == [ps[0]] + ps[1..];
    }
  }

  /** The markers among a subquery source's projections; none for any other source. */
  function SourceSubqueryMarkers(source: TableSegment): seq<ParameterMarker> {
    if source.SubqueryTable? then ProjectionMarkers(source.subquery.projections.projections) else []
  }

  method GetSourceSubqueryTableProjectionParameterMarkers(tableSegment: TableSegment) returns (r: seq<ParameterMarker>)
    ensures r == SourceSubqueryMarkers(tableSegment)
    ensures !tableSegment.SubqueryTable? ==> r == []
    ensures forall m :: m in r <==> tableSegment.SubqueryTable? && MarkerProjection(m) in tableSegment.subquery.projections.projections
  {
    if !tableSegment.SubqueryTable? {
      return [];
    }
    var projections := tableSegment.subquery.projections.projections;
    r := [];
    var i := 0;
    while i < |projections|
      invariant 0 <= i <= |projections|
      invariant r == ProjectionMarkers(projections[..i])
    {
      var each := projections[i];
      if each.MarkerProjection? {
        r := r + [each.marker];
      }
      assert projections[..i + 1] == projections[..i] + [each];
      ProjectionMarkersAppend(projections[..i], [each]);
      i := i + 1;
    }
    assert projections[..i] == projections;
    ProjectionMarkersMembers(projections);
  }

  // ---------------------------------------------------------------------------
  // INSERT VALUES rows

  type MarkerInfos = map<ParameterMarker, ColumnBoundInfo>

  /** How a VALUES expression is bound: as a VALUES segment against the target, with the source outside. */
  function ValueBinder(binders: SegmentBinders, ctx: BinderContext, target: TableScopes, source: TableScopes): Expr -> Bound<Expr> {
    e => binders.expression(e, SegmentType.Values, ctx, target, source)
  }

  /**
    One VALUES row, slot by slot: the slot is bound, and when it is a parameter marker the
    column at the same position is recorded for it; a marker beyond the column list is an
    index error.
  */
  function BoundRow(values: seq<Expr>, columns: seq<ColumnSegment>, infos: MarkerInfos, bind: Expr -> Bound<Expr>)
    : (r: Bound<(seq<Expr>, MarkerInfos)>)
    ensures r.Ok? <==> forall i :: 0 <= i < |values| ==> bind(values[i]).Ok? && (values[i].MarkerExpr? ==> i < |columns|)
    ensures r.Ok? ==> |r.value.0| == |values|
    ensures r.Ok? ==> forall i :: 0 <= i < |values| ==> bind(values[i]) == Ok(r.value.0[i])
    ensures r.Ok? ==> forall m :: m in r.value.1 <==> m in infos || MarkerExpr(m) in values
    ensures r.Ok? ==> forall m :: m in infos && MarkerExpr(m) !in values ==> r.value.1[m] == infos[m]
    ensures r.Ok? ==> forall i :: 0 <= i < |values| && values[i].MarkerExpr? && values[i] !in values[i + 1..] ==>
                        values[i].marker in r.value.1 && r.value.1[values[i].marker] == columns[i].boundInfo
    decreases |values|
  {
    if |values| == 0 then Ok(([], infos))
    else
      var i := |values| - 1;
      assert values == values[..i] + [values[i]];
      var prev :- BoundRow(values[..i], columns, infos, bind);
      var e :- bind(values[i]);
      if values[i].MarkerExpr? then
        if i < |columns| then
          var infos' := prev.1[values[i].marker := columns[i].boundInfo];
          RowContentStep(values, i, infos, bind, prev.0, prev.1, e, infos');
          RowPairingStep(values, columns, prev.1, infos');
          Ok((prev.0 + [e], infos'))
        else Err(IndexOutOfBounds(i, |columns|))
      else
        RowContentStep(values, i, infos, bind, prev.0, prev.1, e, prev.1);
        RowPairingStep(values, columns, prev.1, prev.1);
        Ok((prev.0 + [e], prev.1))
  }

  /** One more bound slot: the bound expressions line up with the slots, and only the slots' markers gain entries. */
  lemma RowContentStep(values: seq<Expr>, n: nat, infos: MarkerInfos, bind: Expr -> Bound<Expr>,
                       prev: seq<Expr>, prevInfos: MarkerInfos, e: Expr, infos': MarkerInfos)
    requires |values| == n + 1 && |prev| == n
    requires forall i :: 0 <= i < n ==> bind(values[..n][i]) == Ok(prev[i])
    requires forall m :: m in prevInfos <==> m in infos || MarkerExpr(m) in values[..n]
    requires forall m :: m in infos && MarkerExpr(m) !in values[..n] ==> prevInfos[m] == infos[m]
    requires bind(values[n]) == Ok(e)
    requires if values[n].MarkerExpr? then values[n].marker in infos' && infos' == prevInfos[values[n].marker := infos'[values[n].marker]]
             else infos' == prevInfos
    ensures forall i :: 0 <= i < |values| ==> bind(values[i]) == Ok((prev + [e])[i])
    ensures forall m :: m in infos' <==> m in infos || MarkerExpr(m) in values
    ensures forall m :: m in infos && MarkerExpr(m) !in values ==> infos'[m] == infos[m]
  {
    assert values == values[..n] + [values[n]];
  }

  /**
    One more slot keeps every marker written only once paired with the column at its
    position: the last slot's marker, if any, is the one whose entry changes.
  */
  lemma RowPairingStep(values: seq<Expr>, columns: seq<ColumnSegment>, infos: MarkerInfos, infos': MarkerInfos)
    requires |values| > 0
    requires forall i :: 0 <= i < |values| && values[i].MarkerExpr? ==> i < |columns|
    requires forall i :: 0 <= i < |values| - 1 && values[i].MarkerExpr? && values[i] !in values[..|values| - 1][i + 1..] ==>
               values[i].marker in infos && infos[values[i].marker] == columns[i].boundInfo
    requires var n := |values| - 1;
             if values[n].MarkerExpr? then infos' == infos[values[n].marker := columns[n].boundInfo]
             else infos' == infos
    ensures forall i :: 0 <= i < |values| && values[i].MarkerExpr? && values[i] !in values[i + 1..] ==>
              values[i].marker in infos' && infos'[values[i].marker] == columns[i].boundInfo
  {
    var n := |values| - 1;
    forall i | 0 <= i < |values| && values[i].MarkerExpr? && values[i] !in values[i + 1..]
      ensures values[i].marker in infos' && infos'[values[i].marker] == columns[i].boundInfo
    {
      if i < n {
        assert values[i + 1..] == values[..n][i + 1..] + [values[n]];
        assert values[i] != values[n];
      }
    }
  }

  /** One more slot of a row that binds so far: its binder's error, an index error, or the slot added. */
  lemma BoundRowStep(values: seq<Expr>, k: nat, columns: seq<ColumnSegment>, infos: MarkerInfos, bind: Expr -> Bound<Expr>)
    requires k < |values| && BoundRow(values[..k], columns, infos, bind).Ok?
    ensures var prev := BoundRow(values[..k], columns, infos, bind).value;
            var e := bind(values[k]);
            BoundRow(values[..k + 1], columns, infos, bind) ==
              if e.Err? then Err(e.error)
              else if values[k].MarkerExpr? && k >= |columns| then Err(IndexOutOfBounds(k, |columns|))
              else if values[k].MarkerExpr? then Ok((prev.0 + [e.value], prev.1[values[k].marker := columns[k].boundInfo]))
              else Ok((prev.0 + [e.value], prev.1))
  {
    assert values[..k + 1][..k] == values[..k];
  }

  /** Once a prefix of a row fails, the row fails with the same error. */
  lemma {:induction false} BoundRowPrefixErr(values: seq<Expr>, k: nat, columns: seq<ColumnSegment>, infos: MarkerInfos, bind: Expr -> Bound<Expr>)
    requires k <= |values|
    requires BoundRow(values[..k], columns, infos, bind).Err?
    ensures BoundRow(values, columns, infos, bind) == BoundRow(values[..k], columns, infos, bind)
    decreases |values|
  {
    if k < |values| {
      var i := |values| - 1;
      assert values[..i][..k] == values[..k];
      BoundRowPrefixErr(values[..i], k, columns, infos, bind);
      BoundRowErrStep(values, i, columns, infos, bind);
      assert values[..i + 1] == values;
    } else {
      assert values[..k] == values;
    }
  }

  /** A row prefix that fails keeps failing, with the same error, when one more slot follows. */
  lemma BoundRowErrStep(values: seq<Expr>, m: nat, columns: seq<ColumnSegment>, infos: MarkerInfos, bind: Expr -> Bound<Expr>)
    requires m < |values|
    requires BoundRow(values[..m], columns, infos, bind).Err?
    ensures BoundRow(values[..m + 1], columns, infos, bind) == BoundRow(values[..m], columns, infos, bind)
  {
    assert values[..m + 1][..m] == values[..m];
    var prev := BoundRow(values[..m], columns, infos, bind);
    assert BoundRow(values[..m + 1], columns, infos, bind) == prev.PropagateFailure();
  }

  /** The error a VALUES slot at position i raises, if any: its binder's, or an index error for a marker past the columns. */
  function SlotError(v: Expr, i: nat, columns: seq<ColumnSegment>, bind: Expr -> Bound<Expr>): Option<BindError> {
    if bind(v).Err? then Some(bind(v).error)
    else if v.MarkerExpr? && i >= |columns| then Some(IndexOutOfBounds(i, |columns|))
    else None
  }

  /** Slot i of a row is the first one that raises an error. */
  ghost predicate FirstSlotError(values: seq<Expr>, i: int, columns: seq<ColumnSegment>, bind: Expr -> Bound<Expr>) {
    && 0 <= i < |values|
    && SlotError(values[i], i, columns, bind).Some?
    && forall j :: 0 <= j < i ==> SlotError(values[j], j, columns, bind).None?
  }

  /** The first failing slot of a row's prefix is the first failing slot of the row. */
  lemma FirstSlotErrorExtends(values: seq<Expr>, n: nat, i: int, columns: seq<ColumnSegment>, bind: Expr -> Bound<Expr>)
    requires n <= |values|
    requires FirstSlotError(values[..n], i, columns, bind)
    ensures FirstSlotError(values, i, columns, bind) && values[..n][i] == values[i]
  {
    assert forall j :: 0 <= j <= i ==> values[..n][j] == values[j];
  }

  /** A row that fails fails with the error of its first failing slot. */
  lemma {:induction false} BoundRowFails(values: seq<Expr>, columns: seq<ColumnSegment>, infos: MarkerInfos, bind: Expr -> Bound<Expr>)
    ensures var r := BoundRow(values, columns, infos, bind);
            r.Err? ==> exists i :: FirstSlotError(values, i, columns, bind) && r.error == SlotError(values[i], i, columns, bind).value
    decreases |values|
  {
    if |values| > 0 {
      var n := |values| - 1;
      BoundRowFails(values[..n], columns, infos, bind);
      var prev := BoundRow(values[..n], columns, infos, bind);
      if prev.Err? {
        BoundRowPrefixErr(values, n, columns, infos, bind);
        var i :| FirstSlotError(values[..n], i, columns, bind) && prev.error == SlotError(values[..n][i], i, columns, bind).value;
        FirstSlotErrorExtends(values, n, i, columns, bind);
      } else {
        assert forall j :: 0 <= j < n ==> SlotError(values[j], j, columns, bind).None? by {
          assert forall j :: 0 <= j < n ==> values[..n][j] == values[j];
        }
      }
    }
  }

  /** The rows of VALUES, bound one after the other, with one marker map shared by all of them. */
  function BoundRows(rows: seq<InsertValuesSegment>, columns: seq<ColumnSegment>, bind: Expr -> Bound<Expr>)
    : (r: Bound<(seq<InsertValuesSegment>, MarkerInfos)>)
    ensures r.Ok? <==> forall j, i :: 0 <= j < |rows| && 0 <= i < |rows[j].values| ==>
                         bind(rows[j].values[i]).Ok? && (rows[j].values[i].MarkerExpr? ==> i < |columns|)
    ensures r.Ok? ==> |r.value.0| == |rows|
    ensures r.Ok? ==> forall j :: 0 <= j < |rows| ==>
                        && r.value.0[j].startIndex == rows[j].startIndex
                        && r.value.0[j].stopIndex == rows[j].stopIndex
                        && |r.value.0[j].values| == |rows[j].values|
    ensures r.Ok? ==> forall j, i :: 0 <= j < |rows| && 0 <= i < |rows[j].values| ==>
                        bind(rows[j].values[i]) == Ok(r.value.0[j].values[i])
    ensures r.Ok? ==> forall m :: m in r.value.1 <==> exists j :: 0 <= j < |rows| && MarkerExpr(m) in rows[j].values
    decreases |rows|
  {
    if |rows| == 0 then Ok(([], map[]))
    else
      var j := |rows| - 1;
      var prev :- BoundRows(rows[..j], columns, bind);
      var row := rows[j];
      var bound :- BoundRow(row.values, columns, prev.1, bind);
      Ok((prev.0 + [InsertValuesSegment(row.startIndex, row.stopIndex, bound.0)], bound.1))
  }

  /** One more row after rows that bind: the row's error, or the row added with the map it leaves. */
  lemma BoundRowsStep(rows: seq<InsertValuesSegment>, k: nat, columns: seq<ColumnSegment>, bind: Expr -> Bound<Expr>)
    requires k < |rows| && BoundRows(rows[..k], columns, bind).Ok?
    ensures var prev := BoundRows(rows[..k], columns, bind).value;
            var row := BoundRow(rows[k].values, columns, prev.1, bind);
            BoundRows(rows[..k + 1], columns, bind) ==
              if row.Err? then Err(row.error)
              else Ok((prev.0 + [InsertValuesSegment(rows[k].startIndex, rows[k].stopIndex, row.value.0)], row.value.1))
  {
    assert rows[..k + 1][..k] == rows[..k];
  }

  lemma {:induction false} BoundRowsPrefixErr(rows: seq<InsertValuesSegment>, k: nat, columns: seq<ColumnSegment>, bind: Expr -> Bound<Expr>)
    requires k <= |rows|
    requires BoundRows(rows[..k], columns, bind).Err?
    ensures BoundRows(rows, columns, bind) == BoundRows(rows[..k], columns, bind)
    decreases |rows|
  {
    if k < |rows| {
      var j := |rows| - 1;
      assert rows[..j][..k] == rows[..k];
      BoundRowsPrefixErr(rows[..j], k, columns, bind);
      BoundRowsErrStep(rows, j, columns, bind);
      assert rows[..j + 1] == rows;
    } else {
      assert rows[..k] == rows;
    }
  }

  /** Rows that fail keep failing, with the same error, when one more row follows. */
  lemma BoundRowsErrStep(rows: seq<InsertValuesSegment>, m: nat, columns: seq<ColumnSegment>, bind: Expr -> Bound<Expr>)
    requires m < |rows|
    requires BoundRows(rows[..m], columns, bind).Err?
    ensures BoundRows(rows[..m + 1], columns, bind) == BoundRows(rows[..m], columns, bind)
  {
    assert rows[..m + 1][..m] == rows[..m];
    var prev := BoundRows(rows[..m], columns, bind);
    assert BoundRows(rows[..m + 1], columns, bind) == prev.PropagateFailure();
  }

  /** After rows that bind, the rows fail exactly with the last row's error. */
  lemma BoundRowsLastError(rows: seq<InsertValuesSegment>, columns: seq<ColumnSegment>, bind: Expr -> Bound<Expr>)
    requires |rows| > 0
    requires BoundRows(rows[..|rows| - 1], columns, bind).Ok?
    ensures var prev := BoundRows(rows[..|rows| - 1], columns, bind);
            var row := BoundRow(rows[|rows| - 1].values, columns, prev.value.1, bind);
            BoundRows(rows, columns, bind).Err? ==> row.Err? && BoundRows(rows, columns, bind).error == row.error
  {
  }

  /** In rows that bind, no slot raises an error. */
  lemma BoundRowsOkNoError(rows: seq<InsertValuesSegment>, columns: seq<ColumnSegment>, bind: Expr -> Bound<Expr>)
    requires BoundRows(rows, columns, bind).Ok?
    ensures forall j, i :: 0 <= j < |rows| && 0 <= i < |rows[j].values| ==> SlotError(rows[j].values[i], i, columns, bind).None?
  {
  }

  /** Slot i of row j is the first failing slot of the first row that has one. */
  ghost predicate FirstRowSlotError(rows: seq<InsertValuesSegment>, j: int, i: int, columns: seq<ColumnSegment>, bind: Expr -> Bound<Expr>) {
    && 0 <= j < |rows|
    && (forall j', i' :: 0 <= j' < j && 0 <= i' < |rows[j'].values| ==> SlotError(rows[j'].values[i'], i', columns, bind).None?)
    && FirstSlotError(rows[j].values, i, columns, bind)
  }

  /** The first failing slot of some of the rows is the first failing slot of all of them. */
  lemma FirstRowSlotErrorExtends(rows: seq<InsertValuesSegment>, n: nat, j: int, i: int, columns: seq<ColumnSegment>, bind: Expr -> Bound<Expr>)
    requires n <= |rows|
    requires FirstRowSlotError(rows[..n], j, i, columns, bind)
    ensures FirstRowSlotError(rows, j, i, columns, bind) && rows[..n][j] == rows[j]
  {
    assert forall j' :: 0 <= j' <= j ==> rows[..n][j'] == rows[j'];
  }

  /** After rows without a failing slot, the first failing slot of the next row is the first of all. */
  lemma FirstRowSlotErrorLast(rows: seq<InsertValuesSegment>, n: nat, i: int, columns: seq<ColumnSegment>, bind: Expr -> Bound<Expr>)
    requires |rows| == n + 1
    requires forall j, i' :: 0 <= j < n && 0 <= i' < |rows[..n][j].values| ==> SlotError(rows[..n][j].values[i'], i', columns, bind).None?
    requires FirstSlotError(rows[n].values, i, columns, bind)
    ensures FirstRowSlotError(rows, n, i, columns, bind)
  {
    assert forall j :: 0 <= j < n ==> rows[..n][j] == rows[j];
  }

  /**
    Rows that fail fail with the error of the first failing slot of the first row that has one;
    every earlier row binds completely.
  */
  lemma {:induction false} BoundRowsFails(rows: seq<InsertValuesSegment>, columns: seq<ColumnSegment>, bind: Expr -> Bound<Expr>)
    ensures var r := BoundRows(rows, columns, bind);
            r.Err? ==>
              exists j, i :: FirstRowSlotError(rows, j, i, columns, bind) && r.error == SlotError(rows[j].values[i], i, columns, bind).value
    decreases |rows|
  {
    if |rows| > 0 {
      var n := |rows| - 1;
      BoundRowsFails(rows[..n], columns, bind);
      var prev := BoundRows(rows[..n], columns, bind);
      if prev.Err? {
        BoundRowsPrefixErr(rows, n, columns, bind);
        var j, i :| FirstRowSlotError(rows[..n], j, i, columns, bind) && prev.error == SlotError(rows[..n][j].values[i], i, columns, bind).value;
        FirstRowSlotErrorExtends(rows, n, j, i, columns, bind);
      } else if BoundRows(rows, columns, bind).Err? {
        var row := BoundRow(rows[n].values, columns, prev.value.1, bind);
        BoundRowsLastError(rows, columns, bind);
        BoundRowsOkNoError(rows[..n], columns, bind);
        if row.Err? {
          BoundRowFails(rows[n].values, columns, prev.value.1, bind);
          var i :| FirstSlotError(rows[n].values, i, columns, bind) && row.error == SlotError(rows[n].values[i], i, columns, bind).value;
          FirstRowSlotErrorLast(rows, n, i, columns, bind);
        }
      }
    }
  }

  /** The slot (j, i) holds a marker that appears nowhere else in the VALUES rows. */
  predicate OnlyAt(rows: seq<InsertValuesSegment>, j: nat, i: nat)
    requires j < |rows| && i < |rows[j].values|
  {
    && rows[j].values[i].MarkerExpr?
    && (forall j', i' :: 0 <= j' < |rows| && 0 <= i' < |rows[j'].values| && (j' != j || i' != i) ==>
          rows[j'].values[i'] != rows[j].values[i])
  }

  /** A marker written once in VALUES is mapped to the column at its position in the row. */
  lemma {:induction false} BoundRowsPairsMarker(rows: seq<InsertValuesSegment>, columns: seq<ColumnSegment>, bind: Expr -> Bound<Expr>,
                                                j: nat, i: nat)
    requires j < |rows| && i < |rows[j].values| && OnlyAt(rows, j, i)
    ensures var r := BoundRows(rows, columns, bind);
            r.Ok? ==> i < |columns| && rows[j].values[i].marker in r.value.1 && r.value.1[rows[j].values[i].marker] == columns[i].boundInfo
    decreases |rows|
  {
    if BoundRows(rows, columns, bind).Err? {
      return;
    }
    var n := |rows| - 1;
    var prev := BoundRows(rows[..n], columns, bind).value;
    var row := rows[n];
    var m := rows[j].values[i];
    if j == n {
      assert m !in row.values[i + 1..] by {
        forall i' | i + 1 <= i' < |row.values|
          ensures row.values[i'] != m
        {
          assert i' != i;
        }
      }
    } else {
      assert OnlyAt(rows[..n], j, i);
      BoundRowsPairsMarker(rows[..n], columns, bind, j, i);
      assert m !in row.values by {
        forall i' | 0 <= i' < |row.values|
          ensures row.values[i'] != m
        {
          assert n != j;
        }
      }
    }
  }

  // ---------------------------------------------------------------------------
  // UPDATE SET assignments

  /** How a SET column or value is bound: as a SET segment against the target alone. */
  function AssignedColumnBinder(binders: SegmentBinders, ctx: BinderContext, target: TableScopes): ColumnSegment -> Bound<ColumnSegment> {
    c => binders.column(c, SegmentType.SetAssignment, ctx, target, NoScopes)
  }

  function AssignedValueBinder(binders: SegmentBinders, ctx: BinderContext, target: TableScopes): Expr -> Bound<Expr> {
    e => binders.expression(e, SegmentType.SetAssignment, ctx, target, NoScopes)
  }

  /** The columns of one assignment, bound in order; the first failure ends the list. */
  function BoundColumns(columns: seq<ColumnSegment>, bind: ColumnSegment -> Bound<ColumnSegment>): (r: Bound<seq<ColumnSegment>>)
    ensures r.Ok? <==> forall i :: 0 <= i < |columns| ==> bind(columns[i]).Ok?
    ensures r.Ok? ==> |r.value| == |columns| && forall i :: 0 <= i < |columns| ==> bind(columns[i]) == Ok(r.value[i])
    decreases |columns|
  {
    if |columns| == 0 then Ok([])
    else
      var n := |columns| - 1;
      var prev :- BoundColumns(columns[..n], bind);
      var c :- bind(columns[n]);
      Ok(prev + [c])
  }

  lemma {:induction false} BoundColumnsPrefixErr(columns: seq<ColumnSegment>, k: nat, bind: ColumnSegment -> Bound<ColumnSegment>)
    requires k <= |columns|
    requires BoundColumns(columns[..k], bind).Err?
    ensures BoundColumns(columns, bind) == BoundColumns(columns[..k], bind)
    decreases |columns|
  {
    if k < |columns| {
      var n := |columns| - 1;
      assert columns[..n][..k] == columns[..k];
      BoundColumnsPrefixErr(columns[..n], k, bind);
    } else {
      assert columns[..k] == columns;
    }
  }

  /** A column list that fails fails with the error of its first failing column. */
  lemma {:induction false} BoundColumnsFails(columns: seq<ColumnSegment>, bind: ColumnSegment -> Bound<ColumnSegment>)
    ensures var r := BoundColumns(columns, bind);
            r.Err? ==>
              exists i :: && 0 <= i < |columns| && bind(columns[i]).Err?
                          && (forall j :: 0 <= j < i ==> bind(columns[j]).Ok?)
                          && r.error == bind(columns[i]).error
    decreases |columns|
  {
    if |columns| > 0 {
      var n := |columns| - 1;
      BoundColumnsFails(columns[..n], bind);
      var prev := BoundColumns(columns[..n], bind);
      if prev.Err? {
        BoundColumnsPrefixErr(columns, n, bind);
        var i :| && 0 <= i < n && bind(columns[..n][i]).Err?
                 && (forall j :: 0 <= j < i ==> bind(columns[..n][j]).Ok?)
                 && prev.error == bind(columns[..n][i]).error;
        assert forall j :: 0 <= j <= i ==> columns[..n][j] == columns[j];
      } else {
        assert forall j :: 0 <= j < n ==> columns[..n][j] == columns[j];
      }
    }
  }

  /**
    The SET assignments, bound one after the other. When the bound value is a parameter
    marker, the first column of the assignment is recorded for it; an assignment without
    columns then fails with an index error.
  */
  function BoundAssignments(assignments: seq<ColumnAssignmentSegment>, bindColumn: ColumnSegment -> Bound<ColumnSegment>,
                            bindValue: Expr -> Bound<Expr>): (r: Bound<(seq<ColumnAssignmentSegment>, MarkerInfos)>)
    ensures r.Ok? <==> forall k :: 0 <= k < |assignments| ==>
                         && BoundColumns(assignments[k].columns, bindColumn).Ok?
                         && bindValue(assignments[k].value).Ok?
                         && (bindValue(assignments[k].value).value.MarkerExpr? ==> |assignments[k].columns| > 0)
    ensures r.Ok? ==> |r.value.0| == |assignments|
    ensures r.Ok? ==> forall k :: 0 <= k < |assignments| ==>
                        && r.value.0[k].startIndex == assignments[k].startIndex
                        && r.value.0[k].stopIndex == assignments[k].stopIndex
                        && BoundColumns(assignments[k].columns, bindColumn) == Ok(r.value.0[k].columns)
                        && bindValue(assignments[k].value) == Ok(r.value.0[k].value)
    decreases |assignments|
  {
    if |assignments| == 0 then Ok(([], map[]))
    else
      var n := |assignments| - 1;
      var prev :- BoundAssignments(assignments[..n], bindColumn, bindValue);
      var a := assignments[n];
      var columns :- BoundColumns(a.columns, bindColumn);
      var e :- bindValue(a.value);
      var bound := ColumnAssignmentSegment(a.startIndex, a.stopIndex, columns, e);
      if e.MarkerExpr? then
        if |columns| > 0 then Ok((prev.0 + [bound], prev.1[e.marker := columns[0].boundInfo]))
        else Err(IndexOutOfBounds(0, 0))
      else Ok((prev.0 + [bound], prev.1))
  }

  /** One more assignment after a prefix that binds: a column's error, the value's error, an index error, or the assignment added. */
  lemma BoundAssignmentsStep(assignments: seq<ColumnAssignmentSegment>, k: nat,
                             bindColumn: ColumnSegment -> Bound<ColumnSegment>, bindValue: Expr -> Bound<Expr>)
    requires k < |assignments| && BoundAssignments(assignments[..k], bindColumn, bindValue).Ok?
    ensures var prev := BoundAssignments(assignments[..k], bindColumn, bindValue).value;
            var a := assignments[k];
            var columns := BoundColumns(a.columns, bindColumn);
            var e := bindValue(a.value);
            BoundAssignments(assignments[..k + 1], bindColumn, bindValue) ==
              if columns.Err? then Err(columns.error)
              else if e.Err? then Err(e.error)
              else if e.value.MarkerExpr? && |columns.value| == 0 then Err(IndexOutOfBounds(0, 0))
              else
                var bound := ColumnAssignmentSegment(a.startIndex, a.stopIndex, columns.value, e.value);
                if e.value.MarkerExpr? then Ok((prev.0 + [bound], prev.1[e.value.marker := columns.value[0].boundInfo]))
                else Ok((prev.0 + [bound], prev.1))
  {
    assert assignments[..k + 1][..k] == assignments[..k];
  }

  /** An assignment list that fails keeps failing, with the same error, when one more assignment follows. */
  lemma BoundAssignmentsErrStep(assignments: seq<ColumnAssignmentSegment>, m: nat,
                                bindColumn: ColumnSegment -> Bound<ColumnSegment>, bindValue: Expr -> Bound<Expr>)
    requires m < |assignments|
    requires BoundAssignments(assignments[..m], bindColumn, bindValue).Err?
    ensures BoundAssignments(assignments[..m + 1], bindColumn, bindValue) == BoundAssignments(assignments[..m], bindColumn, bindValue)
  {
    assert assignments[..m + 1][..m] == assignments[..m];
  }

  lemma {:induction false} BoundAssignmentsPrefixErr(assignments: seq<ColumnAssignmentSegment>, k: nat,
                                                     bindColumn: ColumnSegment -> Bound<ColumnSegment>, bindValue: Expr -> Bound<Expr>)
    requires k <= |assignments|
    requires BoundAssignments(assignments[..k], bindColumn, bindValue).Err?
    ensures BoundAssignments(assignments, bindColumn, bindValue) == BoundAssignments(assignments[..k], bindColumn, bindValue)
    decreases |assignments|
  {
    if k < |assignments| {
      var n := |assignments| - 1;
      assert assignments[..n][..k] == assignments[..k];
      BoundAssignmentsPrefixErr(assignments[..n], k, bindColumn, bindValue);
      BoundAssignmentsErrStep(assignments, n, bindColumn, bindValue);
      assert assignments[..n + 1] == assignments;
    } else {
      assert assignments[..k] == assignments;
    }
  }

  /**
    The error one assignment raises, if any: its first failing column's, else its value's, else
    an index error for a marker value with no column to take the information from.
  */
  function AssignmentError(a: ColumnAssignmentSegment, bindColumn: ColumnSegment -> Bound<ColumnSegment>,
                           bindValue: Expr -> Bound<Expr>): Option<BindError>
  {
    var columns := BoundColumns(a.columns, bindColumn);
    var e := bindValue(a.value);
    if columns.Err? then Some(columns.error)
    else if e.Err? then Some(e.error)
    else if e.value.MarkerExpr? && |a.columns| == 0 then Some(IndexOutOfBounds(0, 0))
    else None
  }

  /** Assignment k is the first one that raises an error. */
  ghost predicate FirstAssignmentError(assignments: seq<ColumnAssignmentSegment>, k: int,
                                       bindColumn: ColumnSegment -> Bound<ColumnSegment>, bindValue: Expr -> Bound<Expr>)
  {
    && 0 <= k < |assignments|
    && AssignmentError(assignments[k], bindColumn, bindValue).Some?
    && forall k' :: 0 <= k' < k ==> AssignmentError(assignments[k'], bindColumn, bindValue).None?
  }

  /** The first failing assignment of a prefix is the first failing assignment of the list. */
  lemma FirstAssignmentErrorExtends(assignments: seq<ColumnAssignmentSegment>, n: nat, k: int,
                                    bindColumn: ColumnSegment -> Bound<ColumnSegment>, bindValue: Expr -> Bound<Expr>)
    requires n <= |assignments|
    requires FirstAssignmentError(assignments[..n], k, bindColumn, bindValue)
    ensures FirstAssignmentError(assignments, k, bindColumn, bindValue) && assignments[..n][k] == assignments[k]
  {
    assert forall k' :: 0 <= k' <= k ==> assignments[..n][k'] == assignments[k'];
  }

  /** After assignments that raise no error, a failing next one is the first failing assignment. */
  lemma FirstAssignmentErrorLast(assignments: seq<ColumnAssignmentSegment>, n: nat,
                                 bindColumn: ColumnSegment -> Bound<ColumnSegment>, bindValue: Expr -> Bound<Expr>)
    requires n < |assignments|
    requires forall k :: 0 <= k < n ==> AssignmentError(assignments[..n][k], bindColumn, bindValue).None?
    requires AssignmentError(assignments[n], bindColumn, bindValue).Some?
    ensures FirstAssignmentError(assignments, n, bindColumn, bindValue)
  {
    assert forall k :: 0 <= k < n ==> assignments[..n][k] == assignments[k];
  }

  /** An assignment list that fails fails with the error of its first failing assignment. */
  lemma {:induction false} BoundAssignmentsFails(assignments: seq<ColumnAssignmentSegment>,
                                                 bindColumn: ColumnSegment -> Bound<ColumnSegment>, bindValue: Expr -> Bound<Expr>)
    ensures var r := BoundAssignments(assignments, bindColumn, bindValue);
            r.Err? ==>
              exists k :: FirstAssignmentError(assignments, k, bindColumn, bindValue)
                          && r.error == AssignmentError(assignments[k], bindColumn, bindValue).value
    decreases |assignments|
  {
    if |assignments| > 0 {
      var n := |assignments| - 1;
      BoundAssignmentsFails(assignments[..n], bindColumn, bindValue);
      var prev := BoundAssignments(assignments[..n], bindColumn, bindValue);
      if prev.Err? {
        BoundAssignmentsPrefixErr(assignments, n, bindColumn, bindValue);
        var k :| FirstAssignmentError(assignments[..n], k, bindColumn, bindValue)
                 && prev.error == AssignmentError(assignments[..n][k], bindColumn, bindValue).value;
        FirstAssignmentErrorExtends(assignments, n, k, bindColumn, bindValue);
      } else {
        BoundAssignmentsLastError(assignments, n, bindColumn, bindValue);
        assert assignments[..n + 1] == assignments;
        if BoundAssignments(assignments, bindColumn, bindValue).Err? {
          BoundAssignmentsOkNoError(assignments[..n], bindColumn, bindValue);
          FirstAssignmentErrorLast(assignments, n, bindColumn, bindValue);
        }
      }
    }
  }

  /** In an assignment list that binds, no assignment raises an error. */
  lemma BoundAssignmentsOkNoError(assignments: seq<ColumnAssignmentSegment>,
                                  bindColumn: ColumnSegment -> Bound<ColumnSegment>, bindValue: Expr -> Bound<Expr>)
    requires BoundAssignments(assignments, bindColumn, bindValue).Ok?
    ensures forall k :: 0 <= k < |assignments| ==> AssignmentError(assignments[k], bindColumn, bindValue).None?
  {
  }

  /** After a prefix that binds, one more assignment fails exactly with that assignment's error. */
  lemma BoundAssignmentsLastError(assignments: seq<ColumnAssignmentSegment>, n: nat,
                                  bindColumn: ColumnSegment -> Bound<ColumnSegment>, bindValue: Expr -> Bound<Expr>)
    requires n < |assignments|
    requires BoundAssignments(assignments[..n], bindColumn, bindValue).Ok?
    ensures var r := BoundAssignments(assignments[..n + 1], bindColumn, bindValue);
            var last := AssignmentError(assignments[n], bindColumn, bindValue);
            r.Err? ==> last.Some? && r.error == last.value
  {
    assert assignments[..n + 1][..n] == assignments[..n];
    var a := assignments[n];
    var columns := BoundColumns(a.columns, bindColumn);
    var r := BoundAssignments(assignments[..n + 1], bindColumn, bindValue);
    if columns.Err? {
      assert r == Err(columns.error);
    } else if bindValue(a.value).Err? {
      assert r == Err(bindValue(a.value).error);
    } else if bindValue(a.value).value.MarkerExpr? && |a.columns| == 0 {
      assert r == Err(IndexOutOfBounds(0, 0));
    } else {
      assert r.Ok?;
    }
  }

  /** An assignment list that binds extends its shorter prefix's result by its last bound assignment. */
  lemma BoundAssignmentsOkStep(assignments: seq<ColumnAssignmentSegment>, n: nat,
                               bindColumn: ColumnSegment -> Bound<ColumnSegment>, bindValue: Expr -> Bound<Expr>)
    requires n < |assignments|
    requires BoundAssignments(assignments[..n + 1], bindColumn, bindValue).Ok?
    ensures var prev := BoundAssignments(assignments[..n], bindColumn, bindValue);
            var r := BoundAssignments(assignments[..n + 1], bindColumn, bindValue).value;
            && prev.Ok?
            && r.0 == prev.value.0 + [r.0[n]]
            && (r.0[n].value.MarkerExpr? ==> |r.0[n].columns| > 0)
            && r.1 == if r.0[n].value.MarkerExpr? then prev.value.1[r.0[n].value.marker := r.0[n].columns[0].boundInfo]
                      else prev.value.1
  {
    assert assignments[..n + 1][..n] == assignments[..n];
  }

  /** The marker map holds exactly the markers that bound SET values are. */
  lemma {:induction false} BoundAssignmentsMarkers(assignments: seq<ColumnAssignmentSegment>,
                                                   bindColumn: ColumnSegment -> Bound<ColumnSegment>, bindValue: Expr -> Bound<Expr>)
    requires BoundAssignments(assignments, bindColumn, bindValue).Ok?
    ensures var r := BoundAssignments(assignments, bindColumn, bindValue).value;
            forall m :: m in r.1 <==> exists k :: 0 <= k < |assignments| && r.0[k].value == MarkerExpr(m)
    decreases |assignments|
  {
    if |assignments| > 0 {
      var n := |assignments| - 1;
      assert assignments[..n + 1] == assignments;
      BoundAssignmentsOkStep(assignments, n, bindColumn, bindValue);
      BoundAssignmentsMarkers(assignments[..n], bindColumn, bindValue);
      var prev := BoundAssignments(assignments[..n], bindColumn, bindValue).value;
      var r := BoundAssignments(assignments, bindColumn, bindValue).value;
      forall m ensures m in r.1 <==> exists k :: 0 <= k < |assignments| && r.0[k].value == MarkerExpr(m)
      {
        if m in prev.1 {
          var k :| 0 <= k < n && prev.0[k].value == MarkerExpr(m);
          assert r.0[k] == prev.0[k];
        }
        if k :| 0 <= k < |assignments| && r.0[k].value == MarkerExpr(m) {
          if k < n {
            assert r.0[k] == prev.0[k];
          }
        }
      }
    }
  }

  /** A marker that no later assignment repeats is mapped to the first column of its assignment. */
  lemma {:induction false} BoundAssignmentsPairsMarker(assignments: seq<ColumnAssignmentSegment>,
                                                       bindColumn: ColumnSegment -> Bound<ColumnSegment>, bindValue: Expr -> Bound<Expr>, k: nat)
    requires BoundAssignments(assignments, bindColumn, bindValue).Ok?
    requires k < |assignments|
    requires var r := BoundAssignments(assignments, bindColumn, bindValue).value;
             r.0[k].value.MarkerExpr? && forall k' :: k < k' < |assignments| ==> r.0[k'].value != r.0[k].value
    ensures var r := BoundAssignments(assignments, bindColumn, bindValue).value;
            && |r.0[k].columns| > 0
            && r.0[k].value.marker in r.1
            && r.1[r.0[k].value.marker] == r.0[k].columns[0].boundInfo
    decreases |assignments|
  {
    var n := |assignments| - 1;
    var r := BoundAssignments(assignments, bindColumn, bindValue).value;
    var prev := BoundAssignments(assignments[..n], bindColumn, bindValue).value;
    assert r.0[..n] == prev.0;
    if k < n {
      assert r.0[k] == prev.0[k];
      forall k' | k < k' < n
        ensures prev.0[k'].value != prev.0[k].value
      {
        assert r.0[k'] == prev.0[k'];
      }
      BoundAssignmentsPairsMarker(assignments[..n], bindColumn, bindValue, k);
    }
  }

  // ---------------------------------------------------------------------------
  // The nested INSERT and UPDATE

  /**
    The columns the VALUES slots fill: the bound column list when the INSERT has one,
    otherwise the visible columns of the first table in the target scopes.
  */
  function ValuesColumns(insertColumns: Option<InsertColumnsSegment>, target: TableScopes): (r: Bound<seq<ColumnSegment>>)
    ensures r.Err? <==> insertColumns.None? && |target.entries| == 0
    ensures r.Err? ==> r.error == NoSuchElement
    ensures insertColumns.Some? ==> r == Ok(insertColumns.value.columns)
    ensures insertColumns.None? && |target.entries| > 0 ==>
              forall c :: c in r.value <==> ColumnProjection(c, true) in target.entries[0].value.projections
  {
    if insertColumns.Some? then Ok(insertColumns.value.columns)
    else if |target.entries| == 0 then Err(NoSuchElement)
    else
      VisibleColumnsMembers(target.entries[0].value.projections);
      Ok(VisibleColumns(target.entries[0].value.projections))
  }

  /** The INSERT column list, bound against the parent context and the target, when there is one. */
  function BoundInsertColumns(insertColumns: Option<InsertColumnsSegment>, ctx: BinderContext, target: TableScopes,
                              binders: SegmentBinders): (r: Bound<Option<InsertColumnsSegment>>)
    ensures insertColumns.None? ==> r == Ok(None)
    ensures insertColumns.Some? ==>
      match binders.insertColumns(insertColumns.value, ctx, target)
      case Ok(c) => r == Ok(Some(c))
      case Err(e) => r == Err(e)
  {
    if insertColumns.None? then Ok(None)
    else
      var c :- binders.insertColumns(insertColumns.value, ctx, target);
      Ok(Some(c))
  }

  /** The INSERT of WHEN NOT MATCHED, bound against the MERGE target with the source outside. */
  function BoundMergeInsert(stmt: InsertStatement, table: TableSegment, ctx: BinderContext,
                            target: TableScopes, source: TableScopes, binders: SegmentBinders): (r: Bound<InsertStatement>)
    ensures stmt.insertColumns.None? && |target.entries| == 0 ==> r == Err(NoSuchElement)
    // the bind fails exactly when a step fails, with the first failing step's error
    ensures var columnList := BoundInsertColumns(stmt.insertColumns, ctx, target, binders);
            && (columnList.Err? ==> r == Err(columnList.error))
            && (columnList.Ok? ==>
                  var columns := ValuesColumns(columnList.value, target);
                  && (columns.Err? ==> r == Err(columns.error))
                  && (columns.Ok? ==>
                        var rows := BoundRows(stmt.values, columns.value, ValueBinder(binders, NestedContext(ctx, source), target, source));
                        && (rows.Err? ==> r == Err(rows.error))
                        && (rows.Ok? ==>
                              var where := BindOptionalWhere(stmt.where, NestedContext(ctx, source), target, source, binders);
                              && (where.Err? ==> r == Err(where.error))
                              && (where.Ok? ==> r.Ok?))))
    ensures r.Ok? ==> r.value.table == Some(table) && r.value.dialect == stmt.dialect && r.value.variableNames == []
    ensures r.Ok? ==> (r.value.insertColumns.Some? <==> stmt.insertColumns.Some?)
    ensures r.Ok? && stmt.insertColumns.Some? ==>
              binders.insertColumns(stmt.insertColumns.value, ctx, target) == Ok(r.value.insertColumns.value)
    ensures r.Ok? ==> |r.value.values| == |stmt.values|
    ensures r.Ok? ==> forall j :: 0 <= j < |stmt.values| ==>
                        && r.value.values[j].startIndex == stmt.values[j].startIndex
                        && r.value.values[j].stopIndex == stmt.values[j].stopIndex
                        && |r.value.values[j].values| == |stmt.values[j].values|
    ensures r.Ok? ==> forall j, i :: 0 <= j < |stmt.values| && 0 <= i < |stmt.values[j].values| ==>
                        binders.expression(stmt.values[j].values[i], SegmentType.Values, NestedContext(ctx, source), target, source)
                          == Ok(r.value.values[j].values[i])
    ensures r.Ok? ==> (r.value.where.Some? <==> stmt.where.Some?)
    ensures r.Ok? && stmt.where.Some? ==>
              binders.where(stmt.where.value, NestedContext(ctx, source), target, source) == Ok(r.value.where.value)
    ensures r.Ok? ==>
              && r.value.insertSelect == stmt.insertSelect
              && r.value.onDuplicateKeyColumns == stmt.onDuplicateKeyColumns
              && r.value.setAssignment == stmt.setAssignment
              && r.value.withSegment == stmt.withSegment
              && r.value.output == stmt.output
              && r.value.multiTableInsertType == stmt.multiTableInsertType
              && r.value.multiTableInsertInto == stmt.multiTableInsertInto
              && r.value.multiTableConditionalInto == stmt.multiTableConditionalInto
              && r.value.returning == stmt.returning
              && r.value.comments == stmt.comments
    ensures r.Ok? ==> |r.value.parameterMarkers| == |stmt.parameterMarkers|
    ensures r.Ok? ==> forall n :: 0 <= n < |stmt.parameterMarkers| ==>
                        r.value.parameterMarkers[n].(boundInfo := stmt.parameterMarkers[n].boundInfo) == stmt.parameterMarkers[n]
  {
    var insertCtx := NestedContext(ctx, source);
    var insertColumns :- BoundInsertColumns(stmt.insertColumns, ctx, target, binders);
    var columns :- ValuesColumns(insertColumns, target);
    var rows :- BoundRows(stmt.values, columns, ValueBinder(binders, insertCtx, target, source));
    var where :- BindOptionalWhere(stmt.where, insertCtx, target, source, binders);
    Ok(InsertStatement(stmt.dialect, [], Some(table), insertColumns, stmt.insertSelect, rows.0,
                       stmt.onDuplicateKeyColumns, stmt.setAssignment, stmt.withSegment, stmt.output,
                       stmt.multiTableInsertType, stmt.multiTableInsertInto, stmt.multiTableConditionalInto,
                       stmt.returning, where, BindMarkers(stmt.parameterMarkers, rows.1), stmt.comments))
  }

  /** The UPDATE of WHEN MATCHED, bound against the MERGE target, with the source visible from outside. */
  function BoundMergeUpdate(stmt: UpdateStatement, table: TableSegment, ctx: BinderContext,
                            target: TableScopes, source: TableScopes, binders: SegmentBinders): (r: Bound<UpdateStatement>)
    ensures r.Ok? ==> r.value.table == Some(table) && r.value.dialect == stmt.dialect && r.value.variableNames == []
    ensures r.Ok? ==> r.value.setAssignment.startIndex == stmt.setAssignment.startIndex
                      && r.value.setAssignment.stopIndex == stmt.setAssignment.stopIndex
    ensures r.Ok? ==> |r.value.setAssignment.assignments| == |stmt.setAssignment.assignments|
    ensures r.Ok? ==> forall k :: 0 <= k < |stmt.setAssignment.assignments| ==>
                        var a := stmt.setAssignment.assignments[k];
                        && r.value.setAssignment.assignments[k].startIndex == a.startIndex
                        && r.value.setAssignment.assignments[k].stopIndex == a.stopIndex
                        && binders.expression(a.value, SegmentType.SetAssignment, NestedContext(ctx, source), target, NoScopes)
                             == Ok(r.value.setAssignment.assignments[k].value)
                        && |r.value.setAssignment.assignments[k].columns| == |a.columns|
                        && forall i :: 0 <= i < |a.columns| ==>
                             binders.column(a.columns[i], SegmentType.SetAssignment, NestedContext(ctx, source), target, NoScopes)
                               == Ok(r.value.setAssignment.assignments[k].columns[i])
    // the bind fails exactly when a step fails, with the first failing step's error
    ensures var updateCtx := NestedContext(ctx, source);
            var bound := BoundAssignments(stmt.setAssignment.assignments, AssignedColumnBinder(binders, updateCtx, target),
                                          AssignedValueBinder(binders, updateCtx, target));
            && (bound.Err? ==> r == Err(bound.error))
            && (bound.Ok? ==>
                  var where := BindOptionalWhere(stmt.where, updateCtx, target, NoScopes, binders);
                  && (where.Err? ==> r == Err(where.error))
                  && (where.Ok? ==>
                        var deleteWhere := BindOptionalWhere(stmt.deleteWhere, updateCtx, target, NoScopes, binders);
                        && (deleteWhere.Err? ==> r == Err(deleteWhere.error))
                        && (deleteWhere.Ok? ==> r.Ok?)))
    ensures r.Ok? ==> (r.value.where.Some? <==> stmt.where.Some?) && (r.value.deleteWhere.Some? <==> stmt.deleteWhere.Some?)
    ensures r.Ok? && stmt.where.Some? ==>
              binders.where(stmt.where.value, NestedContext(ctx, source), target, NoScopes) == Ok(r.value.where.value)
    ensures r.Ok? && stmt.deleteWhere.Some? ==>
              binders.where(stmt.deleteWhere.value, NestedContext(ctx, source), target, NoScopes) == Ok(r.value.deleteWhere.value)
    ensures r.Ok? ==> r.value.orderBy == stmt.orderBy && r.value.limit == stmt.limit
                      && r.value.withSegment == stmt.withSegment && r.value.comments == stmt.comments
    ensures r.Ok? ==> |r.value.parameterMarkers| == |stmt.parameterMarkers|
    ensures r.Ok? ==> forall n :: 0 <= n < |stmt.parameterMarkers| ==>
                        r.value.parameterMarkers[n].(boundInfo := stmt.parameterMarkers[n].boundInfo) == stmt.parameterMarkers[n]
  {
    var updateCtx := NestedContext(ctx, source);
    var assignment := stmt.setAssignment;
    var boundSet :- BoundAssignments(assignment.assignments, AssignedColumnBinder(binders, updateCtx, target),
                                     AssignedValueBinder(binders, updateCtx, target));
    var where :- BindOptionalWhere(stmt.where, updateCtx, target, NoScopes, binders);
    var deleteWhere :- BindOptionalWhere(stmt.deleteWhere, updateCtx, target, NoScopes, binders);
    Ok(UpdateStatement(stmt.dialect, [], Some(table), SetAssignmentSegment(assignment.startIndex, assignment.stopIndex, boundSet.0),
                       where, deleteWhere, stmt.orderBy, stmt.limit, stmt.withSegment,
                       BindMarkers(stmt.parameterMarkers, boundSet.1), stmt.comments))
  }

  /** A marker written once in VALUES gets the bound information of the column it fills. */
  lemma BoundMergeInsertBindsMarkerToColumn(stmt: InsertStatement, table: TableSegment, ctx: BinderContext,
                                            target: TableScopes, source: TableScopes, binders: SegmentBinders,
                                            j: nat, i: nat, n: nat)
    requires j < |stmt.values| && i < |stmt.values[j].values| && OnlyAt(stmt.values, j, i)
    requires n < |stmt.parameterMarkers| && stmt.values[j].values[i] == MarkerExpr(stmt.parameterMarkers[n])
    ensures var r := BoundMergeInsert(stmt, table, ctx, target, source, binders);
            r.Ok? ==>
              && (stmt.insertColumns.None? ==> |target.entries| > 0)
              && var columns := if stmt.insertColumns.Some? then r.value.insertColumns.value.columns
                                else VisibleColumns(target.entries[0].value.projections);
                 i < |columns| && r.value.parameterMarkers[n].boundInfo == Some(columns[i].boundInfo)
  {
    if BoundMergeInsert(stmt, table, ctx, target, source, binders).Err? {
      return;
    }
    var r := BoundMergeInsert(stmt, table, ctx, target, source, binders).value;
    var columns := ValuesColumns(r.insertColumns, target).value;
    var rows := BoundRows(stmt.values, columns, ValueBinder(binders, NestedContext(ctx, source), target, source)).value;
    BoundRowsPairsMarker(stmt.values, columns, ValueBinder(binders, NestedContext(ctx, source), target, source), j, i);
    assert r.parameterMarkers == BindMarkers(stmt.parameterMarkers, rows.1);
  }

  /** Every marker in VALUES sits at a position the column list covers; otherwise the INSERT fails. */
  lemma BoundMergeInsertMarkersWithinColumns(stmt: InsertStatement, table: TableSegment, ctx: BinderContext,
                                             target: TableScopes, source: TableScopes, binders: SegmentBinders, j: nat, i: nat)
    requires j < |stmt.values| && i < |stmt.values[j].values| && stmt.values[j].values[i].MarkerExpr?
    ensures var r := BoundMergeInsert(stmt, table, ctx, target, source, binders);
            r.Ok? ==>
              if stmt.insertColumns.Some? then i < |r.value.insertColumns.value.columns|
              else |target.entries| > 0 && i < |VisibleColumns(target.entries[0].value.projections)|
  {
    if BoundMergeInsert(stmt, table, ctx, target, source, binders).Err? {
      return;
    }
    var r := BoundMergeInsert(stmt, table, ctx, target, source, binders).value;
    var columns := ValuesColumns(r.insertColumns, target).value;
    assert BoundRows(stmt.values, columns, ValueBinder(binders, NestedContext(ctx, source), target, source)).Ok?;
  }

  /** A marker that no VALUES slot holds keeps the bound information it had. */
  lemma BoundMergeInsertKeepsOtherMarkers(stmt: InsertStatement, table: TableSegment, ctx: BinderContext,
                                          target: TableScopes, source: TableScopes, binders: SegmentBinders, n: nat)
    requires BoundMergeInsert(stmt, table, ctx, target, source, binders).Ok?
    requires n < |stmt.parameterMarkers|
    requires forall j :: 0 <= j < |stmt.values| ==> MarkerExpr(stmt.parameterMarkers[n]) !in stmt.values[j].values
    ensures BoundMergeInsert(stmt, table, ctx, target, source, binders).value.parameterMarkers[n] == stmt.parameterMarkers[n]
  {
    var r := BoundMergeInsert(stmt, table, ctx, target, source, binders).value;
    var columns := ValuesColumns(r.insertColumns, target).value;
    var rows := BoundRows(stmt.values, columns, ValueBinder(binders, NestedContext(ctx, source), target, source)).value;
    assert r.parameterMarkers == BindMarkers(stmt.parameterMarkers, rows.1);
    assert stmt.parameterMarkers[n] !in rows.1;
  }

  /** A marker that a SET value binds to, and no later one, gets the bound information of the assignment's first column. */
  lemma BoundMergeUpdateBindsMarkerToColumn(stmt: UpdateStatement, table: TableSegment, ctx: BinderContext,
                                            target: TableScopes, source: TableScopes, binders: SegmentBinders,
                                            k: nat, n: nat)
    requires BoundMergeUpdate(stmt, table, ctx, target, source, binders).Ok?
    requires k < |stmt.setAssignment.assignments| && n < |stmt.parameterMarkers|
    requires var r := BoundMergeUpdate(stmt, table, ctx, target, source, binders).value;
             && r.setAssignment.assignments[k].value == MarkerExpr(stmt.parameterMarkers[n])
             && forall k' :: k < k' < |stmt.setAssignment.assignments| ==>
                  r.setAssignment.assignments[k'].value != r.setAssignment.assignments[k].value
    ensures var r := BoundMergeUpdate(stmt, table, ctx, target, source, binders).value;
            && |r.setAssignment.assignments[k].columns| > 0
            && r.parameterMarkers[n].boundInfo == Some(r.setAssignment.assignments[k].columns[0].boundInfo)
  {
    var updateCtx := NestedContext(ctx, source);
    var bindColumn := AssignedColumnBinder(binders, updateCtx, target);
    var bindValue := AssignedValueBinder(binders, updateCtx, target);
    BoundAssignmentsPairsMarker(stmt.setAssignment.assignments, bindColumn, bindValue, k);
  }

  /** A marker that no bound SET value is keeps the bound information it had. */
  lemma BoundMergeUpdateKeepsOtherMarkers(stmt: UpdateStatement, table: TableSegment, ctx: BinderContext,
                                          target: TableScopes, source: TableScopes, binders: SegmentBinders, n: nat)
    requires BoundMergeUpdate(stmt, table, ctx, target, source, binders).Ok?
    requires n < |stmt.parameterMarkers|
    requires var r := BoundMergeUpdate(stmt, table, ctx, target, source, binders).value;
             forall k :: 0 <= k < |r.setAssignment.assignments| ==> r.setAssignment.assignments[k].value != MarkerExpr(stmt.parameterMarkers[n])
    ensures BoundMergeUpdate(stmt, table, ctx, target, source, binders).value.parameterMarkers[n] == stmt.parameterMarkers[n]
  {
    var updateCtx := NestedContext(ctx, source);
    var bindColumn := AssignedColumnBinder(binders, updateCtx, target);
    var bindValue := AssignedValueBinder(binders, updateCtx, target);
    BoundAssignmentsMarkers(stmt.setAssignment.assignments, bindColumn, bindValue);
  }

  // ---------------------------------------------------------------------------
  // The MERGE statement

  /** The markers a bound MERGE collects: the source subquery's, then the INSERT's, then the UPDATE's. */
  function CollectedMarkers(source: TableSegment, insert: Option<InsertStatement>, update: Option<UpdateStatement>): seq<ParameterMarker> {
    SourceSubqueryMarkers(source)
      + (if insert.Some? then insert.value.parameterMarkers else [])
      + (if update.Some? then update.value.parameterMarkers else [])
  }

  /** The bound ON condition, when there is one. */
  function BoundOn(expression: Option<ExpressionWithParams>, ctx: BinderContext, on: TableScopes, binders: SegmentBinders)
    : (r: Bound<Option<ExpressionWithParams>>)
    ensures r.Ok? ==> (r.value.Some? <==> expression.Some?)
    ensures expression.None? ==> r == Ok(None)
    // the expression is bound in the ON scopes; its span and parameter markers are kept
    ensures expression.Some? ==>
      var x := expression.value;
      match binders.expression(x.expr, SegmentType.JoinOn, ctx, on, NoScopes)
      case Ok(e) => r == Ok(Some(ExpressionWithParams(x.startIndex, x.stopIndex, e, x.parameterMarkers)))
      case Err(e) => r == Err(e)
  {
    if expression.None? then Ok(None)
    else
      var x := expression.value;
      var e :- binders.expression(x.expr, SegmentType.JoinOn, ctx, on, NoScopes);
      Ok(Some(ExpressionWithParams(x.startIndex, x.stopIndex, e, x.parameterMarkers)))
  }

  /**
    The bound MERGE. Target and source are bound into scope maps of their own; the ON
    condition sees both; INSERT and UPDATE need a simple target table.
  */
  function BoundMerge(stmt: MergeStatement, metaData: MetaData, currentDatabaseName: string,
                      external: TableScopes, binders: SegmentBinders): (r: Bound<MergeStatement>)
    ensures var ctx := NewContext(metaData, currentDatabaseName, stmt.dialect, stmt.variableNames, external);
            var t := binders.table(stmt.target, ctx, Empty(true), NoScopes);
            && (t.Err? ==> r == Err(t.error))
            && (r.Ok? ==> t.Ok? && r.value.target == t.value.0)
    ensures var ctx := NewContext(metaData, currentDatabaseName, stmt.dialect, stmt.variableNames, external);
            var s := binders.table(stmt.source, ctx, Empty(true), NoScopes);
            r.Ok? ==> s.Ok? && r.value.source == s.value.0
    ensures r.Ok? ==> r.value.dialect == stmt.dialect && r.value.variableNames == [] && r.value.comments == stmt.comments
    ensures r.Ok? ==> (r.value.expression.Some? <==> stmt.expression.Some?)
                      && (r.value.insert.Some? <==> stmt.insert.Some?)
                      && (r.value.update.Some? <==> stmt.update.Some?)
    ensures r.Ok? && (stmt.insert.Some? || stmt.update.Some?) ==> r.value.target.SimpleTable?
    ensures r.Ok? && stmt.insert.Some? ==> r.value.insert.value.table == Some(r.value.target)
    ensures r.Ok? && stmt.update.Some? ==> r.value.update.value.table == Some(r.value.target)
    ensures r.Ok? ==>
              var ctx := NewContext(metaData, currentDatabaseName, stmt.dialect, stmt.variableNames, external);
              var t := binders.table(stmt.target, ctx, Empty(true), NoScopes).value.1;
              var s := binders.table(stmt.source, ctx, Empty(true), NoScopes).value.1;
              && BoundOn(stmt.expression, ctx, OnScopes(s, t), binders) == Ok(r.value.expression)
              && (stmt.expression.Some? ==>
                    binders.expression(stmt.expression.value.expr, SegmentType.JoinOn, ctx, OnScopes(s, t), NoScopes)
                      == Ok(r.value.expression.value.expr))
              && (stmt.insert.Some? ==>
                    BoundMergeInsert(stmt.insert.value, r.value.target, ctx, t, s, binders) == Ok(r.value.insert.value))
              && (stmt.update.Some? ==>
                    BoundMergeUpdate(stmt.update.value, r.value.target, ctx, t, s, binders) == Ok(r.value.update.value))
    ensures r.Ok? ==> r.value.parameterMarkers == CollectedMarkers(r.value.source, r.value.insert, r.value.update)
    // the bind fails exactly when a step fails, with the first failing step's error
    ensures var ctx := NewContext(metaData, currentDatabaseName, stmt.dialect, stmt.variableNames, external);
            var t := binders.table(stmt.target, ctx, Empty(true), NoScopes);
            var s := binders.table(stmt.source, ctx, Empty(true), NoScopes);
            t.Ok? ==>
              && (s.Err? ==> r == Err(s.error))
              && (s.Ok? ==>
                    var on := BoundOn(stmt.expression, ctx, OnScopes(s.value.1, t.value.1), binders);
                    && (on.Err? ==> r == Err(on.error))
                    && (on.Ok? ==>
                          var simple := t.value.0.SimpleTable?;
                          && (stmt.insert.Some? && !simple ==> r == Err(ClassCast))
                          && (stmt.insert.Some? && simple ==>
                                var insert := BoundMergeInsert(stmt.insert.value, t.value.0, ctx, t.value.1, s.value.1, binders);
                                insert.Err? ==> r == Err(insert.error))
                          && ((stmt.insert.None? ||
                               (simple && BoundMergeInsert(stmt.insert.value, t.value.0, ctx, t.value.1, s.value.1, binders).Ok?)) ==>
                                && (stmt.update.Some? && !simple ==> r == Err(ClassCast))
                                && (stmt.update.Some? && simple ==>
                                      var update := BoundMergeUpdate(stmt.update.value, t.value.0, ctx, t.value.1, s.value.1, binders);
                                      update.Err? ==> r == Err(update.error))
                                && ((stmt.update.None? ||
                                     (simple && BoundMergeUpdate(stmt.update.value, t.value.0, ctx, t.value.1, s.value.1, binders).Ok?))
                                      ==> r.Ok?))))
  {
    var ctx := NewContext(metaData, currentDatabaseName, stmt.dialect, stmt.variableNames, external);
    var t :- binders.table(stmt.target, ctx, Empty(true), NoScopes);
    var s :- binders.table(stmt.source, ctx, Empty(true), NoScopes);
    var (target, targetScopes) := t;
    var (source, sourceScopes) := s;
    var expression :- BoundOn(stmt.expression, ctx, OnScopes(sourceScopes, targetScopes), binders);
    var insert :- if stmt.insert.None? then Ok(None)
                  else if !target.SimpleTable? then Err(ClassCast)
                  else match BoundMergeInsert(stmt.insert.value, target, ctx, targetScopes, sourceScopes, binders)
                       case Ok(i) => Ok(Some(i))
                       case Err(e) => Err(e);
    var update :- if stmt.update.None? then Ok(None)
                  else if !target.SimpleTable? then Err(ClassCast)
                  else match BoundMergeUpdate(stmt.update.value, target, ctx, targetScopes, sourceScopes, binders)
                       case Ok(u) => Ok(Some(u))
                       case Err(e) => Err(e);
    Ok(MergeStatement(stmt.dialect, [], target, source, expression, insert, update,
                      CollectedMarkers(source, insert, update), stmt.comments))
  }

  /**
    With a table binder that registers what it binds, the scope maps BoundMerge builds are
    the ones the ON condition and the nested INSERT and UPDATE rely on: the ON scopes hold
    every target table and every source table whose name the target does not take, and the
    nested context sees the source's tables over the caller's external ones.
  */
  lemma BoundMergeScopes(stmt: MergeStatement, metaData: MetaData, currentDatabaseName: string,
                         external: TableScopes, binders: SegmentBinders)
    requires TableBinderRegisters(binders)
    ensures var ctx := NewContext(metaData, currentDatabaseName, stmt.dialect, stmt.variableNames, external);
            var t := binders.table(stmt.target, ctx, Empty(true), NoScopes);
            var s := binders.table(stmt.source, ctx, Empty(true), NoScopes);
            t.Ok? && s.Ok? ==>
              var on := OnScopes(s.value.1, t.value.1);
              && Valid(on)
              && (forall e :: e in t.value.1.entries ==> Lookup(on, e.key) == Some(e.value))
              && (forall e :: e in s.value.1.entries && e.key !in Keys(t.value.1) ==> Lookup(on, e.key) == Some(e.value))
              && (forall k :: k in Keys(on) <==> k in Keys(s.value.1) || k in Keys(t.value.1))
              && (forall k :: Lookup(NestedContext(ctx, s.value.1).external, k) ==
                               if Lookup(s.value.1, k).Some? then Lookup(s.value.1, k) else Lookup(ctx.external, k))
  {
    var ctx := NewContext(metaData, currentDatabaseName, stmt.dialect, stmt.variableNames, external);
    var t := binders.table(stmt.target, ctx, Empty(true), NoScopes);
    var s := binders.table(stmt.source, ctx, Empty(true), NoScopes);
    if t.Ok? && s.Ok? {
      var noTables: TableScopes := Empty(true);
      assert Valid(noTables);
      OnScopesJoinSourceAndTarget(s.value.1, t.value.1);
      forall k
        ensures Lookup(NestedContext(ctx, s.value.1).external, k) ==
                if Lookup(s.value.1, k).Some? then Lookup(s.value.1, k) else Lookup(ctx.external, k)
      {
        NestedContextSeesSource(ctx, s.value.1, k);
      }
    }
  }

  /** When every step binds, BoundMerge is the statement those steps build. */
  lemma BoundMergeOk(stmt: MergeStatement, metaData: MetaData, currentDatabaseName: string,
                     external: TableScopes, binders: SegmentBinders, ctx: BinderContext,
                     target: TableSegment, targetScopes: TableScopes, source: TableSegment, sourceScopes: TableScopes,
                     expression: Option<ExpressionWithParams>, insert: Option<InsertStatement>, update: Option<UpdateStatement>)
    requires ctx == NewContext(metaData, currentDatabaseName, stmt.dialect, stmt.variableNames, external)
    requires binders.table(stmt.target, ctx, Empty(true), NoScopes) == Ok((target, targetScopes))
    requires binders.table(stmt.source, ctx, Empty(true), NoScopes) == Ok((source, sourceScopes))
    requires BoundOn(stmt.expression, ctx, OnScopes(sourceScopes, targetScopes), binders) == Ok(expression)
    requires stmt.insert.None? ==> insert.None?
    requires stmt.insert.Some? ==> target.SimpleTable? && insert.Some?
                                   && BoundMergeInsert(stmt.insert.value, target, ctx, targetScopes, sourceScopes, binders) == Ok(insert.value)
    requires stmt.update.None? ==> update.None?
    requires stmt.update.Some? ==> target.SimpleTable? && update.Some?
                                   && BoundMergeUpdate(stmt.update.value, target, ctx, targetScopes, sourceScopes, binders) == Ok(update.value)
    ensures BoundMerge(stmt, metaData, currentDatabaseName, external, binders)
              == Ok(MergeStatement(stmt.dialect, [], target, source, expression, insert, update,
                                   CollectedMarkers(source, insert, update), stmt.comments))
  {
  }

  // ---------------------------------------------------------------------------
  // The binder, step by step

  /** Binds a MERGE statement with no external scopes. */
  method Bind(stmt: MergeStatement, metaData: MetaData, currentDatabaseName: string, binders: SegmentBinders)
    returns (r: Bound<MergeStatement>)
    ensures r == BoundMerge(stmt, metaData, currentDatabaseName, NoScopes, binders)
  {
    r := BindWithExternal(stmt, metaData, currentDatabaseName, NoScopes, binders);
  }

  /** Binds a MERGE statement whose context starts with the given external scopes. */
  method BindWithExternal(stmt: MergeStatement, metaData: MetaData, currentDatabaseName: string,
                          external: TableScopes, binders: SegmentBinders) returns (r: Bound<MergeStatement>)
    ensures r == BoundMerge(stmt, metaData, currentDatabaseName, external, binders)
  {
    var result := MergeStatement(stmt.dialect, [], stmt.target, stmt.source, None, None, None, [], []);
    assert forall markers: seq<ParameterMarker> :: [] + markers == markers;
    assert [] + stmt.comments == stmt.comments;
    var ctx := NewContext(metaData, currentDatabaseName, stmt.dialect, stmt.variableNames, external);
    var t :- binders.table(stmt.target, ctx, Empty(true), NoScopes);
    var (target, targetScopes) := t;
    var s :- binders.table(stmt.source, ctx, Empty(true), NoScopes);
    var (source, sourceScopes) := s;
    result := result.(target := target, source := source);
    var tableScopes := PutAll(PutAll(Empty(false), sourceScopes), targetScopes);
    if stmt.expression.Some? {
      var x := stmt.expression.value;
      var e :- binders.expression(x.expr, SegmentType.JoinOn, ctx, tableScopes, NoScopes);
      result := result.(expression := Some(ExpressionWithParams(x.startIndex, x.stopIndex, e, [] + x.parameterMarkers)));
      assert [] + x.parameterMarkers == x.parameterMarkers;
    }
    assert BoundOn(stmt.expression, ctx, OnScopes(sourceScopes, targetScopes), binders) == Ok(result.expression);
    if stmt.insert.Some? {
      if !target.SimpleTable? {
        return Err(ClassCast);
      }
      var insert :- BindMergeInsert(stmt.insert.value, target, ctx, targetScopes, sourceScopes, binders);
      result := result.(insert := Some(insert));
    }
    if stmt.update.Some? {
      if !target.SimpleTable? {
        return Err(ClassCast);
      }
      var update :- BindMergeUpdate(stmt.update.value, target, ctx, targetScopes, sourceScopes, binders);
      result := result.(update := Some(update));
    }
    BoundMergeOk(stmt, metaData, currentDatabaseName, external, binders, ctx, target, targetScopes, source, sourceScopes,
                 result.expression, result.insert, result.update);
    result := AddParameterMarkerSegments(result);
    result := result.(comments := result.comments + stmt.comments);
    r := Ok(result);
  }

  /** Appends the markers the MERGE collects from its source subquery, INSERT and UPDATE. */
  method AddParameterMarkerSegments(mergeStatement: MergeStatement) returns (r: MergeStatement)
    ensures r == mergeStatement.(parameterMarkers := mergeStatement.parameterMarkers
                                   + CollectedMarkers(mergeStatement.source, mergeStatement.insert, mergeStatement.update))
  {
    r := mergeStatement;
    var fromSource := GetSourceSubqueryTableProjectionParameterMarkers(r.source);
    r := r.(parameterMarkers := r.parameterMarkers + fromSource);
    if r.insert.Some? {
      r := r.(parameterMarkers := r.parameterMarkers + r.insert.value.parameterMarkers);
    }
    if r.update.Some? {
      r := r.(parameterMarkers := r.parameterMarkers + r.update.value.parameterMarkers);
    }
  }

  /** Binds one VALUES row slot by slot, recording markers against the column at the same position. */
  method BindValuesRow(values: seq<Expr>, columns: seq<ColumnSegment>, infos: MarkerInfos,
                       binders: SegmentBinders, ctx: BinderContext, target: TableScopes, source: TableScopes)
    returns (r: Bound<(seq<Expr>, MarkerInfos)>)
    ensures r == BoundRow(values, columns, infos, ValueBinder(binders, ctx, target, source))
  {
    ghost var bind := ValueBinder(binders, ctx, target, source);
    var bound: seq<Expr> := [];
    var recorded := infos;
    var index := 0;
    while index < |values|
      invariant 0 <= index <= |values|
      invariant BoundRow(values[..index], columns, infos, bind) == Ok((bound, recorded))
    {
      var expression := values[index];
      BoundRowStep(values, index, columns, infos, bind);
      var e := binders.expression(expression, SegmentType.Values, ctx, target, source);
      if e.Err? || (expression.MarkerExpr? && index >= |columns|) {
        BoundRowPrefixErr(values, index + 1, columns, infos, bind);
        return if e.Err? then Err(e.error) else Err(IndexOutOfBounds(index, |columns|));
      }
      bound := bound + [e.value];
      if expression.MarkerExpr? {
        recorded := recorded[expression.marker := columns[index].boundInfo];
      }
      index := index + 1;
    }
    assert values[..index] == values;
    r := Ok((bound, recorded));
  }

  /** Binds the VALUES rows in order, sharing one marker map across them. */
  method BindValues(rows: seq<InsertValuesSegment>, columns: seq<ColumnSegment>,
                    binders: SegmentBinders, ctx: BinderContext, target: TableScopes, source: TableScopes)
    returns (r: Bound<(seq<InsertValuesSegment>, MarkerInfos)>)
    ensures r == BoundRows(rows, columns, ValueBinder(binders, ctx, target, source))
  {
    ghost var bind := ValueBinder(binders, ctx, target, source);
    var insertValues: seq<InsertValuesSegment> := [];
    var infos: MarkerInfos := map[];
    var j := 0;
    while j < |rows|
      invariant 0 <= j <= |rows|
      invariant BoundRows(rows[..j], columns, bind) == Ok((insertValues, infos))
    {
      var each := rows[j];
      BoundRowsStep(rows, j, columns, bind);
      var row := BindValuesRow(each.values, columns, infos, binders, ctx, target, source);
      if row.Err? {
        BoundRowsPrefixErr(rows, j + 1, columns, bind);
        return Err(row.error);
      }
      insertValues := insertValues + [InsertValuesSegment(each.startIndex, each.stopIndex, row.value.0)];
      infos := row.value.1;
      j := j + 1;
    }
    assert rows[..j] == rows;
    r := Ok((insertValues, infos));
  }

  /** Binds the INSERT of WHEN NOT MATCHED. */
  method BindMergeInsert(stmt: InsertStatement, table: TableSegment, ctx: BinderContext,
                         target: TableScopes, source: TableScopes, binders: SegmentBinders) returns (r: Bound<InsertStatement>)
    ensures r == BoundMergeInsert(stmt, table, ctx, target, source, binders)
  {
    assert forall values: seq<InsertValuesSegment> :: [] + values == values;
    assert forall markers: seq<ParameterMarker> :: [] + markers == markers;
    assert [] + stmt.comments == stmt.comments;
    var insertCtx := NestedContext(ctx, source);
    var result := InsertStatement(stmt.dialect, [], Some(table), None, None, [], None, None, None, None,
                                  None, None, None, None, None, [], []);
    if stmt.insertColumns.Some? {
      var insertColumns :- binders.insertColumns(stmt.insertColumns.value, ctx, target);
      result := result.(insertColumns := Some(insertColumns));
    }
    assert BoundInsertColumns(stmt.insertColumns, ctx, target, binders) == Ok(result.insertColumns);
    result := result.(insertSelect := stmt.insertSelect);
    var columns: seq<ColumnSegment>;
    if result.insertColumns.Some? {
      columns := result.insertColumns.value.columns;
    } else if |target.entries| == 0 {
      return Err(NoSuchElement);
    } else {
      columns := GetVisibleColumns(target.entries[0].value.projections);
    }
    assert ValuesColumns(result.insertColumns, target) == Ok(columns);
    var rows :- BindValues(stmt.values, columns, binders, insertCtx, target, source);
    result := result.(values := result.values + rows.0);
    result := result.(onDuplicateKeyColumns := stmt.onDuplicateKeyColumns, setAssignment := stmt.setAssignment,
                      withSegment := stmt.withSegment, output := stmt.output,
                      multiTableInsertType := stmt.multiTableInsertType, multiTableInsertInto := stmt.multiTableInsertInto,
                      multiTableConditionalInto := stmt.multiTableConditionalInto, returning := stmt.returning);
    if stmt.where.Some? {
      var where :- binders.where(stmt.where.value, insertCtx, target, source);
      result := result.(where := Some(where));
    }
    assert BindOptionalWhere(stmt.where, insertCtx, target, source, binders) == Ok(result.where);
    result := result.(parameterMarkers := result.parameterMarkers + BindMarkers(stmt.parameterMarkers, rows.1));
    result := result.(comments := result.comments + stmt.comments);
    r := Ok(result);
  }

  /** Binds the columns of one SET assignment in order. */
  method BindAssignedColumns(columns: seq<ColumnSegment>, binders: SegmentBinders, ctx: BinderContext, target: TableScopes)
    returns (r: Bound<seq<ColumnSegment>>)
    ensures r == BoundColumns(columns, AssignedColumnBinder(binders, ctx, target))
  {
    ghost var bind := AssignedColumnBinder(binders, ctx, target);
    var bound: seq<ColumnSegment> := [];
    var i := 0;
    while i < |columns|
      invariant 0 <= i <= |columns|
      invariant BoundColumns(columns[..i], bind) == Ok(bound)
    {
      assert columns[..i + 1][..i] == columns[..i];
      var c := binders.column(columns[i], SegmentType.SetAssignment, ctx, target, NoScopes);
      if c.Err? {
        BoundColumnsPrefixErr(columns, i + 1, bind);
        return Err(c.error);
      }
      bound := bound + [c.value];
      i := i + 1;
    }
    assert columns[..i] == columns;
    r := Ok(bound);
  }

  /** Binds the SET assignments in order, recording each marker value against its first column. */
  method BindAssignments(given: seq<ColumnAssignmentSegment>, binders: SegmentBinders, updateCtx: BinderContext, target: TableScopes)
    returns (r: Bound<(seq<ColumnAssignmentSegment>, MarkerInfos)>)
    ensures r == BoundAssignments(given, AssignedColumnBinder(binders, updateCtx, target), AssignedValueBinder(binders, updateCtx, target))
  {
    ghost var bindColumn := AssignedColumnBinder(binders, updateCtx, target);
    ghost var bindValue := AssignedValueBinder(binders, updateCtx, target);
    var assignments: seq<ColumnAssignmentSegment> := [];
    var infos: MarkerInfos := map[];
    var k := 0;
    while k < |given|
      invariant 0 <= k <= |given|
      invariant BoundAssignments(given[..k], bindColumn, bindValue) == Ok((assignments, infos))
    {
      var each := given[k];
      BoundAssignmentsStep(given, k, bindColumn, bindValue);
      var columns := BindAssignedColumns(each.columns, binders, updateCtx, target);
      if columns.Err? {
        BoundAssignmentsPrefixErr(given, k + 1, bindColumn, bindValue);
        return Err(columns.error);
      }
      var expression := binders.expression(each.value, SegmentType.SetAssignment, updateCtx, target, NoScopes);
      if expression.Err? || (expression.value.MarkerExpr? && |columns.value| == 0) {
        BoundAssignmentsPrefixErr(given, k + 1, bindColumn, bindValue);
        return if expression.Err? then Err(expression.error) else Err(IndexOutOfBounds(0, 0));
      }
      var assignment := ColumnAssignmentSegment(each.startIndex, each.stopIndex, columns.value, expression.value);
      assignments := assignments + [assignment];
      if expression.value.MarkerExpr? {
        infos := infos[expression.value.marker := assignment.columns[0].boundInfo];
      }
      k := k + 1;
    }
    assert given[..k] == given;
    r := Ok((assignments, infos));
  }

  /** Binds the UPDATE of WHEN MATCHED. */
  method BindMergeUpdate(stmt: UpdateStatement, table: TableSegment, ctx: BinderContext,
                         target: TableScopes, source: TableScopes, binders: SegmentBinders) returns (r: Bound<UpdateStatement>)
    ensures r == BoundMergeUpdate(stmt, table, ctx, target, source, binders)
  {
    assert forall markers: seq<ParameterMarker> :: [] + markers == markers;
    assert [] + stmt.comments == stmt.comments;
    var updateCtx := NestedContext(ctx, source);
    var bound :- BindAssignments(stmt.setAssignment.assignments, binders, updateCtx, target);
    var (assignments, infos) := bound;
    var result := UpdateStatement(stmt.dialect, [], Some(table),
                                  SetAssignmentSegment(stmt.setAssignment.startIndex, stmt.setAssignment.stopIndex, assignments),
                                  None, None, None, None, None, [], []);
    if stmt.where.Some? {
      var where :- binders.where(stmt.where.value, updateCtx, target, NoScopes);
      result := result.(where := Some(where));
    }
    assert BindOptionalWhere(stmt.where, updateCtx, target, NoScopes, binders) == Ok(result.where);
    if stmt.deleteWhere.Some? {
      var deleteWhere :- binders.where(stmt.deleteWhere.value, updateCtx, target, NoScopes);
      result := result.(deleteWhere := Some(deleteWhere));
    }
    assert BindOptionalWhere(stmt.deleteWhere, updateCtx, target, NoScopes, binders) == Ok(result.deleteWhere);
    result := result.(orderBy := stmt.orderBy, limit := stmt.limit, withSegment := stmt.withSegment);
    result := result.(parameterMarkers := result.parameterMarkers + BindMarkers(stmt.parameterMarkers, infos));
    result := result.(comments := result.comments + stmt.comments);
    r := Ok(result);
  }
}
