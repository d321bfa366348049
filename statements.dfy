/**
  The statement tree the binders read and build: the segments that the Select, Delete
  and Merge binders touch, in unbound and bound form alike (binding replaces segments,
  it does not change their type). One datatype per statement kind; the `dialect` tag
  stands for the dialect-specific statement class that the Java code instantiates
  reflectively to get a fresh, empty result of the same kind.
*/
module Statements {
  import opened Wrappers

  /** Origin of a bound column: the database, schema, table and column it resolves to. */
  datatype ColumnBoundInfo = ColumnBoundInfo(database: string, schema: string, table: string, column: string)

  /** A parameter placeholder at a source position, with the column it fills once bound. */
  datatype ParameterMarker = ParameterMarker(startIndex: int, stopIndex: int, parameterIndex: nat, boundInfo: Option<ColumnBoundInfo>)

  datatype ColumnSegment = ColumnSegment(startIndex: int, stopIndex: int, name: string, owner: Option<string>, boundInfo: ColumnBoundInfo)

  /** An expression; only columns and parameter markers are told apart by the binders modelled here. */
  datatype Expr =
    | ColumnExpr(column: ColumnSegment)
    | MarkerExpr(marker: ParameterMarker)
    | OtherExpr(startIndex: int, stopIndex: int, text: string)

  /** A select item. `visible` is false for columns a wildcard must not expand to. */
  datatype Projection =
    | ColumnProjection(column: ColumnSegment, visible: bool)
    | MarkerProjection(marker: ParameterMarker)
    | ExpressionProjection(expr: Expr)

  datatype ProjectionsSegment = ProjectionsSegment(startIndex: int, stopIndex: int, distinct: bool, projections: seq<Projection>)

  /** A segment the statement binders either copy or hand whole to a segment binder
      (WITH, GROUP BY, HAVING, ORDER BY, COMBINE, LIMIT, LOCK, WINDOW, MODEL, OUTPUT, RETURNING, ...). */
  datatype Clause = Clause(startIndex: int, stopIndex: int, text: string)

  datatype CommentSegment = CommentSegment(text: string, startIndex: int, stopIndex: int)

  datatype WhereSegment = WhereSegment(startIndex: int, stopIndex: int, expr: Expr)

  datatype Dialect = MySQL | PostgreSQL | OpenGauss | Oracle | SQLServer | SQL92 | Other(name: string)

  datatype TableSegment =
    | SimpleTable(startIndex: int, stopIndex: int, owner: Option<string>, name: string, alias: Option<string>)
    | SubqueryTable(startIndex: int, stopIndex: int, subquery: SelectStatement, alias: Option<string>)
    | JoinTable(startIndex: int, stopIndex: int, left: TableSegment, right: TableSegment, condition: Option<Expr>)

  datatype SelectStatement = SelectStatement(
    dialect: Dialect,
    variableNames: seq<string>,
    withSegment: Option<Clause>,
    from: Option<TableSegment>,
    projections: ProjectionsSegment,
    where: Option<WhereSegment>,
    groupBy: Option<Clause>,
    having: Option<Clause>,
    orderBy: Option<Clause>,
    combine: Option<Clause>,
    limit: Option<Clause>,
    lock: Option<Clause>,
    window: Option<Clause>,
    modelSegment: Option<Clause>,
    parameterMarkers: seq<ParameterMarker>,
    comments: seq<CommentSegment>)

  datatype DeleteStatement = DeleteStatement(
    dialect: Dialect,
    variableNames: seq<string>,
    table: TableSegment,
    where: Option<WhereSegment>,
    orderBy: Option<Clause>,
    limit: Option<Clause>,
    withSegment: Option<Clause>,
    output: Option<Clause>,
    parameterMarkers: seq<ParameterMarker>,
    comments: seq<CommentSegment>)

  datatype InsertColumnsSegment = InsertColumnsSegment(startIndex: int, stopIndex: int, columns: seq<ColumnSegment>)

  /** One parenthesised VALUES row. */
  datatype InsertValuesSegment = InsertValuesSegment(startIndex: int, stopIndex: int, values: seq<Expr>)

  datatype ColumnAssignmentSegment = ColumnAssignmentSegment(startIndex: int, stopIndex: int, columns: seq<ColumnSegment>, value: Expr)

  datatype SetAssignmentSegment = SetAssignmentSegment(startIndex: int, stopIndex: int, assignments: seq<ColumnAssignmentSegment>)

  datatype InsertStatement = InsertStatement(
    dialect: Dialect,
    variableNames: seq<string>,
    table: Option<TableSegment>,
    insertColumns: Option<InsertColumnsSegment>,
    insertSelect: Option<Clause>,
    values: seq<InsertValuesSegment>,
    onDuplicateKeyColumns: Option<Clause>,
    setAssignment: Option<SetAssignmentSegment>,
    withSegment: Option<Clause>,
    output: Option<Clause>,
    multiTableInsertType: Option<Clause>,
    multiTableInsertInto: Option<Clause>,
    multiTableConditionalInto: Option<Clause>,
    returning: Option<Clause>,
    where: Option<WhereSegment>,
    parameterMarkers: seq<ParameterMarker>,
    comments: seq<CommentSegment>)

  datatype UpdateStatement = UpdateStatement(
    dialect: Dialect,
    variableNames: seq<string>,
    table: Option<TableSegment>,
    setAssignment: SetAssignmentSegment,
    where: Option<WhereSegment>,
    deleteWhere: Option<WhereSegment>,
    orderBy: Option<Clause>,
    limit: Option<Clause>,
    withSegment: Option<Clause>,
    parameterMarkers: seq<ParameterMarker>,
    comments: seq<CommentSegment>)

  /** The ON condition of a MERGE together with the markers it contains. */
  datatype ExpressionWithParams = ExpressionWithParams(startIndex: int, stopIndex: int, expr: Expr, parameterMarkers: seq<ParameterMarker>)

  datatype MergeStatement = MergeStatement(
    dialect: Dialect,
    variableNames: seq<string>,
    target: TableSegment,
    source: TableSegment,
    expression: Option<ExpressionWithParams>,
    insert: Option<InsertStatement>,
    update: Option<UpdateStatement>,
    parameterMarkers: seq<ParameterMarker>,
    comments: seq<CommentSegment>)
}
