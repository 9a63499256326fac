/** The SQL statement builder `Query` (src/classes/Query.class.ts). Every
    builder hands a template to `prepare`, which fills in the `#{…}` tokens
    and stores the statement in `query` and its parameters in `values`;
    `returning`, `orderBy` and `groupBy` append to the stored statement.

    Each builder states the stored text as `Prepared` of its template and,
    for names without `#` (and, where the statement allows it, without
    spaces), the statement it reads. */
module QueryBuilder {
  import opened JsValue
  import opened Text
  import opened QueryText
  import opened QueryRendering

  class Query {
    const tableName: string
    const columns: seq<string>
    var query: string
    var values: seq<Value>

    /** `new Query(tableName, columns)`: nothing prepared yet. */
    constructor (tableName: string, columns: seq<string>)
      ensures this.tableName == tableName && this.columns == columns
      ensures query == "" && values == []
    {
      this.tableName := tableName;
      this.columns := columns;
      query := "";
      values := [];
    }

    /** `prepare(template, vals, cols, where)`; `cols == None` is the
        omitted argument, which defaults to the constructor's columns. The
        where parameters are appended to the values the previous call left,
        and that count numbers `#{idnum}`; the stored values then become
        exactly `vals`. */
    method Prepare(template: string, vals: seq<Value>, cols: Option<seq<string>>, where: Option<Where>)
      modifies this
      ensures query == Prepared(tableName, columns, |old(values)|, template, |vals|, cols, where)
      ensures values == vals
    {
      var columnList := if cols.Some? then cols.value else columns;
      var valuesPlaceholders := Join(ValuePlaceholders(|vals|), ",");
      var updatePlaceholders := Join(UpdatePairs(columnList, |vals|), ",");
      var whereClause := " WHERE ";
      if where.Some? && where.value.sql != "" && where.value.values.Some? {
        whereClause := whereClause + where.value.sql;
        values := values + where.value.values.value;
      } else {
        whereClause := "";
      }
      var result := ReplaceAll(template, TableToken, tableName);
      result := ReplaceFirst(result, ColumnsToken, Join(columnList, ","));
      result := ReplaceFirst(result, ValuesToken, valuesPlaceholders);
      result := ReplaceFirst(result, UpdateToken, updatePlaceholders);
      result := ReplaceFirst(result, WhereToken, whereClause);
      result := ReplaceFirst(result, IdnumToken, Placeholder(|values|));
      result := ReplaceFirst(result, "  ", " ");
      query := result;
      values := vals;
    }

    /** `returning(cols)`: appends the clause, or fails leaving the query
        as it was. */
    method Returning(cols: ColumnsArg) returns (r: Outcome)
      modifies this
      ensures values == old(values)
      ensures ReturningClause(cols).Ok? ==> r == Pass && query == old(query) + ReturningClause(cols).value
      ensures ReturningClause(cols).Err? ==> r == Fail(ReturningError) && query == old(query)
    {
      var returning := " RETURNING ";
      if cols == OneString("*") {
        query := query + returning + "*";
        r := Pass;
      } else if cols.OneString? && ',' in cols.s {
        query := query + returning + cols.s;
        r := Pass;
      } else if cols.StringArray? && |cols.items| > 0 {
        query := query + returning + Join(cols.items, ",");
        r := Pass;
      } else {
        r := Fail(ReturningError);
      }
    }

    /** `count(column, where)`; an absent column is "". */
    method Count(column: string, where: Option<Where>)
      modifies this
      ensures query == Prepared(tableName, columns, |old(values)|, AggregateText("COUNT", CountColumn(column)),
                                0, Some([]), where)
      ensures values == []
      ensures Ident(tableName) && Plain(column) ==>
        query == AggregateHead("COUNT", CountColumn(column)) + tableName
                 + RenderedWhere(where, |old(values)| + WhereValueCount(where))
    {
      var col := "*";
      var template := CountTemplate;
      if column != "" && column != "*" {
        col := column;
      }
      AggregateTemplate("COUNT", col);
      template := ReplaceFirst(template, ColumnToken, col);
      if Ident(tableName) && Plain(column) {
        AggregateRendering("COUNT", col, tableName, columns, |values|, where);
      }
      Prepare(template, [], Some([]), where);
    }

    /** `sum(column, where)`: an empty column is refused before anything
        changes. */
    method Sum(column: string, where: Option<Where>) returns (r: Outcome)
      modifies this
      ensures column == "" ==> r == Fail(SumColumnError) && query == old(query) && values == old(values)
      ensures column != "" ==> (r == Pass && values == []
        && query == Prepared(tableName, columns, |old(values)|, AggregateText("SUM", column), 0, Some([]), where))
      ensures column != "" && Ident(tableName) && Plain(column) ==>
        query == AggregateHead("SUM", column) + tableName + RenderedWhere(where, |old(values)| + WhereValueCount(where))
    {
      var template := SumTemplate;
      if column == "" {
        return Fail(SumColumnError);
      }
      AggregateTemplate("SUM", column);
      template := ReplaceFirst(template, ColumnToken, column);
      if Ident(tableName) && Plain(column) {
        AggregateRendering("SUM", column, tableName, columns, |values|, where);
      }
      Prepare(template, [], Some([]), where);
      r := Pass;
    }

    /** `orderBy(columns)`. */
    method OrderBy(cols: ColumnsArg)
      modifies this
      ensures query == old(query) + " ORDER BY " + ColumnsText(cols)
      ensures values == old(values)
    {
      var colsText := if cols.StringArray? then Join(cols.items, ",") else cols.s;
      query := query + " ORDER BY " + colsText;
    }

    /** `groupBy(columns)`. */
    method GroupBy(cols: ColumnsArg)
      modifies this
      ensures query == old(query) + " GROUP BY " + ColumnsText(cols)
      ensures values == old(values)
    {
      var colsText := if cols.StringArray? then Join(cols.items, ",") else cols.s;
      query := query + " GROUP BY " + colsText;
    }

    /** `insert(values)`: the constructor's columns and one placeholder per
        value. */
    method Insert(vals: seq<Value>)
      modifies this
      ensures query == Prepared(tableName, columns, |old(values)|, InsertTemplate, |vals|, None, None)
      ensures values == vals
      ensures Ident(tableName) && AllPlain(columns) ==>
        query == "INSERT INTO " + tableName + " (" + Join(columns, ",") + ") VALUES ("
                 + Join(ValuePlaceholders(|vals|), ",") + ")"
    {
      if Ident(tableName) && AllPlain(columns) {
        InsertText(tableName, columns, |values|, |vals|);
      }
      Prepare(InsertTemplate, vals, None, None);
    }

    /** `select(options)`: LIMIT/OFFSET, then the where condition, then
        `prepare` with no values and the requested columns. */
    method Select(opts: FindOptions)
      modifies this
      ensures query == Prepared(tableName, columns, |old(values)|, SelectText(opts), 0, opts.columns, opts.where)
      ensures values == []
      ensures HashFree(tableName) && AllHashFree(EffectiveColumns(opts.columns, columns))
              && SelectConditionShape(opts.where) ==>
        query == CollapseSpace("SELECT " + Join(EffectiveColumns(opts.columns, columns), ",") + " FROM " + tableName
                               + LimitOffset(opts.offset, opts.limit)
                               + SelectWhereText(opts.where, |old(values)| + WhereValueCount(opts.where)))
    {
      var limitOffset := "";
      if TruthyNat(opts.offset) && TruthyNat(opts.limit) {
        limitOffset := " LIMIT " + NatToString(opts.limit.value) + " OFFSET " + NatToString(opts.offset.value);
      } else if TruthyNat(opts.offset) {
        limitOffset := " OFFSET " + NatToString(opts.offset.value);
      } else if TruthyNat(opts.limit) {
        limitOffset := " LIMIT " + NatToString(opts.limit.value);
      }
      var whereText := "";
      if opts.where.Some? && opts.where.value.sql != "" {
        whereText := " WHERE " + opts.where.value.sql;
      }
      var template := "SELECT " + (ColumnsToken + (" FROM " + (TableToken + (limitOffset + whereText))));
      assert template == SelectText(opts);
      if HashFree(tableName) && AllHashFree(EffectiveColumns(opts.columns, columns))
         && SelectConditionShape(opts.where) {
        SelectStatement(opts, tableName, columns, |values|);
      }
      Prepare(template, [], opts.columns, opts.where);
    }

    /** `update(values, columns, where)`: a non-empty column list of another
        length is refused before anything changes. */
    method Update(vals: seq<Value>, cols: Option<seq<string>>, where: Option<Where>) returns (r: Outcome)
      modifies this
      ensures UpdateMismatch(vals, cols) ==>
        r == Fail(UpdateMismatchError) && query == old(query) && values == old(values)
      ensures !UpdateMismatch(vals, cols) ==> (r == Pass && values == vals
        && query == Prepared(tableName, columns, |old(values)|, UpdateTemplate, |vals|, cols, where))
      ensures !UpdateMismatch(vals, cols) && Ident(tableName) && AllPlain(EffectiveColumns(cols, columns))
              && |vals| > 0 ==>
        query == "UPDATE " + tableName + " SET " + Join(UpdatePairs(EffectiveColumns(cols, columns), |vals|), ",")
                 + RenderedWhere(where, |old(values)| + WhereValueCount(where))
    {
      if cols.Some? && |cols.value| > 0 && |vals| != |cols.value| {
        return Fail(UpdateMismatchError);
      }
      if Ident(tableName) && AllPlain(EffectiveColumns(cols, columns)) && |vals| > 0 {
        UpdateText(tableName, columns, |values|, |vals|, cols, where);
      }
      if where.Some? {
        Prepare(UpdateTemplate, vals, cols, where);
      } else {
        Prepare(UpdateTemplate, vals, cols, None);
      }
      r := Pass;
    }

    /** `delete(where)`. */
    method Delete(where: Option<Where>)
      modifies this
      ensures query == Prepared(tableName, columns, |old(values)|, DeleteTemplate, 0, Some([]), where)
      ensures values == []
      ensures Ident(tableName) ==>
        query == "DELETE FROM " + tableName + RenderedWhere(where, |old(values)| + WhereValueCount(where))
    {
      if Ident(tableName) {
        DeleteText(tableName, columns, |values|, where);
      }
      Prepare(DeleteTemplate, [], Some([]), where);
    }

    /** `tableExists()`. */
    method TableExists()
      modifies this
      ensures query == Prepared(tableName, columns, |old(values)|, TableExistsTemplate, 0, None, None)
      ensures values == []
      ensures HashFree(tableName) ==> query == CollapseSpace(ExistsHead(".tables") + (tableName + "')"))
    {
      if HashFree(tableName) {
        ExistsHeadHashFree(".tables");
        TableOnlyText(ExistsHead(".tables"), "')", tableName, columns, |values|);
      }
      Prepare(TableExistsTemplate, [], None, None);
    }

    /** `columnExists(name, type)`. */
    method ColumnExists(name: string, dataType: string)
      modifies this
      ensures query == Prepared(tableName, columns, |old(values)|, ColumnExistsText(name, dataType), 0, None, None)
      ensures values == []
      ensures HashFree(tableName) && HashFree(name) && HashFree(dataType) ==>
        query == CollapseSpace(ExistsHead(".columns") + (tableName + ColumnExistsTail(name, dataType)))
    {
      if HashFree(tableName) && HashFree(name) && HashFree(dataType) {
        ColumnExistsTailHashFree(name, dataType);
        ExistsHeadHashFree(".columns");
        TableOnlyText(ExistsHead(".columns"), ColumnExistsTail(name, dataType), tableName, columns, |values|);
      }
      Prepare(ColumnExistsText(name, dataType), [], None, None);
    }

    /** `constraintExists(name)`. */
    method ConstraintExists(name: string)
      modifies this
      ensures query == Prepared(tableName, columns, |old(values)|, ConstraintExistsText(name), 0, None, None)
      ensures values == []
      ensures HashFree(tableName) && HashFree(name) ==>
        query == CollapseSpace(ExistsHead(".table_constraints") + (tableName + ConstraintExistsTail(name)))
    {
      if HashFree(tableName) && HashFree(name) {
        ConstraintExistsTailHashFree(name);
        ExistsHeadHashFree(".table_constraints");
        TableOnlyText(ExistsHead(".table_constraints"), ConstraintExistsTail(name), tableName, columns, |values|);
      }
      Prepare(ConstraintExistsText(name), [], None, None);
    }

    /** `createTable(colsSchema)`. */
    method CreateTable(colsSchema: string)
      modifies this
      ensures query == Prepared(tableName, columns, |old(values)|, CreateTableText(colsSchema), 0, None, None)
      ensures values == []
      ensures HashFree(tableName) && HashFree(colsSchema) ==>
        query == CollapseSpace(CreateTableHead + (tableName + (" (" + colsSchema + ")")))
    {
      if HashFree(tableName) && HashFree(colsSchema) {
        TableOnlyText(CreateTableHead, " (" + colsSchema + ")", tableName, columns, |values|);
      }
      Prepare(CreateTableText(colsSchema), [], None, None);
    }

    /** `addColumns(colsSchema)`. */
    method AddColumns(colsSchema: seq<string>)
      modifies this
      ensures query == Prepared(tableName, columns, |old(values)|, AddColumnsText(colsSchema), 0, None, None)
      ensures values == []
      ensures HashFree(tableName) && AllHashFree(colsSchema) ==>
        query == CollapseSpace("ALTER TABLE " + (tableName + (" " + Join(AddColumnClauses(colsSchema), ", "))))
    {
      var schemaString := Join(AddColumnClauses(colsSchema), ", ");
      if HashFree(tableName) && AllHashFree(colsSchema) {
        ClausesHashFree(colsSchema);
        TableOnlyText("ALTER TABLE ", " " + schemaString, tableName, columns, |values|);
      }
      Prepare("ALTER TABLE " + (TableToken + (" " + schemaString)), [], None, None);
    }

    /** `dropTable()`. */
    method DropTable()
      modifies this
      ensures query == Prepared(tableName, columns, |old(values)|, DropTableTemplate, 0, None, None)
      ensures values == []
      ensures HashFree(tableName) ==> query == CollapseSpace(DropTableHead + tableName)
    {
      if HashFree(tableName) {
        TableLastText(DropTableHead, tableName, columns, |values|);
      }
      Prepare(DropTableTemplate, [], None, None);
    }

    /** `dropColumn(name)`. */
    method DropColumn(name: string)
      modifies this
      ensures query == Prepared(tableName, columns, |old(values)|, DropColumnText(name), 0, None, None)
      ensures values == []
      ensures HashFree(tableName) && HashFree(name) ==>
        query == CollapseSpace("ALTER TABLE " + (tableName + (" DROP COLUMN " + name)))
    {
      if HashFree(tableName) && HashFree(name) {
        TableOnlyText("ALTER TABLE ", " DROP COLUMN " + name, tableName, columns, |values|);
      }
      Prepare(DropColumnText(name), [], None, None);
    }

    /** `foreignKey(options)`: the table name fills both its places. */
    method ForeignKey(opts: ForeignKeyOptions)
      modifies this
      ensures query == Prepared(tableName, columns, |old(values)|, ForeignKeyText(opts), 0, None, None)
      ensures values == []
      ensures HashFree(tableName) && HashFree(opts.column) && HashFree(opts.refTable) && HashFree(opts.refColumn)
              && HashFree(opts.onDelete) && HashFree(opts.onUpdate) ==>
        query == CollapseSpace("ALTER TABLE " + tableName + " ADD CONSTRAINT " + tableName + ForeignKeyTail(opts))
    {
      var tail := "_" + opts.column + "_fkey FOREIGN KEY (" + opts.column + ") REFERENCES " + opts.refTable
        + " (" + opts.refColumn + ")";
      if opts.onDelete != "" {
        tail := tail + " ON DELETE " + opts.onDelete;
      }
      if opts.onUpdate != "" {
        tail := tail + " ON UPDATE " + opts.onUpdate;
      }
      var template := "ALTER TABLE " + (TableToken + (" ADD CONSTRAINT " + (TableToken + tail)));
      assert template == ForeignKeyText(opts);
      if HashFree(tableName) && HashFree(opts.column) && HashFree(opts.refTable) && HashFree(opts.refColumn)
         && HashFree(opts.onDelete) && HashFree(opts.onUpdate) {
        ForeignKeyTailHashFree(opts);
        ForeignKeyRendering(opts, tableName, columns, |values|);
      }
      Prepare(template, [], None, None);
    }
  }
}
