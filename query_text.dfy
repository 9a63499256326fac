/** The text side of the SQL builder `Query` (src/classes/Query.class.ts):
    its arguments, the templates each builder hands to `prepare`, and
    `Prepared`, the text `prepare` stores, written as the same chain of
    replacements the source runs. */
module QueryText {
  import opened JsValue
  import opened Text

  // ---------------------------------------------------------------------
  // arguments
  // ---------------------------------------------------------------------

  /** `whereOptions`: an SQL condition and the parameters it binds; a
      missing `values` list is `None`. */
  datatype Where = Where(sql: string, values: Option<seq<Value>>)

  /** `findOptions`; a missing number is `None`. */
  datatype FindOptions = FindOptions(
    offset: Option<nat>,
    limit: Option<nat>,
    columns: Option<seq<string>>,
    where: Option<Where>)

  /** `foreignKeyOptions`; a missing `onDelete`/`onUpdate` is "". */
  datatype ForeignKeyOptions = ForeignKeyOptions(
    column: string,
    refTable: string,
    refColumn: string,
    onDelete: string,
    onUpdate: string)

  /** The `string | Array<string>` column arguments of `returning`,
      `orderBy` and `groupBy`. */
  datatype ColumnsArg = OneString(s: string) | StringArray(items: seq<string>)

  // ---------------------------------------------------------------------
  // tokens and templates
  // ---------------------------------------------------------------------

  const TableToken: string := "#{tableName}"
  const ColumnsToken: string := "#{columns}"
  const ValuesToken: string := "#{values}"
  const UpdateToken: string := "#{updateValues}"
  const WhereToken: string := "#{where}"
  const IdnumToken: string := "#{idnum}"
  const ColumnToken: string := "#{column}"

  // The templates are written as short literal pieces around the tokens,
  // nested to the right; joined up, each reads exactly as the source's
  // template literal.

  const InsertTemplate: string :=
    "INSERT INTO " + (TableToken + (" (" + (ColumnsToken + (") VALUES (" + (ValuesToken + ")")))))
  const UpdateTemplate: string := "UPDATE " + (TableToken + (" SET " + (UpdateToken + (" " + WhereToken))))
  const DeleteTemplate: string := "DELETE FROM " + (TableToken + (" " + WhereToken))

  /** The text of the `count` and `sum` templates before the table name:
      `SELECT <fn>(<column>) FROM `. */
  function AggregateHead(fn: string, column: string): string
  {
    "SELECT " + fn + "(" + column + ") FROM "
  }

  /** The aggregate template once its column is known. */
  function AggregateText(fn: string, column: string): string
  {
    AggregateHead(fn, column) + (TableToken + (" " + WhereToken))
  }

  const CountTemplate: string := AggregateText("COUNT", ColumnToken)
  const SumTemplate: string := AggregateText("SUM", ColumnToken)

  /** `SELECT EXISTS(SELECT 1 FROM information_schema<view> WHERE table_name = '`. */
  function ExistsHead(view: string): string
  {
    "SELECT EXISTS(" + "SELECT 1 FROM " + "information_schema" + view + " WHERE " + "table_name = '"
  }

  const TableExistsTemplate: string := ExistsHead(".tables") + (TableToken + "')")

  function ColumnExistsText(name: string, dataType: string): string
  {
    ExistsHead(".columns") + (TableToken + ColumnExistsTail(name, dataType))
  }

  /** The column-existence template after the table name. */
  function ColumnExistsTail(name: string, dataType: string): string
  {
    "' AND column_name = '" + name + "' AND data_type = '" + dataType + "')"
  }

  function ConstraintExistsText(name: string): string
  {
    ExistsHead(".table_constraints") + (TableToken + ConstraintExistsTail(name))
  }

  /** The constraint-existence template after the table name. */
  function ConstraintExistsTail(name: string): string
  {
    "' AND constraint_name = '" + name + "')"
  }

  const CreateTableHead: string := "CREATE TABLE " + "IF NOT EXISTS "

  function CreateTableText(colsSchema: string): string
  {
    CreateTableHead + (TableToken + (" (" + colsSchema + ")"))
  }

  /** `colsSchema.map(col => `ADD COLUMN ${col}`)`. */
  function AddColumnClauses(colsSchema: seq<string>): (r: seq<string>)
    ensures |r| == |colsSchema|
    ensures forall i :: 0 <= i < |r| ==> r[i] == "ADD COLUMN " + colsSchema[i]
  {
    seq(|colsSchema|, i requires 0 <= i < |colsSchema| => "ADD COLUMN " + colsSchema[i])
  }

  function AddColumnsText(colsSchema: seq<string>): string
  {
    "ALTER TABLE " + (TableToken + (" " + Join(AddColumnClauses(colsSchema), ", ")))
  }

  const DropTableHead: string := "DROP TABLE " + "IF EXISTS "
  const DropTableTemplate: string := DropTableHead + TableToken

  function DropColumnText(name: string): string
  {
    "ALTER TABLE " + (TableToken + (" DROP COLUMN " + name))
  }

  /** The foreign-key template: the constraint is named
      `#{tableName}_<column>_fkey`, and the optional actions follow in the
      order ON DELETE, ON UPDATE. */
  function ForeignKeyText(opts: ForeignKeyOptions): string
  {
    "ALTER TABLE " + (TableToken + (" ADD CONSTRAINT " + (TableToken + ForeignKeyTail(opts))))
  }

  /** The foreign-key template after the constraint's table-name prefix. */
  function ForeignKeyTail(opts: ForeignKeyOptions): string
  {
    var base := "_" + opts.column + "_fkey FOREIGN KEY (" + opts.column + ") REFERENCES " + opts.refTable
      + " (" + opts.refColumn + ")";
    var withDelete := if opts.onDelete != "" then base + " ON DELETE " + opts.onDelete else base;
    if opts.onUpdate != "" then withDelete + " ON UPDATE " + opts.onUpdate else withDelete
  }

  /** A number option is truthy when present and non-zero. */
  predicate TruthyNat(n: Option<nat>)
  {
    n.Some? && n.value != 0
  }

  /** The LIMIT/OFFSET text `select` appends, as the source's three-way test. */
  function LimitOffset(offset: Option<nat>, limit: Option<nat>): string
  {
    if TruthyNat(offset) && TruthyNat(limit) then
      " LIMIT " + NatToString(limit.value) + " OFFSET " + NatToString(offset.value)
    else if TruthyNat(offset) then " OFFSET " + NatToString(offset.value)
    else if TruthyNat(limit) then " LIMIT " + NatToString(limit.value)
    else ""
  }

  /** The LIMIT clause alone, and the OFFSET clause alone. */
  function LimitClause(limit: Option<nat>): string
  {
    if TruthyNat(limit) then " LIMIT " + NatToString(limit.value) else ""
  }

  function OffsetClause(offset: Option<nat>): string
  {
    if TruthyNat(offset) then " OFFSET " + NatToString(offset.value) else ""
  }

  /** The where text `select` appends before `prepare`: any truthy `sql`,
      whether or not `values` is given. */
  function SelectWhere(where: Option<Where>): string
  {
    if where.Some? && where.value.sql != "" then " WHERE " + where.value.sql else ""
  }

  /** What `select` appends after the table name. */
  function SelectTail(opts: FindOptions): string
  {
    LimitOffset(opts.offset, opts.limit) + SelectWhere(opts.where)
  }

  /** The template `select(options)` hands to `prepare`. */
  function SelectText(opts: FindOptions): string
  {
    "SELECT " + (ColumnsToken + (" FROM " + (TableToken + SelectTail(opts))))
  }

  /** `count`'s column: the given one unless it is empty or '*'. */
  function CountColumn(column: string): string
  {
    if column != "" && column != "*" then column else "*"
  }

  /** The text a column argument stands for: the string itself, or the
      array joined with ','. */
  function ColumnsText(cols: ColumnsArg): string
  {
    match cols
    case OneString(s) => s
    case StringArray(items) => Join(items, ",")
  }

  const UpdateMismatchError: string := "UPDATE_VALUES_MISMATCH: The number of values and columns must be equal"
  const SumColumnError: string := "INVALID_PARAM: \"column\" must be a non emtpy string"
  const ReturningError: string := "INVALID_PARAM: cols can either be '*' or 'col1,col2' or ['col1', 'col2']"

  /** The clause `returning(cols)` appends, or its error: '*', a string
      holding a comma, or a non-empty array are accepted. */
  function ReturningClause(cols: ColumnsArg): (r: Result<string>)
    ensures r.Ok? <==>
      (cols.OneString? && (cols.s == "*" || ',' in cols.s)) || (cols.StringArray? && |cols.items| > 0)
    ensures r.Ok? ==> r.value == " RETURNING " + ColumnsText(cols)
    ensures r.Err? ==> r.error == ReturningError
  {
    match cols
    case OneString(s) =>
      if s == "*" || ',' in s then Ok(" RETURNING " + s) else Err(ReturningError)
    case StringArray(items) =>
      if |items| > 0 then Ok(" RETURNING " + Join(items, ",")) else Err(ReturningError)
  }

  // ---------------------------------------------------------------------
  // prepare
  // ---------------------------------------------------------------------

  /** The positional parameter `$i`. */
  function Placeholder(i: nat): string
  {
    "$" + NatToString(i)
  }

  /** `values.map((_, index) => `$${index + 1}`)`. */
  function ValuePlaceholders(n: nat): (r: seq<string>)
    ensures |r| == n
    ensures forall i :: 0 <= i < n ==> r[i] == Placeholder(i + 1)
  {
    seq(n, i requires 0 <= i < n => Placeholder(i + 1))
  }

  /** `columns[index]` in a template literal: "undefined" past the end. */
  function ColumnAt(cols: seq<string>, i: nat): string
  {
    if i < |cols| then cols[i] else "undefined"
  }

  /** `values.map((_, index) => `${columns[index]}=$${index + 1}`)`. */
  function UpdatePairs(cols: seq<string>, n: nat): (r: seq<string>)
    ensures |r| == n
    ensures forall i :: 0 <= i < n ==> r[i] == ColumnAt(cols, i) + "=" + Placeholder(i + 1)
  {
    seq(n, i requires 0 <= i < n => ColumnAt(cols, i) + "=" + Placeholder(i + 1))
  }

  /** A where descriptor takes effect in `prepare` when it has a truthy `sql`
      and a `values` list. */
  predicate WhereApplies(where: Option<Where>)
  {
    where.Some? && where.value.sql != "" && where.value.values.Some?
  }

  /** The text `#{where}` becomes. */
  function WhereClause(where: Option<Where>): string
  {
    if WhereApplies(where) then " WHERE " + where.value.sql else ""
  }

  /** How many parameters a where descriptor appends to the stored values. */
  function WhereValueCount(where: Option<Where>): nat
  {
    if WhereApplies(where) then |where.value.values.value| else 0
  }

  /** The column list `prepare` uses: the argument, or by default the
      constructor's columns. */
  function EffectiveColumns(cols: Option<seq<string>>, defaults: seq<string>): seq<string>
  {
    if cols.Some? then cols.value else defaults
  }

  /** The replacement chain of `prepare` before the space collapse:
      `#{tableName}` everywhere, then the first occurrence of each other
      token in turn. */
  function Substituted(template: string, tableName: string, cols: seq<string>, valueCount: nat,
                       whereText: string, idnum: nat): string
  {
    FillTokens(ReplaceAll(template, TableToken, tableName), cols, valueCount, whereText, idnum)
  }

  /** The first-occurrence replacements that follow the table name. */
  function FillTokens(s1: string, cols: seq<string>, valueCount: nat, whereText: string, idnum: nat): string
  {
    LaterTokens(ReplaceFirst(s1, ColumnsToken, Join(cols, ",")), cols, valueCount, whereText, idnum)
  }

  /** The replacements that follow `#{columns}`. */
  function LaterTokens(s2: string, cols: seq<string>, valueCount: nat, whereText: string, idnum: nat): string
  {
    var s3 := ReplaceFirst(s2, ValuesToken, Join(ValuePlaceholders(valueCount), ","));
    var s4 := ReplaceFirst(s3, UpdateToken, Join(UpdatePairs(cols, valueCount), ","));
    var s5 := ReplaceFirst(s4, WhereToken, whereText);
    ReplaceFirst(s5, IdnumToken, Placeholder(idnum))
  }

  /** The text `prepare(template, vals, cols, where)` stores, on a query for
      `tableName` whose constructor columns are `defaultColumns` and whose
      previously stored values number `prevCount`: `#{idnum}` counts those
      values and the where parameters appended to them. */
  function Prepared(tableName: string, defaultColumns: seq<string>, prevCount: nat, template: string,
                    valueCount: nat, cols: Option<seq<string>>, where: Option<Where>): string
  {
    CollapseSpace(Substituted(template, tableName, EffectiveColumns(cols, defaultColumns), valueCount,
                              WhereClause(where), prevCount + WhereValueCount(where)))
  }

  /** The guard of `update`: a non-empty column list whose length differs
      from the number of values. */
  predicate UpdateMismatch(vals: seq<Value>, cols: Option<seq<string>>)
  {
    cols.Some? && |cols.value| > 0 && |vals| != |cols.value|
  }

  // ---------------------------------------------------------------------
  // what the rendered statements read
  // ---------------------------------------------------------------------

  /** Text without `#` and without spaces (a bare identifier or literal). */
  predicate Plain(s: string)
  {
    '#' !in s && ' ' !in s
  }

  predicate Ident(s: string)
  {
    s != "" && Plain(s)
  }

  predicate AllPlain(ss: seq<string>)
  {
    forall i :: 0 <= i < |ss| ==> Plain(ss[i])
  }

  predicate AllHashFree(ss: seq<string>)
  {
    forall i :: 0 <= i < |ss| ==> HashFree(ss[i])
  }

  /** A condition with its first `#{idnum}` turned into the parameter
      `$idnum`. */
  function Numbered(sql: string, idnum: nat): string
  {
    ReplaceFirst(sql, IdnumToken, Placeholder(idnum))
  }

  /** What `#{where}` and then `#{idnum}` leave in place of `#{where}`. */
  function WhereText(where: Option<Where>, idnum: nat): string
  {
    if WhereApplies(where) then " WHERE " + Numbered(where.value.sql, idnum) else ""
  }

  /** What follows the last name of a statement that ends in ` #{where}`:
      ` WHERE <condition>` (the double space collapsed), or the single
      space the template leaves. */
  function RenderedWhere(where: Option<Where>, idnum: nat): string
  {
    if WhereApplies(where) then " WHERE " + Numbered(where.value.sql, idnum) else " "
  }

  /** The where text of `select` once `#{idnum}` is resolved. */
  function SelectWhereText(where: Option<Where>, idnum: nat): string
  {
    if where.Some? && where.value.sql != "" then " WHERE " + Numbered(where.value.sql, idnum) else ""
  }

  /** `#{idnum}` occurs at index `k` of a condition and the condition has no
      other `#`. */
  predicate IdnumAt(sql: string, k: nat)
  {
    k + |IdnumToken| <= |sql| && sql[k..k + |IdnumToken|] == IdnumToken
    && HashFree(sql[..k]) && HashFree(sql[k + |IdnumToken|..])
  }

  /** The conditions the select rendering covers: none, one without `#`,
      or one with a single `#{idnum}` and no other `#`. */
  predicate SelectConditionShape(where: Option<Where>)
  {
    where.None? || HashFree(where.value.sql) || exists k: nat :: k < |where.value.sql| && IdnumAt(where.value.sql, k)
  }
}
