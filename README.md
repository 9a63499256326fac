# pg-models-v2 in Dafny

A model of the core of pg-models-v2. This TypeScript library describes a
PostgreSQL table with the following classes:

- a `Table` of `Column`s, with options merged over defaults by `Options`;
- a `Query` that turns SQL templates with `#{…}` tokens into parameterised
  statement text and a list of values;
- a `Model` that runs create, update and destroy actions between
  user-supplied before and after hooks.

The model follows the code as written. It keeps the source's classes as
Dafny classes: `Query` (statement text and values, updated by each builder),
`Column`, `Table` (name, column list, timestamp names and statement builder)
and `Model` (six hook slots). Each method's contract states every field it
changes and what it changes it to. Pure helpers become functions, and lemmas
prove what they mean.

Modules:

- `JsValue` (js_value.dfy) models the JavaScript values the library inspects:
  - truthiness and `typeof`;
  - `isObject` and `callIfFunction` from src/utils.ts;
  - own entries and property reads;
  - the first-error rule of a chain of calls that may throw.
- `Text` (text.dfy) models the string built-ins the library relies on:
  - `Array.prototype.join`;
  - `String.prototype.split` on a one-character separator;
  - `replace` on a string pattern (first occurrence);
  - `replace` on a global pattern (every occurrence);
  - decimal numerals.

  It also proves the lemmas that walk a replacement through a template.
- `Options` (options.dfy) models the shallow merge of an input object over
  defaults.
- `QueryText` (query_text.dfy) holds the statement templates, the texts that
  fill their tokens, and `Prepared`, the text `prepare` stores.
- `QueryRendering` (rendering.dfy) holds the lemmas that resolve `Prepared` on
  each builder's template. For names without `#` they give the template with
  its tokens filled, after the single `replace('  ', ' ')`. For names without
  spaces they give the exact statement.
- `QueryBuilder` (query.dfy) holds class `Query`, with `prepare` and every
  builder.
- `Columns` (column.dfy) holds class `Column`.
- `TableOptions` (table_options.dfy) models the table configuration object and
  its defaults.
- `TableInputs` (table_inputs.dfy) models the list and input shaping `Table`
  does before it builds a statement.
- `Tables` (table.dfy) holds class `Table`.
- `Models` (model.dfy) holds class `Model` and the hook order.

Some behaviour is kept on purpose because the code does it:

- `nameInTable` is read from the template before `@name` is replaced. So the
  primary key column and the timestamp columns, whose templates start with
  `@name `, are named `@name` in the table. The contracts and lemmas state
  this outcome rather than the column names.
- `update` numbers its key parameter after the values the previous statement
  left.
- `update` and `delete` statements keep the space the template leaves before
  an absent where clause.

A thrown error is modelled as an `Outcome` (`Pass`/`Fail(message)`) or a
`Result` (`Ok`/`Err`). The error text is the source's.

## Model

| member | source | states |
|---|---|---|
| JsValue.IsObject | src/utils.ts:5 | true exactly for objects and arrays; `null` is not an object |
| JsValue.CallIfFunction | src/utils.ts:1-3 | a function is handed back, anything else gives undefined |
| JsValue.FirstErrorMeaning | src/classes/Column.class.ts:48-50 | a chain of calls passes iff every call passes; a failing chain fails with the first failing call, and every call before it passed |
| JsValue.FirstErrorNext | src/classes/Column.class.ts:48-50 | while every earlier call passed, the verdict of one more call is that call's own |
| JsValue.FirstErrorStops | src/classes/Column.class.ts:48-50 | once a prefix of the chain has failed, the calls after it do not change the verdict |
| Options.Config | src/classes/Options.class.ts:9-15 | a falsy input yields the defaults; otherwise the keys are those of both objects, the input's value wins, the defaults fill the rest, and an empty input yields the defaults |
| Options.NewOptions | src/classes/Options.class.ts:9-22 | the `config` getter hands back the merge: a falsy input gives the defaults; otherwise the keys of both objects, each input key with the input's value and each other key with the default's value |
| QueryText.ReturningClause | src/classes/Query.class.ts:107-122 | accepted iff the argument is '*', a string holding a comma, or a non-empty array; then the clause is ` RETURNING ` and the columns; otherwise the RETURNING error |
| QueryRendering.ValuePlaceholdersSplit | src/classes/Query.class.ts:74 | the comma-joined `#{values}` list splits back into exactly its placeholders, one per value |
| QueryRendering.ValuePlaceholdersDistinct | src/classes/Query.class.ts:74 | the placeholders of `#{values}` name pairwise different parameters, so each value is bound once |
| QueryRendering.UpdatePairsSplit | src/classes/Query.class.ts:75-77 | when no column name holds a comma, the comma-joined `#{updateValues}` list splits back into exactly one `column=$i` pair per value |
| QueryRendering.InsertRendering | src/classes/Query.class.ts:191-195 | for names without `#`, insert gives `INSERT INTO t (cols) VALUES ($1,…,$n)`, with the double space collapsed |
| QueryRendering.InsertText | src/classes/Query.class.ts:191-195 | for plain names, that insert statement exactly |
| QueryRendering.TableWhereText | src/classes/Query.class.ts:68-100 | a template `<pre>#{tableName} #{where}` gives the table name, a space, then the where clause with its first `#{idnum}` numbered after every stored value |
| QueryRendering.CollapseWhere | src/classes/Query.class.ts:96 | the template's space before the where clause merges with the clause's own leading space; without a clause the trailing space stays |
| QueryRendering.DeleteText | src/classes/Query.class.ts:252-256 | delete gives `DELETE FROM t` then the where text, exactly, for a plain table name |
| QueryRendering.AggregateTemplate | src/classes/Query.class.ts:129-156 | filling `#{column}` first leaves the rest of the aggregate template unchanged |
| QueryRendering.AggregateRendering | src/classes/Query.class.ts:129-156 | count and sum give `SELECT FN(col) FROM t` then the where text, exactly, for plain names |
| QueryRendering.UpdateRendering | src/classes/Query.class.ts:230-245 | for names without `#`, update gives `UPDATE t SET c1=$1,…` then the where text, with the double space collapsed |
| QueryRendering.UpdateText | src/classes/Query.class.ts:230-245 | for plain names and at least one value, the exact update statement; columns past the end of the list read `undefined` |
| QueryRendering.LimitOffsetClauses | src/classes/Query.class.ts:206-212 | the three-way LIMIT/OFFSET test amounts to a LIMIT clause iff the limit is truthy, then an OFFSET clause iff the offset is truthy |
| QueryRendering.SelectRendering | src/classes/Query.class.ts:202-221 | select gives the columns, the table, LIMIT/OFFSET and the where condition with its parameter numbered, in that order |
| QueryRendering.SelectStatement | src/classes/Query.class.ts:202-221 | the same select statement, read left to right as `SELECT cols FROM t…` |
| QueryRendering.TableOnlyText | src/classes/Query.class.ts:262-329 | a template whose only token is one `#{tableName}` gets the table name in its place and nothing else changes |
| QueryRendering.ForeignKeyRendering | src/classes/Query.class.ts:336-356 | foreignKey puts the table name in both its places, as the altered table and as the prefix of the constraint name |
| QueryBuilder.Query.constructor | src/classes/Query.class.ts:14-17 | stores the table name and the columns; no statement or values yet |
| QueryBuilder.Query.Prepare | src/classes/Query.class.ts:68-100 | the stored text is `Prepared(...)` of the template, with `#{idnum}` counting the previous values plus the where values; the stored values become exactly the given ones |
| QueryBuilder.Query.Returning | src/classes/Query.class.ts:107-122 | appends the RETURNING clause, or fails and changes nothing; the values are unchanged |
| QueryBuilder.Query.Count | src/classes/Query.class.ts:129-139 | counts `*` unless a column other than '' or '*' is given; for plain names the exact `SELECT COUNT(col) FROM t` statement with the where text |
| QueryBuilder.Query.Sum | src/classes/Query.class.ts:147-156 | an empty column is refused and nothing changes; otherwise the exact `SELECT SUM(col) FROM t` statement for plain names |
| QueryBuilder.Query.OrderBy | src/classes/Query.class.ts:163-170 | appends ` ORDER BY ` and the columns; the values are unchanged |
| QueryBuilder.Query.GroupBy | src/classes/Query.class.ts:177-184 | appends ` GROUP BY ` and the columns; the values are unchanged |
| QueryBuilder.Query.Insert | src/classes/Query.class.ts:191-195 | the stored values are the given ones; the exact insert statement for plain names |
| QueryBuilder.Query.Select | src/classes/Query.class.ts:202-221 | no stored values; the select statement in column, table, paging, where order |
| QueryBuilder.Query.Update | src/classes/Query.class.ts:230-245 | a non-empty column list of another length is refused and nothing changes; otherwise the values are the given ones and the exact update statement for plain names |
| QueryBuilder.Query.Delete | src/classes/Query.class.ts:252-256 | no stored values; the exact delete statement for a plain table name |
| QueryBuilder.Query.TableExists | src/classes/Query.class.ts:262-266 | the information_schema tables lookup for the table name |
| QueryBuilder.Query.ColumnExists | src/classes/Query.class.ts:274-278 | the information_schema columns lookup for the table, the column name and the data type |
| QueryBuilder.Query.ConstraintExists | src/classes/Query.class.ts:285-289 | the constraint lookup for the table and the constraint name |
| QueryBuilder.Query.CreateTable | src/classes/Query.class.ts:296-299 | `CREATE TABLE IF NOT EXISTS t (schema)` |
| QueryBuilder.Query.AddColumns | src/classes/Query.class.ts:306-310 | `ALTER TABLE t` then, for each schema in order, one `ADD COLUMN <schema>` clause, the clauses separated by ', ' |
| QueryBuilder.Query.DropTable | src/classes/Query.class.ts:316-319 | `DROP TABLE IF EXISTS t` |
| QueryBuilder.Query.DropColumn | src/classes/Query.class.ts:326-329 | the ALTER TABLE … DROP COLUMN statement for the name |
| QueryBuilder.Query.ForeignKey | src/classes/Query.class.ts:336-356 | the ADD CONSTRAINT … FOREIGN KEY statement with the table name in both places |
| Columns.NameInTable | src/classes/Column.class.ts:16 | the name in the table is one of the template's space-separated tokens, or the column name; it is empty only for an empty column name; a non-empty template without spaces is itself the name |
| Columns.DataType | src/classes/Column.class.ts:33-35 | there is a data type iff the definition holds a space |
| Columns.NameInTableFirstToken | src/classes/Column.class.ts:16 | a non-empty first token, such as `id` in `id serial`, is the name in the table |
| Columns.NameInTableFallback | src/classes/Column.class.ts:16 | a template that is empty or starts with a space falls back on the column name |
| Columns.FillName | src/classes/Column.class.ts:15 | filling `@name <rest>` gives `<name> <rest>` |
| Columns.NameInTablePlaceholder | src/classes/Column.class.ts:15-16 | a template starting with `@name ` gives the name in the table `@name`, whatever the column is called |
| Columns.DataTypeSecondToken | src/classes/Column.class.ts:33-35 | for `<name> <type> <rest>` the data type is `<type>` |
| Columns.DataTypeLastToken | src/classes/Column.class.ts:33-35 | for `<name> <type>` the data type is `<type>` |
| Columns.Column.constructor | src/classes/Column.class.ts:8-19 | the definition is the template with its first `@name` replaced by the name; the name in the table is read from the raw template; an omitted formatter is replaced by the default `val => {}` |
| Columns.Column.SetName | src/classes/Column.class.ts:25-27 | only the name changes |
| Columns.Column.DataTypeOf | src/classes/Column.class.ts:33-35 | there is a data type iff the definition holds a space |
| Columns.Installed | src/classes/Column.class.ts:12-18 | a column keeps no formatter exactly when a falsy one was passed; a passed function is kept as is, and an omitted one becomes the default |
| Columns.Column.Format | src/classes/Column.class.ts:41-46 | a column with a formatter applies it once to the value; one without returns the value unchanged |
| Columns.FormatByArgument | src/classes/Column.class.ts:41-46 | by the constructor argument: an omitted formatter makes `format` give undefined for every value, a falsy one leaves the value unchanged, a given function gives its value |
| Columns.Column.RunValidations | src/classes/Column.class.ts:48-50 | the validators run in order on the value, the column name and all inputs; the first error is passed on |
| TableOptions.TableConfig | src/classes/Table.class.ts:25-35 | the merged configuration is complete and typed, every given setting wins, and the defaults fill the rest |
| TableOptions.DefaultSettings | src/classes/Table.class.ts:26-35 | no options, or an empty object, give no prefix, an `id serial` key, no timestamps and no paranoid deletion |
| TableInputs.Without | src/classes/Table.class.ts:349 | a name is kept iff it is in the list and not among those dropped |
| TableInputs.WithoutAppend | src/classes/Table.class.ts:349 | filtering a joined list is joining the filtered parts, and one name stays as it is or goes; so the kept names keep their order and their repeats |
| TableInputs.Requested | src/classes/Table.class.ts:128-136 | a name is kept iff it is in the table, requested and not empty (`find` returns the name, so an empty one is falsy) |
| TableInputs.RequestedAppend | src/classes/Table.class.ts:128-136 | the same for the requested columns: the kept names keep the table's order and repeats, one name at a time |
| TableInputs.RequestedAll | src/classes/Table.class.ts:128-136 | requesting every non-empty name keeps the whole list, in order |
| TableInputs.SelectDefaultPaging | src/classes/Table.class.ts:36 | without a limit, and with no offset or offset 0, select pages by ` LIMIT 1000` |
| TableInputs.Arranged | src/classes/Table.class.ts:384-388 | no value is undefined; there is one value per column name iff every name has a defined input, and then the values line up with the names |
| TableInputs.ArrangedAppend | src/classes/Table.class.ts:384-388 | arranging a joined list of names is joining the arranged parts, and one name gives its input when defined and nothing otherwise; so the values follow the column order even when some inputs are missing |
| TableInputs.ArrangedAgree | src/classes/Table.class.ts:384-388 | inputs that agree on every column name are arranged the same way |
| Tables.PkColumnDefinition | src/classes/Table.class.ts:316-317 | the key is defined as `<pkName> <pkType> NOT NULL PRIMARY KEY`, and its name in the table is `@name` |
| Tables.PkConditionNumbered | src/classes/Table.class.ts:175 | the key condition's `#{idnum}` becomes the parameter it numbers |
| Tables.PkDeleteConditionNumbered | src/classes/Table.class.ts:200 | the plain delete condition has nothing to number |
| Tables.TimestampSqls | src/classes/Table.class.ts:287-290 | the two appended timestamp columns are defined as `<name> timestamp default now()` |
| Tables.DeletedAtSql | src/classes/Table.class.ts:303-308 | the appended deletion mark is defined as `<name> timestamp` |
| Tables.PkWhereText | src/classes/Table.class.ts:174-177 | the key condition of update reads ` WHERE <pkName>=$n`, with n one past the values the previous statement left |
| Tables.PkDeleteWhereText | src/classes/Table.class.ts:199-202 | the key condition of plain delete reads ` WHERE <pkName>=$1` |
| Tables.DeletedAtPair | src/classes/Table.class.ts:194 | paranoid deletion's one assignment reads `deleted_at=$1` |
| Tables.FindColumn | src/classes/Table.class.ts:330-332 | the first column with that name, or none when no column has it |
| Tables.Table.ColumnNames | src/classes/Table.class.ts:339-353 | with timestamps, every name in the table in order; without, the names in the table with the timestamp names filtered out (`Without`), order and repeats kept |
| Tables.Table.constructor | src/classes/Table.class.ts:25-40 | the merged configuration; the prefixed name; the key column and then one column per entry; a statement builder for the unprefixed name and the names without timestamps |
| Tables.Table.SetName | src/classes/Table.class.ts:81-84 | the name becomes the prefix followed by the given name; nothing else changes |
| Tables.Table.SetColumns | src/classes/Table.class.ts:315-323 | the key column and then one new column per entry; a new statement builder for the current name and the names as they were before |
| Tables.Table.GetColumn | src/classes/Table.class.ts:330-332 | the first column with that name, or none when no column has it |
| Tables.Table.GetValidInputs | src/classes/Table.class.ts:361-377 | a non-object is refused with INVALID_INPUT; otherwise exactly the entries named by a column (without timestamps) are kept; with `nulls`, every such name gets its input when truthy and `null` when not |
| Tables.Table.InputsArrangedAsColumns | src/classes/Table.class.ts:384-388 | the defined inputs in column-name order (`Arranged` of the names without timestamps); one value per column name iff every name has a defined input |
| Tables.Table.ValidInputsArranged | src/classes/Table.class.ts:148-149 | filtering the inputs by column name loses nothing the arrangement uses |
| Tables.Table.AddTimestamps | src/classes/Table.class.ts:281-291 | a timestamps object replaces the timestamp names; a created and an updated column are appended, everything before kept |
| Tables.Table.SetParanoid | src/classes/Table.class.ts:296-309 | refused with NO_TIMESTAMPS when timestamps are off; otherwise the deletion mark column is appended |
| Tables.Table.AddConfiguredColumns | src/classes/Table.class.ts:107-113 | paranoid-without-timestamps is refused before anything changes; otherwise the existing columns stay as they were and new `createdAt`, `updatedAt` and `deletedAt` columns are appended as configured, each defined by its template with no validators and the default formatter |
| Tables.Table.Create | src/classes/Table.class.ts:107-117 | the columns added as `AddConfiguredColumns` states (existing ones kept, new ones fully defined); a timestamps object in the configuration replaces the timestamp names, which stay otherwise; then the CREATE TABLE statement over every definition joined by commas |
| Tables.Table.SelectedColumns | src/classes/Table.class.ts:126-136 | every name in the table, or, when columns are requested, the table's names filtered to the non-empty requested ones (`Requested`), in table order |
| Tables.Table.Select | src/classes/Table.class.ts:124-141 | the select over the selected columns, paged by the options merged over the find defaults |
| Tables.Table.Insert | src/classes/Table.class.ts:148-153 | a non-object is refused; otherwise the values are the defined inputs in column order, and the exact insert statement for plain names |
| Tables.Table.Update | src/classes/Table.class.ts:172-180 | a non-object is refused; so is any input that leaves a column name undefined (values and names must match); otherwise the exact update by key |
| Tables.Table.Delete | src/classes/Table.class.ts:187-206 | a key of type "object" (null included) is refused; paranoid tables set `deleted_at` to `now()` by key; others delete by key as `$1` |
| Tables.Table.MarkDeleted | src/classes/Table.class.ts:193-197 | paranoid deletion: the only value is `now()`, and for plain names the exact `UPDATE t SET deleted_at=$1 WHERE <pkName>=$n` statement, n one past the values the previous statement left |
| Tables.Table.DeleteRow | src/classes/Table.class.ts:198-203 | plain deletion: no stored values, and for plain names the exact `DELETE FROM t WHERE <pkName>=$1` statement |
| Tables.Table.RunValidations | src/classes/Table.class.ts:394-398 | null or undefined inputs make the first column's property read throw a TypeError; otherwise each column's validators run in column order on the input under its name, and the first error is passed on |
| Models.HookSlot | src/classes/Model.class.ts:63-88 | a slot exists iff the name is one of the six hook types, and it is that type's place |
| Models.Hooked | src/classes/Model.class.ts:104-142 | steps in the order before, action, after; the before hook runs iff set; the action iff the before hook did not throw; the after hook iff the action resolved and a hook is set; a success is the action's own result; when the action resolved and no after hook throws, the result is the action's; a throwing after hook's error is the result |
| Models.PkeyCheck | src/classes/Model.class.ts:21-27 | fails iff a `uuid` key is not a string or a `serial` key is not a number, with the matching message |
| Models.Model.constructor | src/classes/Model.class.ts:13-15 | a table with only the key column, the merged configuration and the default timestamp names, and a new statement builder for the unprefixed name and the names without timestamps, with no statement or values; every hook slot empty |
| Models.Model.BeforeCreate | src/classes/Model.class.ts:39-41 | only the beforeCreate slot changes |
| Models.Model.AfterCreate | src/classes/Model.class.ts:43-45 | only the afterCreate slot changes |
| Models.Model.BeforeUpdate | src/classes/Model.class.ts:47-49 | only the beforeUpdate slot changes |
| Models.Model.AfterUpdate | src/classes/Model.class.ts:51-53 | only the afterUpdate slot changes |
| Models.Model.BeforeDestroy | src/classes/Model.class.ts:55-57 | only the beforeDestroy slot changes |
| Models.Model.AfterDestroy | src/classes/Model.class.ts:59-61 | only the afterDestroy slot changes |
| Models.Model.UseHook | src/classes/Model.class.ts:63-88 | a known type sets exactly its slot; an unknown one is refused with INVALID_HOOK_TYPE and no slot changes |
| Models.Model.RunWithHooks | src/classes/Model.class.ts:104-142 | an unknown operation is refused before any step; otherwise the operation's hooks surround the action as `Hooked` says, given the column names with timestamps |
| Models.Model.Create | src/classes/Model.class.ts:169-173 | the insert between the create hooks, which see the data |
| Models.Model.CreateMany | src/classes/Model.class.ts:175-179 | the inserts between the create hooks, which see the whole list |
| Models.Model.Update | src/classes/Model.class.ts:181-185 | the update between the update hooks |
| Models.Model.UpdateByPk | src/classes/Model.class.ts:187-191 | the key is not checked; the update between the update hooks |
| Models.Model.Patch | src/classes/Model.class.ts:196-200 | the update between the update hooks |
| Models.Model.PatchByPk | src/classes/Model.class.ts:202-207 | a key of the wrong type is refused before any hook or action; otherwise the update between the update hooks |
| Models.Model.Destroy | src/classes/Model.class.ts:212-216 | the delete between the destroy hooks |
| Models.Model.DestroyByPk | src/classes/Model.class.ts:218-223 | a key of the wrong type is refused before any hook or action; otherwise the delete between the destroy hooks, which see the key |

## Left out

- Database access is not modelled. This covers `Query.run`, `Query.log`, the
  client setters, `Table.run`, `exists`, `columnExists`, `contraintExists`,
  `drop`, `alter` and the column check in `addForeignKey`. These are network
  calls: the model stops at the statement text and values handed to the
  client.
- `Table.insertMany` is left out because it runs concurrent inserts. The
  `Model.createMany` action is a parameter instead.
- The Model wrappers `findAll`, `findAllWhere`, `findOne`, `findByPk`, `define`
  and `addForeignKey` are left out. They only forward to database calls.
- Hooks receive the database client as their first argument. The model leaves
  it out, because it is I/O.
- Hooks, validators, formatters and actions are caller code. A hook or
  validator is modelled by the outcome it gives for its arguments, an action
  by the result it resolves to, and a formatter by the function it applies.
  Asynchrony is not modelled.
- JavaScript's special `$` patterns in `replace` replacement strings are not
  modelled: the replacement text is taken literally.
- Numbers are integers. Floating-point keys and inputs are not modelled.
- An explicitly `undefined` configuration field counts as absent. In the
  source such a field overrides the default and, for a prefix, would render
  as "undefined".
- TableInputs.MergeFind: an explicitly `undefined` find option (`offset`,
  `limit`, `columns` or `where` passed to `select`) counts as absent, so the
  default fills it. In the source the spread copies `undefined` over the
  default: `select({limit: undefined})` has no LIMIT clause, where the model
  gives ` LIMIT 1000`.
- A timestamps object must name all three columns. Partial objects are not
  modelled.
- `Object.entries` order for integer-like keys is not modelled: inputs are
  maps.
- QueryBuilder.Query.Select: the exact select text is stated only after the
  single double-space collapse (`CollapseSpace`). The same holds for the
  catalog lookups (`TableExists`, `ColumnExists`, `ConstraintExists`,
  `CreateTable`, `AddColumns`, `DropTable`, `DropColumn`, `ForeignKey`).
- QueryBuilder.Query.Update: the exact text is stated for at least one value.
  With no values the statement is still `Prepared(...)`, but its spelled-out
  form is not given.
- QueryRendering.SelectRendering covers conditions with at most one
  `#{idnum}` and no other `#`. Other conditions are stated only as `Prepared`.
- Tables.Table.RunValidations: the TypeError text follows Node.js's wording for
  a property read on null or undefined. Reading a numeric-looking property of a
  string input is not modelled: the property read gives undefined.
- Tables.Table.InputsArrangedAsColumns: null or undefined inputs would throw
  on the first property read; the model reads undefined and gives no values.
  Its callers pass the filtered inputs, which are always an object.
- Tables.Table.constructor: the statement builder that `setColumns` makes
  inside the constructor is discarded by the source. Its state is not stated
  beyond the builder the constructor keeps.
