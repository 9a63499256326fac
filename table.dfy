/** A database table (src/classes/Table.class.ts): its configuration, its
    prefixed name, its columns, the timestamp column names and the `Query`
    it builds its statements with. `create`, `select`, `insert`, `update`
    and `delete` are modelled up to the statement they leave in that query;
    running it against the database is not part of this model. */
module Tables {
  import opened JsValue
  import opened Text
  import opened QueryText
  import opened QueryRendering
  import opened QueryBuilder
  import opened Columns
  import opened TableOptions
  import opened TableInputs

  /** One entry of the `columns` object: its key and its configuration. */
  datatype ColumnSpec = ColumnSpec(key: string, sql: string, validations: seq<Validator>, formatter: FormatterArg)

  const InvalidInputError: string := "INVALID_INPUT: Inputs must be an object"
  const NoTimestampsError: string := "NO_TIMESTAMPS: Please set timestamps before setting paranoid"
  const NotImplementedError: string := "Not implemented yet"

  /** The type of `createdAt` and `updatedAt`. */
  const TimestampType: string := "timestamp default now()"
  /** The definition of `createdAt` and `updatedAt`: `@name timestamp default now()`. */
  const TimestampTemplate: string := NamePlaceholder + " " + TimestampType
  /** The type of `deletedAt`. */
  const DeletedAtType: string := "timestamp"
  /** The definition of `deletedAt`: `@name timestamp`. */
  const DeletedAtTemplate: string := NamePlaceholder + " " + DeletedAtType

  /** The primary key's definition. */
  function PkTemplate(pkType: string): string
  {
    NamePlaceholder + " " + (pkType + " NOT NULL PRIMARY KEY")
  }

  /** The condition `update` and paranoid `delete` select one row by. */
  function PkCondition(pkName: string): string
  {
    pkName + "=" + IdnumToken
  }

  /** The condition plain `delete` selects one row by. */
  function PkDeleteCondition(pkName: string): string
  {
    pkName + "=$1"
  }

  /** The column `c` is what `new Column(colName, template, validations,
      formatter)` builds. */
  ghost predicate Defines(c: Column, colName: string, template: string, validations: seq<Validator>, formatter: FormatterArg)
    reads c
  {
    c.name == colName && c.sql == ReplaceFirst(template, NamePlaceholder, colName)
    && c.nameInTable == NameInTable(template, colName)
    && c.validations == validations && c.formatter == Installed(formatter)
  }

  /** The column names in table order. */
  function NamesInTable(cols: seq<Column>): seq<string>
  {
    seq(|cols|, i requires 0 <= i < |cols| => cols[i].nameInTable)
  }

  /** The column definitions in table order. */
  function Sqls(cols: seq<Column>): seq<string>
  {
    seq(|cols|, i requires 0 <= i < |cols| => cols[i].sql)
  }

  /** A primary key named `pkName` of type `pkType` is defined as
      `<pkName> <pkType> NOT NULL PRIMARY KEY`; its name in the table is the
      template's `@name`. */
  lemma PkColumnDefinition(pkName: string, pkType: string)
    ensures ReplaceFirst(PkTemplate(pkType), NamePlaceholder, pkName) == pkName + " " + pkType + " NOT NULL PRIMARY KEY"
    ensures NameInTable(PkTemplate(pkType), pkName) == NamePlaceholder
  {
    var rest := pkType + " NOT NULL PRIMARY KEY";
    FillName(pkName, rest);
    NameInTablePlaceholder(rest, pkName);
  }

  /** `#{idnum}` in the key condition becomes the parameter it numbers. */
  lemma PkConditionNumbered(pkName: string, idnum: nat)
    requires HashFree(pkName)
    ensures Numbered(PkCondition(pkName), idnum) == pkName + "=" + Placeholder(idnum)
  {
    assert PkCondition(pkName) == (pkName + "=") + IdnumToken;
    FirstPastText(pkName + "=", IdnumToken, IdnumToken, Placeholder(idnum));
    FirstAtLast(IdnumToken, Placeholder(idnum));
  }

  /** The plain delete condition has no token to number. */
  lemma PkDeleteConditionNumbered(pkName: string, idnum: nat)
    requires HashFree(pkName)
    ensures Numbered(PkDeleteCondition(pkName), idnum) == PkDeleteCondition(pkName)
  {
    FirstNoToken(PkDeleteCondition(pkName), IdnumToken, Placeholder(idnum));
  }

  class Table {
    const config: map<string, Setting>
    var name: string
    var columns: seq<Column>
    var stampNames: StampNames
    var crudQuery: Query

    /** The configuration has every setting, of its declared type. */
    predicate Valid()
    {
      Typed(config) && Complete(config)
    }

    /** The timestamp names `getColumnNames` leaves out: those the
        configuration names, or else the table's own. */
    function StampsToSkip(): seq<string>
      reads this
      requires Valid()
    {
      if StampsNamed(config) then StampList(config["timestamps"].names) else StampList(stampNames)
    }

    /** `getColumnNames(includeTimestamps)`: the names in the table, in
        order; without timestamps every timestamp name is dropped and every
        other name kept. */
    function ColumnNames(includeTimestamps: bool): (r: seq<string>)
      reads this
      requires Valid()
      ensures |r| <= |columns|
      ensures includeTimestamps ==> r == NamesInTable(columns)
      ensures !includeTimestamps ==>
        forall x :: x in r <==> x in NamesInTable(columns) && x !in StampsToSkip()
      ensures !includeTimestamps ==> r == Without(NamesInTable(columns), StampsToSkip())
    {
      if includeTimestamps then NamesInTable(columns) else Without(NamesInTable(columns), StampsToSkip())
    }

    /** The columns are the primary key followed by one column per entry
        of `specs`, in order. */
    ghost predicate Layout(specs: seq<ColumnSpec>)
      reads this, columns
      requires Valid()
    {
      |columns| == |specs| + 1
      && Defines(columns[0], PkName(config), PkTemplate(PkType(config)), [], DefaultFormatter)
      && forall i :: 0 <= i < |specs| ==>
        Defines(columns[i + 1], specs[i].key, specs[i].sql, specs[i].validations, specs[i].formatter)
    }

    /** `new Table(tableName, columns, options)`: the options are merged
        over the defaults, the name is prefixed, the columns are set, and
        the statement builder is made for the unprefixed name and the
        column names without timestamps. */
    constructor (tableName: string, specs: seq<ColumnSpec>, input: Option<map<string, Setting>>)
      requires input.Some? ==> Typed(input.value)
      ensures Valid() && config == TableConfig(input)
      ensures name == Prefix(config) + tableName && stampNames == DefaultStampNames
      ensures Layout(specs)
      ensures fresh(crudQuery) && crudQuery.tableName == tableName && crudQuery.columns == ColumnNames(false)
      ensures crudQuery.query == "" && crudQuery.values == []
    {
      config := TableConfig(input);
      name := Prefix(TableConfig(input)) + tableName;
      columns := [];
      stampNames := DefaultStampNames;
      crudQuery := new Query(Prefix(TableConfig(input)) + tableName, []);
      new;
      SetColumns(specs);
      crudQuery := new Query(tableName, ColumnNames(false));
    }

    /** The `name` setter: the prefix followed by the name. */
    method SetName(newName: string)
      requires Valid()
      modifies this
      ensures name == Prefix(config) + newName
      ensures columns == old(columns) && stampNames == old(stampNames) && crudQuery == old(crudQuery)
    {
      name := Prefix(config) + newName;
    }

    /** `setColumns(columns)`: the primary key column from `pkName` and
        `pkType`, then one new column per entry. The statement builder is
        remade for the prefixed name from the column names as they were
        before the new columns are set. */
    method SetColumns(specs: seq<ColumnSpec>)
      requires Valid()
      modifies this
      ensures name == old(name) && stampNames == old(stampNames)
      ensures Layout(specs)
      ensures forall i :: 0 <= i < |columns| ==> fresh(columns[i])
      ensures fresh(crudQuery) && crudQuery.tableName == name && crudQuery.columns == old(ColumnNames(false))
      ensures crudQuery.query == "" && crudQuery.values == []
    {
      var pkCol := new Column(PkName(config), PkTemplate(PkType(config)), [], DefaultFormatter);
      var built: seq<Column> := [];
      var i := 0;
      while i < |specs|
        invariant 0 <= i <= |specs| && |built| == i
        invariant fresh(pkCol) && Defines(pkCol, PkName(config), PkTemplate(PkType(config)), [], DefaultFormatter)
        invariant forall j :: 0 <= j < i ==> (fresh(built[j])
          && Defines(built[j], specs[j].key, specs[j].sql, specs[j].validations, specs[j].formatter))
        invariant name == old(name) && stampNames == old(stampNames) && columns == old(columns)
      {
        var col := new Column(specs[i].key, specs[i].sql, specs[i].validations, specs[i].formatter);
        built := built + [col];
        i := i + 1;
      }
      crudQuery := new Query(name, ColumnNames(false));
      columns := [pkCol] + built;
    }

    /** `getColumn(colName)`: the first column with that name, or none. */
    function GetColumn(colName: string): (r: Option<Column>)
      reads this, columns
      ensures r.Some? ==> exists i :: (0 <= i < |columns| && columns[i] == r.value && r.value.name == colName
        && forall j :: 0 <= j < i ==> columns[j].name != colName)
      ensures r.None? ==> forall i :: 0 <= i < |columns| ==> columns[i].name != colName
    {
      FindColumn(columns, colName)
    }

    /** `getValidInputs(allInputs, nulls)`: an input that is not an object
        is refused. Otherwise the entries whose key is a column name (without
        timestamps) are kept; with `nulls`, every such column name is given
        its input when that is truthy and `null` when not. */
    function GetValidInputs(allInputs: Value, nulls: bool): (r: Result<Value>)
      reads this
      requires Valid()
      ensures r.Err? <==> !IsObject(allInputs)
      ensures r.Err? ==> r.error == InvalidInputError
      ensures r.Ok? ==> r.value.Obj?
      ensures r.Ok? && !nulls ==> forall k :: k in r.value.fields <==>
        k in OwnEntries(allInputs) && k in ColumnNames(false)
      ensures r.Ok? && !nulls ==> forall k :: k in r.value.fields ==> r.value.fields[k] == Get(allInputs, k)
      ensures r.Ok? && nulls ==> forall k :: k in r.value.fields <==> k in ColumnNames(false)
      ensures r.Ok? && nulls ==> forall k :: k in r.value.fields ==>
        r.value.fields[k] == (if Truthy(Get(allInputs, k)) then Get(allInputs, k) else Null)
    {
      if !IsObject(allInputs) then Err(InvalidInputError)
      else
        var colNames := ColumnNames(false);
        var entries := OwnEntries(allInputs);
        var validInputs := map k | k in entries && k in colNames :: entries[k];
        if nulls then
          Ok(Obj(map c | c in colNames :: if Truthy(Get(Obj(validInputs), c)) then Get(Obj(validInputs), c) else Null))
        else Ok(Obj(validInputs))
    }

    /** `getInputsArrangedAsColumns(allInputs)`. */
    function InputsArrangedAsColumns(allInputs: Value): (r: seq<Value>)
      reads this
      requires Valid()
      ensures r == Arranged(ColumnNames(false), allInputs)
      ensures |r| == |ColumnNames(false)| <==> AllDefined(ColumnNames(false), allInputs)
    {
      Arranged(ColumnNames(false), allInputs)
    }

    /** Filtering the inputs by column name loses nothing the arrangement
        uses: the statement values are the user's defined inputs in column
        order. */
    lemma ValidInputsArranged(data: Value)
      requires Valid() && IsObject(data)
      ensures InputsArrangedAsColumns(GetValidInputs(data, false).value) == Arranged(ColumnNames(false), data)
    {
      var names := ColumnNames(false);
      var valid := GetValidInputs(data, false).value;
      forall i | 0 <= i < |names|
        ensures Get(valid, names[i]) == Get(data, names[i])
      {
        assert names[i] in names;
      }
      ArrangedAgree(names, valid, data);
    }

    /** The name of the column paranoid deletion marks rows in: the one
        the configuration names, or else the table's own. */
    function DeletedAtName(): string
      reads this
      requires Valid()
    {
      if StampsNamed(config) then config["timestamps"].names.deletedAt else stampNames.deletedAt
    }

    /** `addTimestamps()`: a timestamps object in the configuration
        replaces the table's timestamp names; then a `createdAt` and an
        `updatedAt` column are appended. */
    method AddTimestamps()
      requires Valid()
      modifies this
      ensures stampNames == (if StampsNamed(config) then config["timestamps"].names else old(stampNames))
      ensures |columns| == |old(columns)| + 2 && columns[..|old(columns)|] == old(columns)
      ensures fresh(columns[|old(columns)|]) && fresh(columns[|old(columns)| + 1])
      ensures Defines(columns[|old(columns)|], stampNames.createdAt, TimestampTemplate, [], DefaultFormatter)
      ensures Defines(columns[|old(columns)| + 1], stampNames.updatedAt, TimestampTemplate, [], DefaultFormatter)
      ensures name == old(name) && crudQuery == old(crudQuery)
    {
      if StampsNamed(config) {
        stampNames := config["timestamps"].names;
      }
      var createdAtCol := new Column(stampNames.createdAt, TimestampTemplate, [], DefaultFormatter);
      var updatedAtCol := new Column(stampNames.updatedAt, TimestampTemplate, [], DefaultFormatter);
      columns := columns + [createdAtCol, updatedAtCol];
    }

    /** `setParanoid()`: refused when timestamps are off; otherwise a
        `deletedAt` column is appended. */
    method SetParanoid() returns (r: Outcome)
      requires Valid()
      modifies this
      ensures !StampsOn(config) ==> r == Fail(NoTimestampsError) && columns == old(columns)
      ensures StampsOn(config) ==> (r == Pass
        && |columns| == |old(columns)| + 1 && columns[..|old(columns)|] == old(columns)
        && fresh(columns[|old(columns)|])
        && Defines(columns[|old(columns)|], DeletedAtName(), DeletedAtTemplate, [], DefaultFormatter))
      ensures name == old(name) && stampNames == old(stampNames) && crudQuery == old(crudQuery)
    {
      if !StampsOn(config) {
        return Fail(NoTimestampsError);
      }
      var deletedAtCol := new Column(DeletedAtName(), DeletedAtTemplate, [], DefaultFormatter);
      columns := columns + [deletedAtCol];
      r := Pass;
    }

    /** The definitions `create` appends: the two timestamp columns when
        timestamps are on, then the deletion mark when deletion is
        paranoid. */
    function AddedSqls(): seq<string>
      reads this
      requires Valid()
    {
      (if StampsOn(config) then [stampNames.createdAt + " " + TimestampType,
                                 stampNames.updatedAt + " " + TimestampType] else [])
      + (if Paranoid(config) then [DeletedAtName() + " " + DeletedAtType] else [])
    }

    /** The first half of `create()`: timestamps and the deletion mark are
        added as configured; paranoid deletion without timestamps is
        refused before anything changes. Every column there was stays as it
        was, and each appended column is new and defined by its template. */
    method AddConfiguredColumns() returns (r: Outcome)
      requires Valid()
      modifies this
      ensures crudQuery == old(crudQuery) && name == old(name)
      ensures stampNames == (if StampsOn(config) && StampsNamed(config) then config["timestamps"].names
                             else old(stampNames))
      ensures Paranoid(config) && !StampsOn(config) ==> r == Fail(NoTimestampsError) && columns == old(columns)
      ensures !(Paranoid(config) && !StampsOn(config)) ==> (r == Pass
        && Sqls(columns) == Sqls(old(columns)) + AddedSqls()
        && |columns| == |old(columns)| + |AddedSqls()| && columns[..|old(columns)|] == old(columns))
      ensures forall i :: |old(columns)| <= i < |columns| ==> fresh(columns[i])
      ensures StampsOn(config) ==>
        Defines(columns[|old(columns)|], stampNames.createdAt, TimestampTemplate, [], DefaultFormatter)
        && Defines(columns[|old(columns)| + 1], stampNames.updatedAt, TimestampTemplate, [], DefaultFormatter)
      ensures StampsOn(config) && Paranoid(config) ==>
        Defines(columns[|old(columns)| + 2], DeletedAtName(), DeletedAtTemplate, [], DefaultFormatter)
      ensures !StampsOn(config) && !Paranoid(config) ==> columns == old(columns)
    {
      if Paranoid(config) && !StampsOn(config) {
        r := SetParanoid();
        return;
      }
      var before := columns;
      if StampsOn(config) {
        AddTimestamps();
        TimestampSqls(before, columns, stampNames);
      }
      var stamped := columns;
      if Paranoid(config) {
        r := SetParanoid();
        DeletedAtSql(stamped, columns, DeletedAtName());
      }
      r := Pass;
    }

    /** `create()`: the configured columns are added (or paranoid deletion
        without timestamps is refused before anything changes), then the
        statement creating the table from every column definition, joined
        by commas, is built. */
    method Create() returns (r: Outcome)
      requires Valid()
      modifies this, crudQuery
      ensures crudQuery == old(crudQuery) && name == old(name)
      ensures stampNames == (if StampsOn(config) && StampsNamed(config) then config["timestamps"].names
                             else old(stampNames))
      ensures Paranoid(config) && !StampsOn(config) ==> (r == Fail(NoTimestampsError) && columns == old(columns)
        && crudQuery.query == old(crudQuery.query) && crudQuery.values == old(crudQuery.values))
      ensures !(Paranoid(config) && !StampsOn(config)) ==> (r == Pass
        && Sqls(columns) == Sqls(old(columns)) + AddedSqls()
        && |columns| == |old(columns)| + |AddedSqls()| && columns[..|old(columns)|] == old(columns)
        && crudQuery.query == Prepared(crudQuery.tableName, crudQuery.columns, |old(crudQuery.values)|,
                                       CreateTableText(Join(Sqls(columns), ",")), 0, None, None)
        && crudQuery.values == [])
      ensures forall i :: |old(columns)| <= i < |columns| ==> fresh(columns[i])
      ensures StampsOn(config) ==>
        Defines(columns[|old(columns)|], stampNames.createdAt, TimestampTemplate, [], DefaultFormatter)
        && Defines(columns[|old(columns)| + 1], stampNames.updatedAt, TimestampTemplate, [], DefaultFormatter)
      ensures StampsOn(config) && Paranoid(config) ==>
        Defines(columns[|old(columns)| + 2], DeletedAtName(), DeletedAtTemplate, [], DefaultFormatter)
      ensures !StampsOn(config) && !Paranoid(config) ==> columns == old(columns)
      ensures r == Pass && HashFree(crudQuery.tableName) && HashFree(Join(Sqls(columns), ",")) ==>
        crudQuery.query == CollapseSpace(CreateTableHead + (crudQuery.tableName + (" (" + Join(Sqls(columns), ",") + ")")))
    {
      r := AddConfiguredColumns();
      if r.Fail? {
        return;
      }
      var colsSchema := Join(Sqls(columns), ",");
      crudQuery.CreateTable(colsSchema);
    }

    /** The options `select` hands to the statement builder: the given
        options over the defaults, with the selected column names. */
    function SelectOptions(options: FindOptions): FindOptions
      reads this
    {
      var merged := MergeFind(options, DefaultFind);
      FindOptions(merged.offset, merged.limit, Some(SelectedColumns(options)), merged.where)
    }

    /** The names `select` reads: every column's name in the table, or, when
        columns are requested, the non-empty ones among them, in table
        order. */
    function SelectedColumns(options: FindOptions): (r: seq<string>)
      reads this
      ensures options.columns.None? ==> r == NamesInTable(columns)
      ensures options.columns.Some? ==>
        forall x :: x in r <==> x in NamesInTable(columns) && x in options.columns.value && x != ""
      ensures options.columns.Some? ==> r == Requested(NamesInTable(columns), options.columns.value)
    {
      if options.columns.Some? then Requested(NamesInTable(columns), options.columns.value)
      else NamesInTable(columns)
    }

    /** `select(options)`: a select over the selected columns, paged by the
        merged offset and limit (1000 rows unless a limit is given). */
    method Select(options: FindOptions)
      requires Valid()
      modifies crudQuery
      ensures crudQuery.query == Prepared(crudQuery.tableName, crudQuery.columns, |old(crudQuery.values)|,
                                          SelectText(SelectOptions(options)), 0, Some(SelectedColumns(options)),
                                          SelectOptions(options).where)
      ensures crudQuery.values == []
      ensures HashFree(crudQuery.tableName) && AllHashFree(SelectedColumns(options))
              && SelectConditionShape(options.where) ==>
        crudQuery.query == CollapseSpace("SELECT " + Join(SelectedColumns(options), ",") + " FROM " + crudQuery.tableName
          + LimitOffset(SelectOptions(options).offset, SelectOptions(options).limit)
          + SelectWhereText(options.where, |old(crudQuery.values)| + WhereValueCount(options.where)))
    {
      crudQuery.Select(SelectOptions(options));
    }

    /** `insert(data)`: an input that is not an object is refused;
        otherwise the statement inserts the user's defined inputs, in
        column order. */
    method Insert(data: Value) returns (r: Outcome)
      requires Valid()
      modifies crudQuery
      ensures !IsObject(data) ==> (r == Fail(InvalidInputError)
        && crudQuery.query == old(crudQuery.query) && crudQuery.values == old(crudQuery.values))
      ensures IsObject(data) ==> (r == Pass && crudQuery.values == Arranged(ColumnNames(false), data)
        && crudQuery.query == Prepared(crudQuery.tableName, crudQuery.columns, |old(crudQuery.values)|,
                                       InsertTemplate, |crudQuery.values|, None, None))
      ensures IsObject(data) && Ident(crudQuery.tableName) && AllPlain(crudQuery.columns) ==>
        crudQuery.query == "INSERT INTO " + crudQuery.tableName + " (" + Join(crudQuery.columns, ",") + ") VALUES ("
                           + Join(ValuePlaceholders(|crudQuery.values|), ",") + ")"
    {
      var validInputs := GetValidInputs(data, false);
      if validInputs.Err? {
        return Fail(validInputs.error);
      }
      ValidInputsArranged(data);
      crudQuery.Insert(InputsArrangedAsColumns(validInputs.value));
      r := Pass;
    }

    /** `update(data, pkey)`: an input that is not an object is refused,
        and so is one that leaves some column name (without timestamps)
        undefined, since the values must match the column names one for
        one. Otherwise every column is set from the inputs, and the row is
        selected by the primary key, whose parameter is numbered after the
        values the previous statement left. */
    method Update(data: Value, pkey: Value) returns (r: Outcome)
      requires Valid()
      modifies crudQuery
      ensures !IsObject(data) ==> (r == Fail(InvalidInputError)
        && crudQuery.query == old(crudQuery.query) && crudQuery.values == old(crudQuery.values))
      ensures IsObject(data) && |ColumnNames(false)| > 0 && !AllDefined(ColumnNames(false), data) ==>
        (r == Fail(UpdateMismatchError)
         && crudQuery.query == old(crudQuery.query) && crudQuery.values == old(crudQuery.values))
      ensures IsObject(data) && (|ColumnNames(false)| == 0 || AllDefined(ColumnNames(false), data)) ==>
        (r == Pass && crudQuery.values == Arranged(ColumnNames(false), data)
         && crudQuery.query == Prepared(crudQuery.tableName, crudQuery.columns, |old(crudQuery.values)|,
                                        UpdateTemplate, |crudQuery.values|, Some(ColumnNames(false)),
                                        Some(Where(PkCondition(PkName(config)), Some([pkey])))))
      ensures IsObject(data) && AllDefined(ColumnNames(false), data) && |ColumnNames(false)| > 0
              && Ident(crudQuery.tableName) && AllPlain(ColumnNames(false)) && HashFree(PkName(config)) ==>
        crudQuery.query == "UPDATE " + crudQuery.tableName + " SET "
                           + Join(UpdatePairs(ColumnNames(false), |ColumnNames(false)|), ",")
                           + (" WHERE " + PkName(config) + "=" + Placeholder(|old(crudQuery.values)| + 1))
    {
      var validInputs := GetValidInputs(data, false);
      if validInputs.Err? {
        return Fail(validInputs.error);
      }
      ValidInputsArranged(data);
      var names := ColumnNames(false);
      var vals := InputsArrangedAsColumns(validInputs.value);
      var where := Some(Where(PkCondition(PkName(config)), Some([pkey])));
      if HashFree(PkName(config)) {
        PkWhereText(PkName(config), pkey, |crudQuery.values|);
      }
      r := crudQuery.Update(vals, Some(names), where);
    }

    /** `delete(pkey)`: a key of type "object" (including `null`) is
        refused as not implemented. A paranoid table marks the row instead
        of deleting it: `deleted_at` is set to the text `now()`, the row
        selected by a key parameter numbered after the values the previous
        statement left. Otherwise the row is deleted by the key as `$1`. */
    method Delete(pkey: Value) returns (r: Outcome)
      requires Valid()
      modifies crudQuery
      ensures TypeOf(pkey) == "object" ==> (r == Fail(NotImplementedError)
        && crudQuery.query == old(crudQuery.query) && crudQuery.values == old(crudQuery.values))
      ensures TypeOf(pkey) != "object" && Paranoid(config) ==> (r == Pass && crudQuery.values == [Str("now()")]
        && crudQuery.query == Prepared(crudQuery.tableName, crudQuery.columns, |old(crudQuery.values)|,
                                       UpdateTemplate, 1, Some(["deleted_at"]),
                                       Some(Where(PkCondition(PkName(config)), Some([pkey])))))
      ensures TypeOf(pkey) != "object" && Paranoid(config) && Ident(crudQuery.tableName) && HashFree(PkName(config)) ==>
        crudQuery.query == "UPDATE " + crudQuery.tableName + " SET " + "deleted_at=$1"
                           + (" WHERE " + PkName(config) + "=" + Placeholder(|old(crudQuery.values)| + 1))
      ensures TypeOf(pkey) != "object" && !Paranoid(config) ==> (r == Pass && crudQuery.values == []
        && crudQuery.query == Prepared(crudQuery.tableName, crudQuery.columns, |old(crudQuery.values)|,
                                       DeleteTemplate, 0, Some([]),
                                       Some(Where(PkDeleteCondition(PkName(config)), Some([pkey])))))
      ensures TypeOf(pkey) != "object" && !Paranoid(config) && Ident(crudQuery.tableName) && HashFree(PkName(config)) ==>
        crudQuery.query == "DELETE FROM " + crudQuery.tableName + (" WHERE " + PkName(config) + "=$1")
    {
      if TypeOf(pkey) == "object" {
        return Fail(NotImplementedError);
      }
      if Paranoid(config) {
        r := MarkDeleted(pkey);
      } else {
        DeleteRow(pkey);
        r := Pass;
      }
    }

    /** The paranoid branch of `delete`: `deleted_at` is set to `now()` on
        the row the key selects. */
    method MarkDeleted(pkey: Value) returns (r: Outcome)
      requires Valid() && Paranoid(config)
      modifies crudQuery
      ensures r == Pass && crudQuery.values == [Str("now()")]
      ensures crudQuery.query == Prepared(crudQuery.tableName, crudQuery.columns, |old(crudQuery.values)|,
                                          UpdateTemplate, 1, Some(["deleted_at"]),
                                          Some(Where(PkCondition(PkName(config)), Some([pkey]))))
      ensures Ident(crudQuery.tableName) && HashFree(PkName(config)) ==>
        crudQuery.query == "UPDATE " + crudQuery.tableName + " SET " + "deleted_at=$1"
                           + (" WHERE " + PkName(config) + "=" + Placeholder(|old(crudQuery.values)| + 1))
    {
      var pk := PkName(config);
      var where := Some(Where(PkCondition(pk), Some([pkey])));
      if HashFree(pk) {
        PkWhereText(pk, pkey, |crudQuery.values|);
        DeletedAtPair(crudQuery.columns);
      }
      r := crudQuery.Update([Str("now()")], Some(["deleted_at"]), where);
    }

    /** The plain branch of `delete`: the row the key selects is deleted,
        the key bound as `$1`. */
    method DeleteRow(pkey: Value)
      requires Valid()
      modifies crudQuery
      ensures crudQuery.values == []
      ensures crudQuery.query == Prepared(crudQuery.tableName, crudQuery.columns, |old(crudQuery.values)|,
                                          DeleteTemplate, 0, Some([]),
                                          Some(Where(PkDeleteCondition(PkName(config)), Some([pkey]))))
      ensures Ident(crudQuery.tableName) && HashFree(PkName(config)) ==>
        crudQuery.query == "DELETE FROM " + crudQuery.tableName + (" WHERE " + PkName(config) + "=$1")
    {
      var pk := PkName(config);
      var where := Some(Where(PkDeleteCondition(pk), Some([pkey])));
      if HashFree(pk) {
        PkDeleteWhereText(pk, pkey, |crudQuery.values|);
      }
      crudQuery.Delete(where);
    }

    /** `runValidations(allInputs)`: each column's validators run in
        column order on the input under the column's name; the first error
        stops the rest and is passed on. Reading a property of `null` or
        `undefined` inputs throws before any validator runs. */
    method RunValidations(allInputs: Value) returns (r: Outcome)
      ensures |columns| > 0 && (allInputs == Undef || allInputs == Null) ==>
        r == Fail(PropertyReadError(allInputs, columns[0].name))
      ensures |columns| == 0 || !(allInputs == Undef || allInputs == Null) ==>
        r == FirstError(ColumnOutcomes(columns, allInputs))
    {
      if |columns| > 0 && (allInputs == Undef || allInputs == Null) {
        return Fail(PropertyReadError(allInputs, columns[0].name));
      }
      ghost var outcomes := ColumnOutcomes(columns, allInputs);
      var i := 0;
      while i < |columns|
        invariant 0 <= i <= |columns|
        invariant FirstError(outcomes[..i]) == Pass
      {
        var outcome := columns[i].RunValidations(Get(allInputs, columns[i].name), allInputs);
        FirstErrorNext(outcomes, i);
        if outcome.Fail? {
          FirstErrorStops(outcomes, i + 1);
          return outcome;
        }
        i := i + 1;
      }
      assert outcomes[..i] == outcomes;
      r := Pass;
    }
  }

  /** The TypeError a property read `v[key]` throws on `null` or
      `undefined`, as Node.js words it. */
  function PropertyReadError(v: Value, key: string): string
  {
    "TypeError: Cannot read properties of " + (if v == Null then "null" else "undefined")
    + " (reading '" + key + "')"
  }

  /** The first column of `cols` named `colName`. */
  function FindColumn(cols: seq<Column>, colName: string): (r: Option<Column>)
    reads cols
    ensures r.Some? ==> exists i :: (0 <= i < |cols| && cols[i] == r.value && r.value.name == colName
      && forall j :: 0 <= j < i ==> cols[j].name != colName)
    ensures r.None? ==> forall i :: 0 <= i < |cols| ==> cols[i].name != colName
  {
    if |cols| == 0 then None
    else if cols[0].name == colName then Some(cols[0])
    else
      var r := FindColumn(cols[1..], colName);
      assert forall i :: 1 <= i < |cols| ==> cols[i] == cols[1..][i - 1];
      if r.Some? then
        var k :| 0 <= k < |cols[1..]| && cols[1..][k] == r.value && r.value.name == colName
          && forall j :: 0 <= j < k ==> cols[1..][j].name != colName;
        assert cols[k + 1] == r.value;
        r
      else r
  }

  /** The verdict of each column's validators on the input under its name. */
  function ColumnOutcomes(cols: seq<Column>, allInputs: Value): (r: seq<Outcome>)
    reads cols
    ensures |r| == |cols|
  {
    seq(|cols|, i requires 0 <= i < |cols| reads cols =>
      FirstError(ValidatorOutcomes(cols[i].validations, Get(allInputs, cols[i].name), cols[i].name, allInputs)))
  }

  /** The definitions of appended columns follow the earlier ones. */
  lemma SqlsAppend(before: seq<Column>, after: seq<Column>)
    requires |before| <= |after| && after[..|before|] == before
    ensures Sqls(after) == Sqls(before) + Sqls(after[|before|..])
  {
    assert forall i :: 0 <= i < |before| ==> after[i] == before[i];
  }

  /** The two timestamp columns `addTimestamps` appends are defined as
      `<name> timestamp default now()`. */
  lemma TimestampSqls(before: seq<Column>, after: seq<Column>, names: StampNames)
    requires |after| == |before| + 2 && after[..|before|] == before
    requires Defines(after[|before|], names.createdAt, TimestampTemplate, [], DefaultFormatter)
    requires Defines(after[|before| + 1], names.updatedAt, TimestampTemplate, [], DefaultFormatter)
    ensures Sqls(after) == Sqls(before) + [names.createdAt + " " + TimestampType,
                                           names.updatedAt + " " + TimestampType]
  {
    FillName(names.createdAt, TimestampType);
    FillName(names.updatedAt, TimestampType);
    SqlsAppend(before, after);
    assert Sqls(after[|before|..]) == [after[|before|].sql, after[|before| + 1].sql];
  }

  /** The column `setParanoid` appends is defined as `<name> timestamp`. */
  lemma DeletedAtSql(before: seq<Column>, after: seq<Column>, deletedAt: string)
    requires |after| == |before| + 1 && after[..|before|] == before
    requires Defines(after[|before|], deletedAt, DeletedAtTemplate, [], DefaultFormatter)
    ensures Sqls(after) == Sqls(before) + [deletedAt + " " + DeletedAtType]
  {
    FillName(deletedAt, DeletedAtType);
    SqlsAppend(before, after);
    assert Sqls(after[|before|..]) == [after[|before|].sql];
  }

  /** The key condition of `update` and paranoid `delete` reads
      ` WHERE <pkName>=$<n>`, `n` one past the values the previous statement
      left. */
  lemma PkWhereText(pkName: string, pkey: Value, prev: nat)
    requires HashFree(pkName)
    ensures RenderedWhere(Some(Where(PkCondition(pkName), Some([pkey]))),
                          prev + WhereValueCount(Some(Where(PkCondition(pkName), Some([pkey])))))
            == " WHERE " + pkName + "=" + Placeholder(prev + 1)
  {
    PkConditionNumbered(pkName, prev + 1);
  }

  /** The key condition of plain `delete` reads ` WHERE <pkName>=$1`. */
  lemma PkDeleteWhereText(pkName: string, pkey: Value, prev: nat)
    requires HashFree(pkName)
    ensures RenderedWhere(Some(Where(PkDeleteCondition(pkName), Some([pkey]))),
                          prev + WhereValueCount(Some(Where(PkDeleteCondition(pkName), Some([pkey])))))
            == " WHERE " + pkName + "=$1"
  {
    PkDeleteConditionNumbered(pkName, prev + 1);
  }

  /** Paranoid deletion's one assignment reads `deleted_at=$1`. */
  lemma DeletedAtPair(defaults: seq<string>)
    ensures Join(UpdatePairs(EffectiveColumns(Some(["deleted_at"]), defaults), 1), ",") == "deleted_at=$1"
  {
    var pairs := UpdatePairs(["deleted_at"], 1);
    assert NatToString(1) == "1";
    assert pairs[0] == "deleted_at" + "=" + "$1";
    assert pairs == [pairs[0]];
  }
}
