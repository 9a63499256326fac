/** A table column (src/classes/Column.class.ts): its name, its SQL
    definition with `@name` filled in, the name it has in the table, its
    validators and its formatter. Validators and formatters are caller code;
    a validator is modelled by the outcome it gives for its arguments and a
    formatter by the value it returns. */
module Columns {
  import opened JsValue
  import opened Text

  /** `validator(val, colName, allInputs)`: returns, or throws an error. */
  type Validator = (Value, string, Value) -> Outcome

  /** The formatter argument of the constructor: omitted (the default
      `val => {}`, which returns undefined), a falsy value such as `null`
      (no formatter), or a function. */
  datatype FormatterArg = DefaultFormatter | NoFormatter | Formatter(f: Value -> Value)

  /** The constructor's default formatter `val => {}`: whatever it is
      given, it returns undefined. */
  function Discard(val: Value): (r: Value)
    ensures r == Undef
  {
    Undef
  }

  /** The formatter a column keeps: `None` for a falsy one, otherwise the
      function, with the default filled in when the argument is omitted. */
  function Installed(arg: FormatterArg): (r: Option<Value -> Value>)
    ensures r.None? <==> arg.NoFormatter?
    ensures arg.Formatter? ==> r == Some(arg.f)
    ensures arg.DefaultFormatter? ==> r == Some(Discard)
  {
    match arg
    case DefaultFormatter => Some(Discard)
    case NoFormatter => None
    case Formatter(f) => Some(f)
  }

  /** The placeholder the SQL template uses for the column's name. */
  const NamePlaceholder: string := "@name"

  /** `sql.split(' ')[0] || colName`: the first space-separated token of
      the template, or the column name when that token is empty. */
  function NameInTable(template: string, colName: string): (r: string)
    ensures r == colName || r in Split(template, ' ')
    ensures r != "" || colName == ""
    ensures ' ' !in template && template != "" ==> r == template
  {
    var first := Split(template, ' ')[0];
    assert ' ' !in template ==> first == template by {
      if ' ' !in template {
        SplitNoSeparator(template, ' ');
      }
    }
    if first != "" then first else colName
  }

  /** `sql.split(' ')[1]`: the second space-separated token, or undefined
      (`None`) when there is no space. */
  function DataType(sql: string): (r: Option<string>)
    ensures r.Some? <==> ' ' in sql
  {
    var parts := Split(sql, ' ');
    SplitCount(sql);
    if |parts| >= 2 then Some(parts[1]) else None
  }

  /** A text splits into one piece exactly when it holds no space. */
  lemma {:induction false} SplitCount(s: string)
    ensures |Split(s, ' ')| >= 2 <==> ' ' in s
    decreases |s|
  {
    if |s| > 0 {
      SplitCount(s[1..]);
      assert ' ' in s <==> s[0] == ' ' || ' ' in s[1..];
    }
  }

  /** A template's first token is the name in the table whenever it is not
      empty: `id serial` gives `id`. */
  lemma NameInTableFirstToken(first: string, rest: string, colName: string)
    requires ' ' !in first && first != ""
    ensures NameInTable(first + " " + rest, colName) == first
  {
    SplitAfterFirst(first, ' ', rest);
  }

  /** A template that starts with a space, or is empty, falls back on the
      column name. */
  lemma NameInTableFallback(rest: string, colName: string)
    ensures NameInTable(" " + rest, colName) == colName
    ensures NameInTable("", colName) == colName
  {
    assert " " + rest == "" + [' '] + rest;
    SplitAfterFirst("", ' ', rest);
  }

  /** Filling `@name <rest>` with a column name gives `<name> <rest>`. */
  lemma FillName(colName: string, rest: string)
    ensures ReplaceFirst(NamePlaceholder + " " + rest, NamePlaceholder, colName) == colName + " " + rest
  {
    assert NamePlaceholder + " " + rest == NamePlaceholder + (" " + rest);
    FirstAtToken(NamePlaceholder, " " + rest, colName);
  }

  /** The name in the table is read from the template before `@name` is
      replaced, so a template that starts with `@name ` gives the
      placeholder itself, whatever the column is called. */
  lemma NameInTablePlaceholder(rest: string, colName: string)
    ensures NameInTable(NamePlaceholder + " " + rest, colName) == NamePlaceholder
  {
    NameInTableFirstToken(NamePlaceholder, rest, colName);
  }

  /** For `<name> <type> <rest>` the data type is `<type>`. */
  lemma DataTypeSecondToken(name: string, dataType: string, rest: string)
    requires ' ' !in name && ' ' !in dataType
    ensures DataType(name + " " + dataType + " " + rest) == Some(dataType)
  {
    var s := name + " " + dataType + " " + rest;
    assert s == name + [' '] + (dataType + [' '] + rest);
    SplitAfterFirst(name, ' ', dataType + [' '] + rest);
    SplitAfterFirst(dataType, ' ', rest);
  }

  /** For `<name> <type>` the data type is `<type>`. */
  lemma DataTypeLastToken(name: string, dataType: string)
    requires ' ' !in name && ' ' !in dataType
    ensures DataType(name + " " + dataType) == Some(dataType)
  {
    assert name + " " + dataType == name + [' '] + dataType;
    SplitAfterFirst(name, ' ', dataType);
    SplitNoSeparator(dataType, ' ');
  }

  /** What each validator gives for the value, the column name and all
      inputs, in list order. */
  function ValidatorOutcomes(validations: seq<Validator>, val: Value, name: string, allInputs: Value): (r: seq<Outcome>)
    ensures |r| == |validations|
  {
    seq(|validations|, i requires 0 <= i < |validations| => validations[i](val, name, allInputs))
  }

  /** What `format` gives, by the formatter argument the column was built
      with: undefined for every value when it was omitted, the value itself
      when it was falsy, and the given function's value otherwise. */
  lemma FormatByArgument(c: Column, arg: FormatterArg, val: Value)
    requires c.formatter == Installed(arg)
    ensures arg.DefaultFormatter? ==> c.Format(val) == Undef
    ensures arg.NoFormatter? ==> c.Format(val) == val
    ensures arg.Formatter? ==> c.Format(val) == arg.f(val)
  {
  }

  class Column {
    var name: string
    const sql: string
    const nameInTable: string
    const validations: seq<Validator>
    const formatter: Option<Value -> Value>

    /** `new Column(colName, sql, validations, formatter)`: `sql` has its
        first `@name` replaced by the column name, while `nameInTable` is
        read from the template as given. */
    constructor (colName: string, template: string, validations: seq<Validator>, formatter: FormatterArg)
      ensures name == colName
      ensures sql == ReplaceFirst(template, NamePlaceholder, colName)
      ensures nameInTable == NameInTable(template, colName)
      ensures this.validations == validations && this.formatter == Installed(formatter)
    {
      name := colName;
      sql := ReplaceFirst(template, NamePlaceholder, colName);
      nameInTable := NameInTable(template, colName);
      this.validations := validations;
      this.formatter := Installed(formatter);
    }

    /** The `name` setter: only the name changes. */
    method SetName(val: string)
      modifies this
      ensures name == val
    {
      name := val;
    }

    /** The `dataType` getter. */
    function DataTypeOf(): (r: Option<string>)
      ensures r.Some? <==> ' ' in sql
    {
      DataType(sql)
    }

    /** `format(val)`: a column with a formatter passes the value through
        it once; one whose formatter is falsy returns the value unchanged. */
    function Format(val: Value): (r: Value)
      ensures formatter.None? ==> r == val
      ensures formatter.Some? ==> r == formatter.value(val)
    {
      if formatter.Some? then formatter.value(val) else val
    }

    /** `runValidations(val, allInputs)`: the validators run in list order
        with the value, the column's name and all inputs; the first error
        stops the rest and is passed on. */
    method RunValidations(val: Value, allInputs: Value) returns (r: Outcome)
      ensures r == FirstError(ValidatorOutcomes(validations, val, name, allInputs))
    {
      ghost var outcomes := ValidatorOutcomes(validations, val, name, allInputs);
      var i := 0;
      while i < |validations|
        invariant 0 <= i <= |validations|
        invariant FirstError(outcomes[..i]) == Pass
      {
        var outcome := validations[i](val, name, allInputs);
        FirstErrorNext(outcomes, i);
        if outcome.Fail? {
          FirstErrorStops(outcomes, i + 1);
          return outcome;
        }
        i := i + 1;
      }
      assert outcomes[..i] == outcomes;
      r := Pass;
    }
  }
}
