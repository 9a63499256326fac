/** The list and input shaping `Table` does before it builds a statement
    (src/classes/Table.class.ts): dropping the timestamp names from the
    column names, picking the requested columns for `select`, merging the
    find options, and lining user inputs up with the columns. */
module TableInputs {
  import opened JsValue
  import opened Text
  import opened QueryText

  /** `xs.filter(x => !drop.includes(x))`. */
  function Without(xs: seq<string>, drop: seq<string>): (r: seq<string>)
    ensures |r| <= |xs|
    ensures forall x :: x in r <==> x in xs && x !in drop
  {
    if |xs| == 0 then []
    else
      var rest := Without(xs[1..], drop);
      assert forall x :: x in xs <==> x == xs[0] || x in xs[1..];
      if xs[0] in drop then rest else [xs[0]] + rest
  }

  /** Dropping nothing keeps the whole list. */
  lemma {:induction false} WithoutNothing(xs: seq<string>)
    ensures Without(xs, []) == xs
  {
    if |xs| > 0 {
      WithoutNothing(xs[1..]);
      assert [xs[0]] + xs[1..] == xs;
    }
  }

  /** The filter keeps order and repeats: filtering a concatenation filters
      each part, and a single name is kept exactly when it is not dropped. */
  lemma {:induction false} WithoutAppend(a: seq<string>, b: seq<string>, drop: seq<string>)
    ensures Without(a + b, drop) == Without(a, drop) + Without(b, drop)
    ensures forall x :: Without([x], drop) == if x in drop then [] else [x]
  {
    if |a| > 0 {
      assert (a + b)[1..] == a[1..] + b;
      WithoutAppend(a[1..], b, drop);
    } else {
      assert a + b == b;
    }
  }

  /** The names `select` keeps when columns are requested: those, in table
      order, that some request matches by a truthy `find` result, so an
      empty name is never kept. */
  function Requested(names: seq<string>, requested: seq<string>): (r: seq<string>)
    ensures |r| <= |names|
    ensures forall x :: x in r <==> x in names && x in requested && x != ""
  {
    if |names| == 0 then []
    else
      var rest := Requested(names[1..], requested);
      assert forall x :: x in names <==> x == names[0] || x in names[1..];
      if names[0] != "" && names[0] in requested then [names[0]] + rest else rest
  }

  /** Requesting every name of a list of non-empty names keeps the list. */
  lemma {:induction false} RequestedAll(names: seq<string>, requested: seq<string>)
    requires forall i :: 0 <= i < |names| ==> names[i] != "" && names[i] in requested
    ensures Requested(names, requested) == names
  {
    if |names| > 0 {
      RequestedAll(names[1..], requested);
      assert [names[0]] + names[1..] == names;
    }
  }

  /** The selection keeps table order and repeats: selecting from a
      concatenation selects from each part, and a single name is kept
      exactly when it is non-empty and requested. */
  lemma {:induction false} RequestedAppend(a: seq<string>, b: seq<string>, requested: seq<string>)
    ensures Requested(a + b, requested) == Requested(a, requested) + Requested(b, requested)
    ensures forall x :: Requested([x], requested) == if x != "" && x in requested then [x] else []
  {
    if |a| > 0 {
      assert (a + b)[1..] == a[1..] + b;
      RequestedAppend(a[1..], b, requested);
    } else {
      assert a + b == b;
    }
  }

  /** The find options `select` starts from. */
  const DefaultFind: FindOptions := FindOptions(Some(0), Some(1000), Some([]), None)

  /** `new Options(options, defaults).config` for find options: each given
      field wins, the defaults fill the others. */
  function MergeFind(options: FindOptions, defaults: FindOptions): FindOptions
  {
    FindOptions(
      if options.offset.Some? then options.offset else defaults.offset,
      if options.limit.Some? then options.limit else defaults.limit,
      if options.columns.Some? then options.columns else defaults.columns,
      if options.where.Some? then options.where else defaults.where)
  }

  /** Without a limit or an offset, `select` reads at most 1000 rows; an
      offset of 0 adds nothing. */
  lemma SelectDefaultPaging(options: FindOptions)
    requires options.limit.None? && (options.offset.None? || options.offset == Some(0))
    ensures LimitOffset(MergeFind(options, DefaultFind).offset, MergeFind(options, DefaultFind).limit) == " LIMIT 1000"
  {
    assert NatToString(1000) == NatToString(100) + "0";
    assert NatToString(100) == NatToString(10) + "0";
    assert NatToString(10) == "1" + "0";
  }

  /** Every column name has an input that is not undefined. */
  predicate AllDefined(names: seq<string>, inputs: Value)
  {
    forall i :: 0 <= i < |names| ==> Get(inputs, names[i]) != Undef
  }

  /** `names.filter(col => inputs[col] !== undefined).map(col => inputs[col])`:
      the defined inputs in column order. There is one value per name
      exactly when every name has a defined input, and then the values line
      up with the names. */
  function Arranged(names: seq<string>, inputs: Value): (r: seq<Value>)
    ensures |r| <= |names|
    ensures |r| == |names| <==> AllDefined(names, inputs)
    ensures forall v :: v in r ==> v != Undef
    ensures AllDefined(names, inputs) ==> forall i :: 0 <= i < |names| ==> r[i] == Get(inputs, names[i])
  {
    if |names| == 0 then []
    else
      var rest := Arranged(names[1..], inputs);
      assert AllDefined(names, inputs) <==> Get(inputs, names[0]) != Undef && AllDefined(names[1..], inputs) by {
        assert forall i :: 1 <= i < |names| ==> names[i] == names[1..][i - 1];
      }
      var v := Get(inputs, names[0]);
      if v != Undef then [v] + rest else rest
  }

  /** The arrangement keeps column order: arranging a concatenation of
      names arranges each part, and a single name contributes its input
      exactly when that is not undefined. */
  lemma {:induction false} ArrangedAppend(a: seq<string>, b: seq<string>, inputs: Value)
    ensures Arranged(a + b, inputs) == Arranged(a, inputs) + Arranged(b, inputs)
    ensures forall x :: Arranged([x], inputs) == if Get(inputs, x) != Undef then [Get(inputs, x)] else []
  {
    if |a| > 0 {
      var ab := a + b;
      assert ab[0] == a[0] && ab[1..] == a[1..] + b;
      ArrangedAppend(a[1..], b, inputs);
      var head := if Get(inputs, a[0]) != Undef then [Get(inputs, a[0])] else [];
      assert Arranged(ab, inputs) == head + Arranged(ab[1..], inputs);
      assert Arranged(a, inputs) == head + Arranged(a[1..], inputs);
    } else {
      assert a + b == b;
    }
    forall x
      ensures Arranged([x], inputs) == if Get(inputs, x) != Undef then [Get(inputs, x)] else []
    {
      assert [x][1..] == [];
    }
  }

  /** Inputs that agree on every column name line up the same way. */
  lemma {:induction false} ArrangedAgree(names: seq<string>, a: Value, b: Value)
    requires forall i :: 0 <= i < |names| ==> Get(a, names[i]) == Get(b, names[i])
    ensures Arranged(names, a) == Arranged(names, b)
  {
    if |names| > 0 {
      assert forall i :: 1 <= i < |names| ==> names[1..][i - 1] == names[i];
      ArrangedAgree(names[1..], a, b);
    }
  }
}
