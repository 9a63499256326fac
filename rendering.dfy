/** What `prepare` makes of each builder's template. Each lemma follows the
    replacement chain one token at a time over a template written as text
    pieces nested to the right: the table name fills every `#{tableName}`,
    the columns, placeholders and SET list fill their token in place, the
    where clause lands where `#{where}` stood and `#{idnum}` numbers the
    first parameter of the condition. Given inputs without `#` this yields
    the template with its tokens replaced; for names without spaces it is
    the exact statement. */
module QueryRendering {
  import opened JsValue
  import opened Text
  import opened QueryText

  lemma TokensWellFormed()
    ensures IsToken(TableToken) && IsToken(ColumnsToken) && IsToken(ValuesToken)
    ensures IsToken(UpdateToken) && IsToken(WhereToken) && IsToken(IdnumToken) && IsToken(ColumnToken)
  {
    assert TableToken[1..] == "{tableName}";
    assert ColumnsToken[1..] == "{columns}";
    assert ValuesToken[1..] == "{values}";
    assert UpdateToken[1..] == "{updateValues}";
    assert WhereToken[1..] == "{where}";
    assert IdnumToken[1..] == "{idnum}";
    assert ColumnToken[1..] == "{column}";
  }

  // ---------------------------------------------------------------------
  // walking a right-nested template
  // ---------------------------------------------------------------------

  // Regrouping a concatenation. Called as lemmas, these hand the solver
  // one instantiated equation instead of making it rediscover the
  // regrouping inside a context full of template literals.
  lemma Assoc(a: string, b: string, c: string)
    ensures a + (b + c) == (a + b) + c
  {
  }

  lemma Assoc4(a: string, b: string, c: string, d: string, r: string)
    ensures a + (b + (c + (d + r))) == (a + b + c + d) + r
  {
  }

  lemma AllSkipR(x: string, tok: string, y: string, pat: string, rep: string)
    requires HashFree(x) && Distinct(tok, pat)
    ensures ReplaceAll(x + (tok + y), pat, rep) == x + (tok + ReplaceAll(y, pat, rep))
  {
    AllPastText(x, tok + y, pat, rep);
    AllPastToken(tok, y, pat, rep);
  }

  lemma AllAtR(x: string, pat: string, y: string, rep: string)
    requires HashFree(x) && IsToken(pat)
    ensures ReplaceAll(x + (pat + y), pat, rep) == x + (rep + ReplaceAll(y, pat, rep))
  {
    AllPastText(x, pat + y, pat, rep);
    AllAtToken(pat, y, rep);
  }

  lemma FirstAtR(x: string, pat: string, y: string, rep: string)
    requires HashFree(x) && IsToken(pat)
    ensures ReplaceFirst(x + (pat + y), pat, rep) == x + (rep + y)
  {
    FirstPastText(x, pat + y, pat, rep);
    FirstAtToken(pat, y, rep);
  }

  lemma FirstSkipR(x: string, tok: string, y: string, pat: string, rep: string)
    requires HashFree(x) && Distinct(tok, pat)
    ensures ReplaceFirst(x + (tok + y), pat, rep) == x + (tok + ReplaceFirst(y, pat, rep))
  {
    FirstPastText(x, tok + y, pat, rep);
    FirstPastToken(tok, y, pat, rep);
  }

  // ---------------------------------------------------------------------
  // the texts that fill the tokens
  // ---------------------------------------------------------------------

  lemma PlaceholderPlain(i: nat)
    ensures Ident(Placeholder(i))
  {
    var d := NatToString(i);
    assert Placeholder(i) == ['$'] + d;
  }

  lemma PlaceholdersPlain(n: nat)
    ensures Plain(Join(ValuePlaceholders(n), ","))
  {
    var ps := ValuePlaceholders(n);
    forall p | p in ps ensures Plain(p) {
      var i :| 0 <= i < n && ps[i] == p;
      PlaceholderPlain(i + 1);
    }
    JoinAvoids(ps, ",", '#');
    JoinAvoids(ps, ",", ' ');
  }

  lemma ColumnsPlain(cols: seq<string>)
    requires AllPlain(cols)
    ensures Plain(Join(cols, ","))
  {
    JoinAvoids(cols, ",", '#');
    JoinAvoids(cols, ",", ' ');
  }

  lemma ColumnsHashFree(cols: seq<string>)
    requires AllHashFree(cols)
    ensures HashFree(Join(cols, ","))
  {
    JoinAvoids(cols, ",", '#');
  }

  /** One `column=$i` pair of hash-free (or plain) columns. */
  lemma PairPlain(cols: seq<string>, i: nat)
    requires AllHashFree(cols)
    ensures HashFree(ColumnAt(cols, i) + "=" + Placeholder(i + 1))
    ensures AllPlain(cols) ==> Plain(ColumnAt(cols, i) + "=" + Placeholder(i + 1))
  {
    PlaceholderPlain(i + 1);
  }

  lemma PairsHashFree(cols: seq<string>, n: nat)
    requires AllHashFree(cols)
    ensures HashFree(Join(UpdatePairs(cols, n), ","))
  {
    var ps := UpdatePairs(cols, n);
    forall p | p in ps ensures '#' !in p {
      var i :| 0 <= i < n && ps[i] == p;
      PairPlain(cols, i);
    }
    JoinAvoids(ps, ",", '#');
  }

  /** The SET list of plain columns is plain, and not empty when there is a
      value. */
  lemma PairsPlain(cols: seq<string>, n: nat)
    requires AllPlain(cols) && n > 0
    ensures Ident(Join(UpdatePairs(cols, n), ","))
  {
    var ps := UpdatePairs(cols, n);
    assert AllHashFree(cols);
    PairsHashFree(cols, n);
    forall p | p in ps ensures ' ' !in p {
      var i :| 0 <= i < n && ps[i] == p;
      PairPlain(cols, i);
    }
    JoinAvoids(ps, ",", ' ');
    PlaceholderPlain(1);
    if n > 1 {
      assert Join(ps, ",") == ps[0] + "," + Join(ps[1..], ",");
    }
  }

  /** A parameter `$i` is a dollar sign and digits only: it holds no comma. */
  lemma PlaceholderNoComma(i: nat)
    ensures ',' !in Placeholder(i)
  {
    var d := NatToString(i);
    assert Placeholder(i) == ['$'] + d;
    assert forall k :: 0 <= k < |d| ==> d[k] != ',';
  }

  /** The `#{values}` list of `n` values splits back at ',' into its
      placeholders. */
  lemma ValuePlaceholdersSplit(n: nat)
    requires n > 0
    ensures Split(Join(ValuePlaceholders(n), ","), ',') == ValuePlaceholders(n)
  {
    var ps := ValuePlaceholders(n);
    forall i | 0 <= i < n
      ensures ',' !in ps[i]
    {
      PlaceholderNoComma(i + 1);
    }
    assert "," == [','];
    SplitJoin(ps, ',');
  }

  /** The placeholders of `#{values}` name `n` different parameters. */
  lemma ValuePlaceholdersDistinct(n: nat)
    ensures forall i, j :: 0 <= i < j < n ==> ValuePlaceholders(n)[i] != ValuePlaceholders(n)[j]
  {
    var ps := ValuePlaceholders(n);
    forall i, j | 0 <= i < j < n
      ensures ps[i] != ps[j]
    {
      if ps[i] == ps[j] {
        assert ps[i][1..] == NatToString(i + 1);
        assert ps[j][1..] == NatToString(j + 1);
        NatToStringInjective(i + 1, j + 1);
      }
    }
  }

  /** The `#{updateValues}` list splits back at ',' into one `column=$i`
      pair per value when no column name holds a comma. */
  lemma UpdatePairsSplit(cols: seq<string>, n: nat)
    requires n > 0
    requires forall i :: 0 <= i < |cols| ==> ',' !in cols[i]
    ensures Split(Join(UpdatePairs(cols, n), ","), ',') == UpdatePairs(cols, n)
  {
    var ps := UpdatePairs(cols, n);
    forall i | 0 <= i < n
      ensures ',' !in ps[i]
    {
      PlaceholderNoComma(i + 1);
      assert ',' !in ColumnAt(cols, i);
      assert ps[i] == ColumnAt(cols, i) + "=" + Placeholder(i + 1);
    }
    assert "," == [','];
    SplitJoin(ps, ',');
  }

  /** Gluing text without spaces onto text without a double space. */
  lemma GluePlain(a: string, b: string)
    requires NoDoubleSpace(a) && ' ' !in b
    ensures NoDoubleSpace(a + b)
    ensures b != "" ==> (a + b)[|a + b| - 1] != ' '
  {
    assert NoDoubleSpace(b);
    NoDoubleSpaceAppend(a, b);
  }

  /** Gluing text without a double space after a non-space. */
  lemma GlueAfter(a: string, b: string)
    requires NoDoubleSpace(a) && NoDoubleSpace(b) && (a == "" || a[|a| - 1] != ' ')
    ensures NoDoubleSpace(a + b)
  {
    NoDoubleSpaceAppend(a, b);
  }

  // ---------------------------------------------------------------------
  // text with no token left
  // ---------------------------------------------------------------------

  lemma LaterNothing(s: string, cols: seq<string>, n: nat, whereText: string, idnum: nat)
    requires HashFree(s)
    ensures LaterTokens(s, cols, n, whereText, idnum) == s
  {
    TokensWellFormed();
    FirstNoToken(s, ValuesToken, Join(ValuePlaceholders(n), ","));
    FirstNoToken(s, UpdateToken, Join(UpdatePairs(cols, n), ","));
    FirstNoToken(s, WhereToken, whereText);
    FirstNoToken(s, IdnumToken, Placeholder(idnum));
  }

  /** Text with no token left is not changed by the replacements that
      follow the table name. */
  lemma FillNothing(s: string, cols: seq<string>, n: nat, whereText: string, idnum: nat)
    requires HashFree(s)
    ensures FillTokens(s, cols, n, whereText, idnum) == s
  {
    TokensWellFormed();
    FirstNoToken(s, ColumnsToken, Join(cols, ","));
    LaterNothing(s, cols, n, whereText, idnum);
  }

  // ---------------------------------------------------------------------
  // templates whose only token is the table name
  // ---------------------------------------------------------------------

  /** The table name fills its one place; nothing else changes. */
  lemma TableOnlyText(pre: string, post: string, t: string, dc: seq<string>, prev: nat)
    requires HashFree(pre) && HashFree(post) && HashFree(t)
    ensures Prepared(t, dc, prev, pre + (TableToken + post), 0, None, None) == CollapseSpace(pre + (t + post))
  {
    TokensWellFormed();
    AllAtR(pre, TableToken, post, t);
    AllNoToken(post, TableToken, t);
    FillNothing(pre + (t + post), dc, 0, "", prev);
  }

  /** The same with the table name at the end of the template. */
  lemma TableLastText(pre: string, t: string, dc: seq<string>, prev: nat)
    requires HashFree(pre) && HashFree(t)
    ensures Prepared(t, dc, prev, pre + TableToken, 0, None, None) == CollapseSpace(pre + t)
  {
    TokensWellFormed();
    AllPastText(pre, TableToken, TableToken, t);
    AllAtLast(TableToken, t);
    FillNothing(pre + t, dc, 0, "", prev);
  }

  lemma ExistsHeadHashFree(view: string)
    requires HashFree(view)
    ensures HashFree(ExistsHead(view))
  {
  }

  lemma ColumnExistsTailHashFree(name: string, dataType: string)
    requires HashFree(name) && HashFree(dataType)
    ensures HashFree(ColumnExistsTail(name, dataType))
  {
  }

  lemma ConstraintExistsTailHashFree(name: string)
    requires HashFree(name)
    ensures HashFree(ConstraintExistsTail(name))
  {
  }

  /** The ADD COLUMN clauses of hash-free column schemas are hash-free. */
  lemma ClausesHashFree(colsSchema: seq<string>)
    requires AllHashFree(colsSchema)
    ensures HashFree(Join(AddColumnClauses(colsSchema), ", "))
  {
    var clauses := AddColumnClauses(colsSchema);
    forall c | c in clauses ensures '#' !in c {
      var i :| 0 <= i < |clauses| && clauses[i] == c;
      assert c == "ADD COLUMN " + colsSchema[i];
    }
    JoinAvoids(clauses, ", ", '#');
  }

  // ---------------------------------------------------------------------
  // insert
  // ---------------------------------------------------------------------

  /** A template `a#{tableName}b#{columns}c#{values}d` whose text pieces
      have no `#`: each token is replaced once, in place. */
  lemma ColumnsValuesShape(a: string, b: string, c: string, d: string, t: string,
                           cols: seq<string>, n: nat, prev: nat)
    requires HashFree(a) && HashFree(b) && HashFree(c) && HashFree(d) && HashFree(t) && AllHashFree(cols)
    ensures Substituted(a + (TableToken + (b + (ColumnsToken + (c + (ValuesToken + d))))), t, cols, n, "", prev)
      == a + (t + (b + (Join(cols, ",") + (c + (Join(ValuePlaceholders(n), ",") + d)))))
  {
    TokensWellFormed();
    var cj := Join(cols, ",");
    var v := Join(ValuePlaceholders(n), ",");
    var r3 := ValuesToken + d;
    var r2 := ColumnsToken + (c + r3);
    AllNoToken(d, TableToken, t);
    AllSkipR(c, ValuesToken, d, TableToken, t);
    AllSkipR(b, ColumnsToken, c + r3, TableToken, t);
    AllAtR(a, TableToken, b + r2, t);
    ColumnsHashFree(cols);
    PlaceholdersPlain(n);
    FirstPastText(a, t + (b + r2), ColumnsToken, cj);
    FirstPastText(t, b + r2, ColumnsToken, cj);
    FirstAtR(b, ColumnsToken, c + r3, cj);
    var s2 := a + (t + (b + (cj + (c + r3))));
    FirstPastText(a, t + (b + (cj + (c + r3))), ValuesToken, v);
    FirstPastText(t, b + (cj + (c + r3)), ValuesToken, v);
    FirstPastText(b, cj + (c + r3), ValuesToken, v);
    FirstPastText(cj, c + r3, ValuesToken, v);
    FirstAtR(c, ValuesToken, d, v);
    var s3 := a + (t + (b + (cj + (c + (v + d)))));
    assert ReplaceFirst(s2, ValuesToken, v) == s3;
    FirstNoToken(s3, UpdateToken, Join(UpdatePairs(cols, n), ","));
    FirstNoToken(s3, WhereToken, "");
    FirstNoToken(s3, IdnumToken, Placeholder(prev));
  }

  lemma Reassoc7(p0: string, p1: string, p2: string, p3: string, p4: string, p5: string, p6: string)
    ensures p0 + (p1 + (p2 + (p3 + (p4 + (p5 + p6))))) == p0 + p1 + p2 + p3 + p4 + p5 + p6
  {
  }

  /** `insert`, given a table name and columns without `#`: the columns
      joined with ',' and one placeholder per value, in order. */
  lemma InsertRendering(t: string, cols: seq<string>, prev: nat, n: nat)
    requires HashFree(t) && AllHashFree(cols)
    ensures Prepared(t, cols, prev, InsertTemplate, n, None, None)
      == CollapseSpace("INSERT INTO " + t + " (" + Join(cols, ",") + ") VALUES (" + Join(ValuePlaceholders(n), ",") + ")")
  {
    ColumnsValuesShape("INSERT INTO ", " (", ") VALUES (", ")", t, cols, n, prev);
    Reassoc7("INSERT INTO ", t, " (", Join(cols, ","), ") VALUES (", Join(ValuePlaceholders(n), ","), ")");
  }

  /** The insert statement of plain names has no double space. */
  lemma InsertSpacing(t: string, c: string, v: string)
    requires Ident(t) && Plain(c) && Plain(v)
    ensures NoDoubleSpace("INSERT INTO " + t + " (" + c + ") VALUES (" + v + ")")
  {
    GluePlain("INSERT INTO ", t);
    GlueAfter("INSERT INTO " + t, " (");
    GluePlain("INSERT INTO " + t + " (", c);
    GluePlain("INSERT INTO " + t + " (" + c, ")");
    GlueAfter("INSERT INTO " + t + " (" + c + ")", " VALUES (");
    assert "INSERT INTO " + t + " (" + c + ")" + " VALUES (" == "INSERT INTO " + t + " (" + c + ") VALUES (";
    GluePlain("INSERT INTO " + t + " (" + c + ") VALUES (", v);
    GluePlain("INSERT INTO " + t + " (" + c + ") VALUES (" + v, ")");
  }

  /** `insert` with a plain table name and plain columns: the exact
      statement, nothing collapsed. */
  lemma InsertText(t: string, cols: seq<string>, prev: nat, n: nat)
    requires Ident(t) && AllPlain(cols)
    ensures Prepared(t, cols, prev, InsertTemplate, n, None, None)
      == "INSERT INTO " + t + " (" + Join(cols, ",") + ") VALUES (" + Join(ValuePlaceholders(n), ",") + ")"
  {
    var c := Join(cols, ",");
    var v := Join(ValuePlaceholders(n), ",");
    ColumnsPlain(cols);
    PlaceholdersPlain(n);
    InsertRendering(t, cols, prev, n);
    InsertSpacing(t, c, v);
    CollapseNothing("INSERT INTO " + t + " (" + c + ") VALUES (" + v + ")");
  }

  // ---------------------------------------------------------------------
  // templates ending in ` #{where}`
  // ---------------------------------------------------------------------

  /** A token that does not occur before ` #{where}` is not found. */
  lemma MissingBeforeWhere(h: string, pat: string, rep: string)
    requires HashFree(h) && pat in {ColumnsToken, ValuesToken, UpdateToken}
    ensures ReplaceFirst(h + (" " + WhereToken), pat, rep) == h + (" " + WhereToken)
  {
    TokensWellFormed();
    FirstPastText(h, " " + WhereToken, pat, rep);
    FirstPastText(" ", WhereToken, pat, rep);
    FirstPastLast(WhereToken, pat, rep);
  }

  /** `#{where}` takes the where clause, then the clause's first `#{idnum}`
      takes the parameter number. */
  lemma WhereIdnum(h: string, where: Option<Where>, idnum: nat)
    requires HashFree(h)
    ensures ReplaceFirst(ReplaceFirst(h + (" " + WhereToken), WhereToken, WhereClause(where)), IdnumToken,
                         Placeholder(idnum))
      == h + (" " + WhereText(where, idnum))
  {
    TokensWellFormed();
    var wc := WhereClause(where);
    var p := Placeholder(idnum);
    FirstPastText(h, " " + WhereToken, WhereToken, wc);
    FirstPastText(" ", WhereToken, WhereToken, wc);
    FirstAtLast(WhereToken, wc);
    FirstPastText(h, " " + wc, IdnumToken, p);
    FirstPastText(" ", wc, IdnumToken, p);
    if WhereApplies(where) {
      FirstPastText(" WHERE ", where.value.sql, IdnumToken, p);
    } else {
      FirstNoToken(wc, IdnumToken, p);
    }
  }

  /** The replacements after `#{columns}` on a template ending in
      ` #{where}` with no `#{values}` or `#{updateValues}` left. */
  lemma LaterWhere(h: string, cols: seq<string>, n: nat, where: Option<Where>, idnum: nat)
    requires HashFree(h)
    ensures LaterTokens(h + (" " + WhereToken), cols, n, WhereClause(where), idnum) == h + (" " + WhereText(where, idnum))
  {
    MissingBeforeWhere(h, ValuesToken, Join(ValuePlaceholders(n), ","));
    MissingBeforeWhere(h, UpdateToken, Join(UpdatePairs(cols, n), ","));
    WhereIdnum(h, where, idnum);
  }

  /** The template `<pre>#{tableName} #{where}`: the where text follows the
      table name and a space. */
  lemma TableWhereText(pre: string, t: string, dc: seq<string>, prev: nat, where: Option<Where>)
    requires HashFree(pre) && HashFree(t)
    ensures Prepared(t, dc, prev, pre + (TableToken + (" " + WhereToken)), 0, Some([]), where)
      == CollapseSpace((pre + t) + (" " + WhereText(where, prev + WhereValueCount(where))))
  {
    TokensWellFormed();
    AllAtR(pre, TableToken, " " + WhereToken, t);
    AllPastText(" ", WhereToken, TableToken, t);
    AllPastLast(WhereToken, TableToken, t);
    Assoc(pre, t, " " + WhereToken);
    MissingBeforeWhere(pre + t, ColumnsToken, "");
    LaterWhere(pre + t, [], 0, where, prev + WhereValueCount(where));
  }

  /** The space before the where clause collapses with the clause's own
      leading space; without a clause the template's space stays. */
  lemma CollapseWhere(h: string, where: Option<Where>, idnum: nat)
    requires NoDoubleSpace(h) && h != "" && h[|h| - 1] != ' '
    ensures CollapseSpace(h + (" " + WhereText(where, idnum))) == h + RenderedWhere(where, idnum)
  {
    if WhereApplies(where) {
      var y := "WHERE " + Numbered(where.value.sql, idnum);
      assert " " + (" WHERE " + Numbered(where.value.sql, idnum)) == "  " + y;
      Assoc(h, "  ", y);
      CollapseAfter(h, y);
      Assoc(h, " ", y);
    } else {
      assert " " + "" == " ";
      GlueAfter(h, " ");
      CollapseNothing(h + " ");
    }
  }

  /** `delete(where)`: `DELETE FROM <table>` then the where text. */
  lemma DeleteText(t: string, dc: seq<string>, prev: nat, where: Option<Where>)
    requires Ident(t)
    ensures Prepared(t, dc, prev, DeleteTemplate, 0, Some([]), where)
      == "DELETE FROM " + t + RenderedWhere(where, prev + WhereValueCount(where))
  {
    TableWhereText("DELETE FROM ", t, dc, prev, where);
    GluePlain("DELETE FROM ", t);
    CollapseWhere("DELETE FROM " + t, where, prev + WhereValueCount(where));
  }

  /** `count` and `sum` fill `#{column}` in their templates first; the
      column cannot add a token the later steps would see earlier. */
  lemma AggregateTemplate(fn: string, column: string)
    requires HashFree(fn)
    ensures ReplaceFirst(AggregateText(fn, ColumnToken), ColumnToken, column) == AggregateText(fn, column)
  {
    TokensWellFormed();
    var x := "SELECT " + fn + "(";
    var r := ") FROM " + (TableToken + (" " + WhereToken));
    Assoc(x + ColumnToken, ") FROM ", TableToken + (" " + WhereToken));
    Assoc(x, ColumnToken, r);
    FirstAtR(x, ColumnToken, r, column);
    Assoc(x, column, r);
    Assoc(x + column, ") FROM ", TableToken + (" " + WhereToken));
  }

  /** `count`/`sum` of a plain column: `SELECT <fn>(<column>) FROM <table>`
      then the where text. */
  lemma AggregateRendering(fn: string, column: string, t: string, dc: seq<string>, prev: nat, where: Option<Where>)
    requires Plain(fn) && Ident(column) && Ident(t)
    ensures Prepared(t, dc, prev, AggregateText(fn, column), 0, Some([]), where)
      == AggregateHead(fn, column) + t + RenderedWhere(where, prev + WhereValueCount(where))
  {
    var head := AggregateHead(fn, column);
    TableWhereText(head, t, dc, prev, where);
    AggregateSpacing(fn, column, t);
    CollapseWhere(head + t, where, prev + WhereValueCount(where));
  }

  /** The aggregate statement of plain names has no double space and ends
      in the table name. */
  lemma AggregateSpacing(fn: string, column: string, t: string)
    requires Plain(fn) && Ident(column) && Ident(t)
    ensures var h := AggregateHead(fn, column) + t; NoDoubleSpace(h) && h != "" && h[|h| - 1] != ' '
  {
    GluePlain("SELECT ", fn);
    GluePlain("SELECT " + fn, "(");
    GluePlain("SELECT " + fn + "(", column);
    GluePlain("SELECT " + fn + "(" + column, ")");
    GlueAfter("SELECT " + fn + "(" + column + ")", " FROM ");
    assert "SELECT " + fn + "(" + column + ")" + " FROM " == AggregateHead(fn, column);
    GluePlain(AggregateHead(fn, column), t);
  }

  // ---------------------------------------------------------------------
  // update
  // ---------------------------------------------------------------------

  /** The update template after the table-name pass. */
  function UpdateStage(t: string, pairs: string): string
  {
    "UPDATE " + (t + (" SET " + (pairs + (" " + WhereToken))))
  }

  lemma UpdateTablePass(t: string)
    requires HashFree(t)
    ensures ReplaceAll(UpdateTemplate, TableToken, t) == UpdateStage(t, UpdateToken)
  {
    TokensWellFormed();
    AllAtR("UPDATE ", TableToken, " SET " + (UpdateToken + (" " + WhereToken)), t);
    AllSkipR(" SET ", UpdateToken, " " + WhereToken, TableToken, t);
    AllPastText(" ", WhereToken, TableToken, t);
    AllPastLast(WhereToken, TableToken, t);
  }

  /** Neither `#{columns}` nor `#{values}` is in the update template. */
  lemma UpdateMissing(t: string, pat: string, rep: string)
    requires HashFree(t) && pat in {ColumnsToken, ValuesToken}
    ensures ReplaceFirst(UpdateStage(t, UpdateToken), pat, rep) == UpdateStage(t, UpdateToken)
  {
    TokensWellFormed();
    FirstPastText("UPDATE ", t + (" SET " + (UpdateToken + (" " + WhereToken))), pat, rep);
    FirstPastText(t, " SET " + (UpdateToken + (" " + WhereToken)), pat, rep);
    FirstSkipR(" SET ", UpdateToken, " " + WhereToken, pat, rep);
    MissingBeforeWhere("", pat, rep);
    assert "" + (" " + WhereToken) == " " + WhereToken;
  }

  lemma UpdateSetPass(t: string, p: string)
    requires HashFree(t)
    ensures ReplaceFirst(UpdateStage(t, UpdateToken), UpdateToken, p) == UpdateStage(t, p)
  {
    TokensWellFormed();
    FirstPastText("UPDATE ", t + (" SET " + (UpdateToken + (" " + WhereToken))), UpdateToken, p);
    FirstPastText(t, " SET " + (UpdateToken + (" " + WhereToken)), UpdateToken, p);
    FirstAtR(" SET ", UpdateToken, " " + WhereToken, p);
  }

  /** `update`, given names without `#`: `UPDATE <table> SET <pairs>`, a
      space, then the where text. */
  lemma UpdateRendering(t: string, dc: seq<string>, prev: nat, n: nat, cols: Option<seq<string>>,
                        where: Option<Where>)
    requires HashFree(t) && AllHashFree(EffectiveColumns(cols, dc))
    ensures Prepared(t, dc, prev, UpdateTemplate, n, cols, where)
      == CollapseSpace(("UPDATE " + t + " SET " + Join(UpdatePairs(EffectiveColumns(cols, dc), n), ","))
                       + (" " + WhereText(where, prev + WhereValueCount(where))))
  {
    var ec := EffectiveColumns(cols, dc);
    var p := Join(UpdatePairs(ec, n), ",");
    var v := Join(ValuePlaceholders(n), ",");
    var idnum := prev + WhereValueCount(where);
    PairsHashFree(ec, n);
    UpdateTablePass(t);
    UpdateMissing(t, ColumnsToken, Join(ec, ","));
    UpdateMissing(t, ValuesToken, v);
    UpdateSetPass(t, p);
    Assoc4("UPDATE ", t, " SET ", p, " " + WhereToken);
    WhereIdnum("UPDATE " + t + " SET " + p, where, idnum);
  }

  /** `update` with plain names and at least one value: the exact
      statement, `UPDATE <table> SET c1=$1,…,cn=$n` (columns past the end of
      the list read "undefined"), then the where text. */
  lemma UpdateText(t: string, dc: seq<string>, prev: nat, n: nat, cols: Option<seq<string>>, where: Option<Where>)
    requires Ident(t) && AllPlain(EffectiveColumns(cols, dc)) && n > 0
    ensures Prepared(t, dc, prev, UpdateTemplate, n, cols, where)
      == "UPDATE " + t + " SET " + Join(UpdatePairs(EffectiveColumns(cols, dc), n), ",")
         + RenderedWhere(where, prev + WhereValueCount(where))
  {
    var ec := EffectiveColumns(cols, dc);
    var p := Join(UpdatePairs(ec, n), ",");
    assert AllHashFree(ec);
    UpdateRendering(t, dc, prev, n, cols, where);
    PairsPlain(ec, n);
    UpdateSpacing(t, p);
    CollapseWhere("UPDATE " + t + " SET " + p, where, prev + WhereValueCount(where));
  }

  /** The update statement of plain names has no double space and ends in
      the SET list. */
  lemma UpdateSpacing(t: string, p: string)
    requires Ident(t) && Ident(p)
    ensures var h := "UPDATE " + t + " SET " + p; NoDoubleSpace(h) && h != "" && h[|h| - 1] != ' '
  {
    GluePlain("UPDATE ", t);
    GlueAfter("UPDATE " + t, " SET ");
    GluePlain("UPDATE " + t + " SET ", p);
  }

  // ---------------------------------------------------------------------
  // select
  // ---------------------------------------------------------------------

  /** The LIMIT/OFFSET text has no `#`. */
  lemma LimitOffsetHashFree(offset: Option<nat>, limit: Option<nat>)
    ensures HashFree(LimitOffset(offset, limit))
  {
  }

  /** The three-way test of `select` amounts to: a LIMIT clause exactly when
      the limit is truthy, followed by an OFFSET clause exactly when the
      offset is truthy (an offset or limit of 0 adds nothing). */
  lemma LimitOffsetClauses(offset: Option<nat>, limit: Option<nat>)
    ensures LimitOffset(offset, limit) == LimitClause(limit) + OffsetClause(offset)
  {
    if TruthyNat(limit) && !TruthyNat(offset) {
      assert LimitClause(limit) + "" == LimitClause(limit);
    }
  }

  /** The select template once the table name and the columns are in. */
  function SelectStage(cj: string, t: string, tail: string): string
  {
    "SELECT " + (cj + (" FROM " + (t + tail)))
  }

  /** The select template's head, with the table name and the column list
      filled, for a tail the table-name pass leaves alone. */
  lemma SelectHead(t: string, cols: seq<string>, tail: string)
    requires HashFree(t) && ReplaceAll(tail, TableToken, t) == tail
    ensures ReplaceFirst(ReplaceAll(SelectStage(ColumnsToken, TableToken, tail), TableToken, t), ColumnsToken,
                         Join(cols, ","))
      == SelectStage(Join(cols, ","), t, tail)
  {
    TokensWellFormed();
    AllSkipR("SELECT ", ColumnsToken, " FROM " + (TableToken + tail), TableToken, t);
    AllAtR(" FROM ", TableToken, tail, t);
    FirstAtR("SELECT ", ColumnsToken, " FROM " + (t + tail), Join(cols, ","));
  }

  /** A select tail without `#`. */
  lemma SelectHashFreeTail(t: string, cols: seq<string>, tail: string, whereText: string, idnum: nat)
    requires HashFree(t) && AllHashFree(cols) && HashFree(tail)
    ensures Substituted(SelectStage(ColumnsToken, TableToken, tail), t, cols, 0, whereText, idnum)
      == SelectStage(Join(cols, ","), t, tail)
  {
    TokensWellFormed();
    AllNoToken(tail, TableToken, t);
    SelectHead(t, cols, tail);
    ColumnsHashFree(cols);
    LaterNothing(SelectStage(Join(cols, ","), t, tail), cols, 0, whereText, idnum);
  }

  /** The replacements after `#{columns}` on text whose only token is one
      `#{idnum}`. */
  lemma LaterIdnumOnly(g: string, b: string, cols: seq<string>, n: nat, whereText: string, idnum: nat)
    requires HashFree(g) && HashFree(b)
    ensures LaterTokens(g + (IdnumToken + b), cols, n, whereText, idnum) == g + (Placeholder(idnum) + b)
  {
    TokensWellFormed();
    var v := Join(ValuePlaceholders(n), ",");
    var p := Join(UpdatePairs(cols, n), ",");
    FirstSkipR(g, IdnumToken, b, ValuesToken, v);
    FirstNoToken(b, ValuesToken, v);
    FirstSkipR(g, IdnumToken, b, UpdateToken, p);
    FirstNoToken(b, UpdateToken, p);
    FirstSkipR(g, IdnumToken, b, WhereToken, whereText);
    FirstNoToken(b, WhereToken, whereText);
    FirstAtR(g, IdnumToken, b, Placeholder(idnum));
  }

  /** A select tail `h#{idnum}b` with no other `#`. */
  lemma SelectIdnumTail(t: string, cols: seq<string>, h: string, b: string, whereText: string, idnum: nat)
    requires HashFree(t) && AllHashFree(cols) && HashFree(h) && HashFree(b)
    ensures Substituted(SelectStage(ColumnsToken, TableToken, h + (IdnumToken + b)), t, cols, 0, whereText, idnum)
      == SelectStage(Join(cols, ","), t, h + (Placeholder(idnum) + b))
  {
    TokensWellFormed();
    var cj := Join(cols, ",");
    AllSkipR(h, IdnumToken, b, TableToken, t);
    AllNoToken(b, TableToken, t);
    SelectHead(t, cols, h + (IdnumToken + b));
    ColumnsHashFree(cols);
    var g := "SELECT " + cj + " FROM " + t + h;
    Assoc4("SELECT ", cj, " FROM ", t, h + (IdnumToken + b));
    Assoc(g, IdnumToken, b);
    Assoc("SELECT " + cj + " FROM " + t, h, IdnumToken + b);
    LaterIdnumOnly(g, b, cols, 0, whereText, idnum);
    Assoc4("SELECT ", cj, " FROM ", t, h + (Placeholder(idnum) + b));
    Assoc("SELECT " + cj + " FROM " + t, h, Placeholder(idnum) + b);
  }

  /** A condition `a#{idnum}b` split at its token. */
  lemma IdnumSplit(sql: string, k: nat, idnum: nat)
    requires IdnumAt(sql, k)
    ensures sql == sql[..k] + (IdnumToken + sql[k + |IdnumToken|..])
    ensures Numbered(sql, idnum) == sql[..k] + (Placeholder(idnum) + sql[k + |IdnumToken|..])
  {
    TokensWellFormed();
    var a, b := sql[..k], sql[k + |IdnumToken|..];
    assert sql == a + (sql[k..k + |IdnumToken|] + b);
    FirstAtR(a, IdnumToken, b, Placeholder(idnum));
  }

  /** `select(options)`, given a table name and columns without `#` and a
      condition with at most one `#{idnum}`: the columns, the table, the
      LIMIT/OFFSET text and the where condition with its parameter
      numbered, in that order. */
  lemma SelectRendering(opts: FindOptions, t: string, dc: seq<string>, prev: nat)
    requires HashFree(t) && AllHashFree(EffectiveColumns(opts.columns, dc)) && SelectConditionShape(opts.where)
    ensures Prepared(t, dc, prev, SelectText(opts), 0, opts.columns, opts.where)
      == CollapseSpace(SelectStage(Join(EffectiveColumns(opts.columns, dc), ","), t,
                                   LimitOffset(opts.offset, opts.limit)
                                   + SelectWhereText(opts.where, prev + WhereValueCount(opts.where))))
  {
    TokensWellFormed();
    var ec := EffectiveColumns(opts.columns, dc);
    var lo := LimitOffset(opts.offset, opts.limit);
    var wc := WhereClause(opts.where);
    var idnum := prev + WhereValueCount(opts.where);
    LimitOffsetHashFree(opts.offset, opts.limit);
    assert SelectText(opts) == SelectStage(ColumnsToken, TableToken, SelectTail(opts));
    if opts.where.None? || opts.where.value.sql == "" || HashFree(opts.where.value.sql) {
      if opts.where.Some? && opts.where.value.sql != "" {
        FirstNoToken(opts.where.value.sql, IdnumToken, Placeholder(idnum));
      }
      SelectHashFreeTail(t, ec, SelectTail(opts), wc, idnum);
    } else {
      var sql := opts.where.value.sql;
      var k: nat :| k < |sql| && IdnumAt(sql, k);
      var a, b := sql[..k], sql[k + |IdnumToken|..];
      IdnumSplit(sql, k, idnum);
      Assoc(lo + " WHERE ", a, IdnumToken + b);
      Assoc(lo, " WHERE ", a + (IdnumToken + b));
      SelectIdnumTail(t, ec, lo + " WHERE " + a, b, wc, idnum);
      Assoc(lo + " WHERE ", a, Placeholder(idnum) + b);
      Assoc(lo, " WHERE ", a + (Placeholder(idnum) + b));
    }
  }

  /** The select rendering read left to right. */
  lemma SelectStatement(opts: FindOptions, t: string, dc: seq<string>, prev: nat)
    requires HashFree(t) && AllHashFree(EffectiveColumns(opts.columns, dc)) && SelectConditionShape(opts.where)
    ensures Prepared(t, dc, prev, SelectText(opts), 0, opts.columns, opts.where)
      == CollapseSpace("SELECT " + Join(EffectiveColumns(opts.columns, dc), ",") + " FROM " + t
                       + LimitOffset(opts.offset, opts.limit)
                       + SelectWhereText(opts.where, prev + WhereValueCount(opts.where)))
  {
    var cj := Join(EffectiveColumns(opts.columns, dc), ",");
    var lo := LimitOffset(opts.offset, opts.limit);
    var sw := SelectWhereText(opts.where, prev + WhereValueCount(opts.where));
    SelectRendering(opts, t, dc, prev);
    Assoc4("SELECT ", cj, " FROM ", t, lo + sw);
    Assoc("SELECT " + cj + " FROM " + t, lo, sw);
  }

  // ---------------------------------------------------------------------
  // foreign key
  // ---------------------------------------------------------------------

  lemma ForeignKeyTailHashFree(opts: ForeignKeyOptions)
    requires HashFree(opts.column) && HashFree(opts.refTable) && HashFree(opts.refColumn)
    requires HashFree(opts.onDelete) && HashFree(opts.onUpdate)
    ensures HashFree(ForeignKeyTail(opts))
  {
  }

  /** `foreignKey`: the table name appears twice, as the altered table and
      as the prefix of the constraint's name. */
  lemma ForeignKeyRendering(opts: ForeignKeyOptions, t: string, dc: seq<string>, prev: nat)
    requires HashFree(t) && HashFree(ForeignKeyTail(opts))
    ensures Prepared(t, dc, prev, ForeignKeyText(opts), 0, None, None)
      == CollapseSpace("ALTER TABLE " + t + " ADD CONSTRAINT " + t + ForeignKeyTail(opts))
  {
    TokensWellFormed();
    var tail := ForeignKeyTail(opts);
    AllAtR("ALTER TABLE ", TableToken, " ADD CONSTRAINT " + (TableToken + tail), t);
    AllAtR(" ADD CONSTRAINT ", TableToken, tail, t);
    AllNoToken(tail, TableToken, t);
    var s := "ALTER TABLE " + (t + (" ADD CONSTRAINT " + (t + tail)));
    FillNothing(s, dc, 0, "", prev);
    Assoc4("ALTER TABLE ", t, " ADD CONSTRAINT ", t, tail);
  }
}
