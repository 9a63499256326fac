/** String helpers the statement builder and the column model are built on:
    JavaScript's `Array.prototype.join`, `String.prototype.split` with a
    one-character separator, `replace` with a string pattern (first
    occurrence) and with a global pattern, and the decimal rendering of a
    natural number. */
module Text {

  // ---------------------------------------------------------------------
  // join
  // ---------------------------------------------------------------------

  /** `parts.join(sep)`: the parts with `sep` between neighbours. */
  function Join(parts: seq<string>, sep: string): string
  {
    if |parts| == 0 then ""
    else if |parts| == 1 then parts[0]
    else parts[0] + sep + Join(parts[1..], sep)
  }

  /** A character absent from the separator and from every part is absent
      from the joined text. */
  lemma {:induction false} JoinAvoids(parts: seq<string>, sep: string, c: char)
    requires c !in sep
    requires forall p :: p in parts ==> c !in p
    ensures c !in Join(parts, sep)
  {
    if |parts| > 1 {
      JoinAvoids(parts[1..], sep, c);
    }
  }

  /** Joining a non-empty list of non-empty parts gives non-empty text that
      starts with the first part's first character and ends with the last
      part's last character. */
  lemma {:induction false} JoinEnds(parts: seq<string>, sep: string)
    requires |parts| > 0
    requires forall i :: 0 <= i < |parts| ==> parts[i] != ""
    ensures var j := Join(parts, sep);
      j != "" && j[0] == parts[0][0] && j[|j| - 1] == parts[|parts| - 1][|parts[|parts| - 1]| - 1]
  {
    if |parts| > 1 {
      JoinEnds(parts[1..], sep);
    }
  }

  // ---------------------------------------------------------------------
  // split
  // ---------------------------------------------------------------------

  /** `s.split(sep)` for a one-character separator: the maximal runs
      between separators, empty runs included; never an empty list. */
  function Split(s: string, sep: char): (r: seq<string>)
    ensures |r| >= 1
    decreases |s|
  {
    if |s| == 0 then [""]
    else
      var rest := Split(s[1..], sep);
      if s[0] == sep then [""] + rest
      else [[s[0]] + rest[0]] + rest[1..]
  }

  /** Splitting and joining back with the same separator is the identity. */
  lemma {:induction false} JoinSplit(s: string, sep: char)
    ensures Join(Split(s, sep), [sep]) == s
    decreases |s|
  {
    if |s| > 0 {
      var rest := Split(s[1..], sep);
      JoinSplit(s[1..], sep);
      if s[0] == sep {
        assert Split(s, sep) == [""] + rest;
        assert s == [sep] + s[1..];
      } else {
        var r := Split(s, sep);
        assert r == [[s[0]] + rest[0]] + rest[1..];
        if |rest| == 1 {
          assert s == [s[0]] + s[1..];
        } else {
          assert r[1..] == rest[1..];
          assert Join(rest, [sep]) == rest[0] + [sep] + Join(rest[1..], [sep]);
          assert s == [s[0]] + s[1..];
        }
      }
    }
  }

  /** No piece of a split contains the separator. */
  lemma {:induction false} SplitPiecesAvoidSeparator(s: string, sep: char)
    ensures forall p :: p in Split(s, sep) ==> sep !in p
    decreases |s|
  {
    if |s| > 0 {
      SplitPiecesAvoidSeparator(s[1..], sep);
    }
  }

  /** Text without the separator splits into itself alone. */
  lemma {:induction false} SplitNoSeparator(a: string, sep: char)
    requires sep !in a
    ensures Split(a, sep) == [a]
    decreases |a|
  {
    if |a| > 0 {
      SplitNoSeparator(a[1..], sep);
      assert a == [a[0]] + a[1..];
    }
  }

  /** Text before the first separator is the first piece; the pieces after
      it are the split of the remainder. */
  lemma {:induction false} SplitAfterFirst(a: string, sep: char, b: string)
    requires sep !in a
    ensures Split(a + [sep] + b, sep) == [a] + Split(b, sep)
    decreases |a|
  {
    if |a| == 0 {
      assert a + [sep] + b == [sep] + b;
      assert ([sep] + b)[1..] == b;
    } else {
      SplitAfterFirst(a[1..], sep, b);
      assert (a + [sep] + b)[1..] == a[1..] + [sep] + b;
      assert [a[0]] + a[1..] == a;
    }
  }

  /** Joining parts that avoid the separator and splitting the result again
      gives the parts back. */
  lemma {:induction false} SplitJoin(parts: seq<string>, sep: char)
    requires |parts| > 0
    requires forall i :: 0 <= i < |parts| ==> sep !in parts[i]
    ensures Split(Join(parts, [sep]), sep) == parts
  {
    if |parts| == 1 {
      SplitNoSeparator(parts[0], sep);
    } else {
      SplitJoin(parts[1..], sep);
      SplitAfterFirst(parts[0], sep, Join(parts[1..], [sep]));
      assert [parts[0]] + parts[1..] == parts;
    }
  }

  // ---------------------------------------------------------------------
  // decimal rendering of naturals (template literals `${n}`)
  // ---------------------------------------------------------------------

  function DigitChar(d: nat): (c: char)
    requires d < 10
    ensures '0' <= c <= '9'
  {
    ('0' as int + d) as char
  }

  /** The decimal text of `n`, most significant digit first. */
  function NatToString(n: nat): (r: string)
    ensures |r| >= 1 && (|r| == 1 <==> n < 10)
    ensures forall i :: 0 <= i < |r| ==> '0' <= r[i] <= '9'
  {
    if n < 10 then [DigitChar(n)] else NatToString(n / 10) + [DigitChar(n % 10)]
  }

  /** Decimal rendering is injective: distinct numbers render differently. */
  lemma {:induction false} NatToStringInjective(a: nat, b: nat)
    requires NatToString(a) == NatToString(b)
    ensures a == b
  {
    var s := NatToString(a);
    if a < 10 {
      assert s[0] == DigitChar(a) && s[0] == DigitChar(b);
    } else {
      var pa, pb := NatToString(a / 10), NatToString(b / 10);
      assert s == pa + [DigitChar(a % 10)] && s == pb + [DigitChar(b % 10)];
      assert s[|s| - 1] == DigitChar(a % 10) && s[|s| - 1] == DigitChar(b % 10);
      assert pa == s[..|s| - 1] == pb;
      NatToStringInjective(a / 10, b / 10);
    }
  }

  // ---------------------------------------------------------------------
  // replace
  // ---------------------------------------------------------------------

  /** `pat` occurs in `s` starting at index `i`. */
  predicate Occurs(s: string, pat: string, i: nat)
  {
    i + |pat| <= |s| && s[i..i + |pat|] == pat
  }

  /** `pat` occurs nowhere in `s` starting before index `k`. */
  predicate NoMatchBefore(s: string, pat: string, k: nat)
  {
    forall j :: 0 <= j < k ==> !Occurs(s, pat, j)
  }

  /** `s.replace(pat, rep)` with a string pattern: the first occurrence of
      `pat`, if any, is replaced by `rep` (taken literally). */
  function ReplaceFirst(s: string, pat: string, rep: string): string
    decreases |s|
  {
    if |pat| <= |s| && s[..|pat|] == pat then rep + s[|pat|..]
    else if |s| == 0 then s
    else [s[0]] + ReplaceFirst(s[1..], pat, rep)
  }

  /** `s.replace(/pat/g, rep)`: every occurrence, scanning left to right
      without overlap, is replaced by `rep` (taken literally). */
  function ReplaceAll(s: string, pat: string, rep: string): string
    requires |pat| > 0
    decreases |s|
  {
    if |s| == 0 then ""
    else if |pat| <= |s| && s[..|pat|] == pat then rep + ReplaceAll(s[|pat|..], pat, rep)
    else [s[0]] + ReplaceAll(s[1..], pat, rep)
  }

  /** Replacing skips a prefix in which no occurrence starts. */
  lemma {:induction false} ReplaceFirstSkip(x: string, y: string, pat: string, rep: string)
    requires NoMatchBefore(x + y, pat, |x|)
    ensures ReplaceFirst(x + y, pat, rep) == x + ReplaceFirst(y, pat, rep)
    decreases |x|
  {
    if |x| > 0 {
      var s := x + y;
      assert !(|pat| <= |s| && s[..|pat|] == pat) by {
        assert !Occurs(s, pat, 0);
        if |pat| <= |s| {
          assert s[0..|pat|] == s[..|pat|];
        }
      }
      assert s[0] == x[0] && s[1..] == x[1..] + y;
      forall j | 0 <= j < |x| - 1 ensures !Occurs(x[1..] + y, pat, j) {
        assert !Occurs(s, pat, j + 1);
        if j + |pat| <= |s| - 1 {
          assert (x[1..] + y)[j..j + |pat|] == s[j + 1..j + 1 + |pat|];
        }
      }
      ReplaceFirstSkip(x[1..], y, pat, rep);
      assert ReplaceFirst(s, pat, rep) == [s[0]] + ReplaceFirst(s[1..], pat, rep);
      assert [x[0]] + x[1..] == x;
      assert x + ReplaceFirst(y, pat, rep) == [x[0]] + (x[1..] + ReplaceFirst(y, pat, rep));
    } else {
      assert x + y == y;
    }
  }

  /** The global replacement skips a prefix in which no occurrence starts. */
  lemma {:induction false} ReplaceAllSkip(x: string, y: string, pat: string, rep: string)
    requires |pat| > 0
    requires NoMatchBefore(x + y, pat, |x|)
    ensures ReplaceAll(x + y, pat, rep) == x + ReplaceAll(y, pat, rep)
    decreases |x|
  {
    if |x| > 0 {
      var s := x + y;
      assert !(|pat| <= |s| && s[..|pat|] == pat) by {
        assert !Occurs(s, pat, 0);
        if |pat| <= |s| {
          assert s[0..|pat|] == s[..|pat|];
        }
      }
      assert s[0] == x[0] && s[1..] == x[1..] + y;
      forall j | 0 <= j < |x| - 1 ensures !Occurs(x[1..] + y, pat, j) {
        assert !Occurs(s, pat, j + 1);
        if j + |pat| <= |s| - 1 {
          assert (x[1..] + y)[j..j + |pat|] == s[j + 1..j + 1 + |pat|];
        }
      }
      ReplaceAllSkip(x[1..], y, pat, rep);
      assert ReplaceAll(s, pat, rep) == [s[0]] + ReplaceAll(s[1..], pat, rep);
      assert [x[0]] + x[1..] == x;
      assert x + ReplaceAll(y, pat, rep) == [x[0]] + (x[1..] + ReplaceAll(y, pat, rep));
    } else {
      assert x + y == y;
    }
  }

  /** The reference meaning of `ReplaceFirst`: with `i` the first index
      where `pat` occurs, the text around it is kept and `pat` becomes
      `rep`; without an occurrence the text is unchanged. */
  lemma ReplaceFirstMeaning(s: string, pat: string, rep: string, i: nat)
    requires Occurs(s, pat, i) && NoMatchBefore(s, pat, i)
    ensures ReplaceFirst(s, pat, rep) == s[..i] + rep + s[i + |pat|..]
  {
    assert s == s[..i] + s[i..];
    assert NoMatchBefore(s[..i] + s[i..], pat, |s[..i]|);
    ReplaceFirstSkip(s[..i], s[i..], pat, rep);
    assert s[i..][..|pat|] == pat;
  }

  /** Without any occurrence, `ReplaceFirst` leaves the text unchanged. */
  lemma ReplaceFirstAbsent(s: string, pat: string, rep: string)
    requires |pat| > 0
    requires NoMatchBefore(s, pat, |s| + 1)
    ensures ReplaceFirst(s, pat, rep) == s
  {
    assert s + "" == s;
    ReplaceFirstSkip(s, "", pat, rep);
  }

  /** Without any occurrence, `ReplaceAll` leaves the text unchanged. */
  lemma ReplaceAllAbsent(s: string, pat: string, rep: string)
    requires |pat| > 0
    requires NoMatchBefore(s, pat, |s| + 1)
    ensures ReplaceAll(s, pat, rep) == s
  {
    assert s + "" == s;
    ReplaceAllSkip(s, "", pat, rep);
  }

  // ---------------------------------------------------------------------
  // template tokens: `#{name}`
  // ---------------------------------------------------------------------

  predicate HashFree(s: string)
  {
    '#' !in s
  }

  /** A template token: `#{` then a name, with no other `#`. */
  predicate IsToken(t: string)
  {
    |t| >= 3 && t[0] == '#' && t[1] == '{' && '#' !in t[1..]
  }

  /** Two tokens that differ in their first name character. */
  predicate Distinct(t: string, u: string)
  {
    IsToken(t) && IsToken(u) && t[2] != u[2]
  }

  lemma HashFreeNoMatch(x: string, y: string, pat: string)
    requires HashFree(x) && IsToken(pat)
    ensures NoMatchBefore(x + y, pat, |x|)
  {
    forall j | 0 <= j < |x| ensures !Occurs(x + y, pat, j) {
      if j + |pat| <= |x + y| {
        assert (x + y)[j..j + |pat|][0] == x[j] != pat[0];
      }
    }
  }

  lemma TokenNoMatch(tok: string, y: string, pat: string)
    requires Distinct(tok, pat)
    ensures NoMatchBefore(tok + y, pat, |tok|)
  {
    var s := tok + y;
    forall j | 0 <= j < |tok| ensures !Occurs(s, pat, j) {
      if j + |pat| <= |s| {
        if j == 0 {
          assert s[j..j + |pat|][2] == tok[2] != pat[2];
        } else {
          assert tok[j] == tok[1..][j - 1] != '#';
          assert s[j..j + |pat|][0] == tok[j] != pat[0];
        }
      }
    }
  }

  /** `ReplaceFirst` passes over hash-free text. */
  lemma FirstPastText(x: string, y: string, pat: string, rep: string)
    requires HashFree(x) && IsToken(pat)
    ensures ReplaceFirst(x + y, pat, rep) == x + ReplaceFirst(y, pat, rep)
  {
    HashFreeNoMatch(x, y, pat);
    ReplaceFirstSkip(x, y, pat, rep);
  }

  /** `ReplaceFirst` passes over a different token. */
  lemma FirstPastToken(tok: string, y: string, pat: string, rep: string)
    requires Distinct(tok, pat)
    ensures ReplaceFirst(tok + y, pat, rep) == tok + ReplaceFirst(y, pat, rep)
  {
    TokenNoMatch(tok, y, pat);
    ReplaceFirstSkip(tok, y, pat, rep);
  }

  /** `ReplaceFirst` replaces the token it meets first and stops. */
  lemma FirstAtToken(pat: string, y: string, rep: string)
    ensures ReplaceFirst(pat + y, pat, rep) == rep + y
  {
    assert (pat + y)[..|pat|] == pat;
    assert (pat + y)[|pat|..] == y;
  }

  /** A token at the very end of the text. */
  lemma FirstAtLast(pat: string, rep: string)
    ensures ReplaceFirst(pat, pat, rep) == rep
  {
    assert pat + "" == pat;
    FirstAtToken(pat, "", rep);
    assert rep + "" == rep;
  }

  /** A different token at the very end of the text is kept. */
  lemma FirstPastLast(tok: string, pat: string, rep: string)
    requires Distinct(tok, pat)
    ensures ReplaceFirst(tok, pat, rep) == tok
  {
    assert tok + "" == tok;
    FirstPastToken(tok, "", pat, rep);
  }

  /** Hash-free text contains no token to replace. */
  lemma FirstNoToken(s: string, pat: string, rep: string)
    requires HashFree(s) && IsToken(pat)
    ensures ReplaceFirst(s, pat, rep) == s
  {
    FirstPastText(s, "", pat, rep);
    assert s + "" == s;
  }

  /** `ReplaceAll` passes over hash-free text. */
  lemma AllPastText(x: string, y: string, pat: string, rep: string)
    requires HashFree(x) && IsToken(pat)
    ensures ReplaceAll(x + y, pat, rep) == x + ReplaceAll(y, pat, rep)
  {
    HashFreeNoMatch(x, y, pat);
    ReplaceAllSkip(x, y, pat, rep);
  }

  /** `ReplaceAll` passes over a different token. */
  lemma AllPastToken(tok: string, y: string, pat: string, rep: string)
    requires Distinct(tok, pat)
    ensures ReplaceAll(tok + y, pat, rep) == tok + ReplaceAll(y, pat, rep)
  {
    TokenNoMatch(tok, y, pat);
    ReplaceAllSkip(tok, y, pat, rep);
  }

  /** `ReplaceAll` replaces the token it meets and carries on after it. */
  lemma AllAtToken(pat: string, y: string, rep: string)
    requires |pat| > 0
    ensures ReplaceAll(pat + y, pat, rep) == rep + ReplaceAll(y, pat, rep)
  {
    assert (pat + y)[..|pat|] == pat;
    assert (pat + y)[|pat|..] == y;
  }

  /** A different token at the very end of the text is kept by the global
      replacement too. */
  lemma AllPastLast(tok: string, pat: string, rep: string)
    requires Distinct(tok, pat)
    ensures ReplaceAll(tok, pat, rep) == tok
  {
    assert tok + "" == tok;
    AllPastToken(tok, "", pat, rep);
  }

  /** A token at the very end of the text, replaced globally. */
  lemma AllAtLast(pat: string, rep: string)
    requires |pat| > 0
    ensures ReplaceAll(pat, pat, rep) == rep
  {
    assert pat + "" == pat;
    AllAtToken(pat, "", rep);
    assert ReplaceAll("", pat, rep) == "";
    assert rep + "" == rep;
  }

  /** Hash-free text contains no token to replace globally. */
  lemma AllNoToken(s: string, pat: string, rep: string)
    requires HashFree(s) && IsToken(pat)
    ensures ReplaceAll(s, pat, rep) == s
  {
    AllPastText(s, "", pat, rep);
    assert s + "" == s;
  }

  // ---------------------------------------------------------------------
  // double spaces: `.replace('  ', ' ')`
  // ---------------------------------------------------------------------

  predicate NoDoubleSpace(s: string)
  {
    forall i :: 0 <= i < |s| - 1 ==> !(s[i] == ' ' && s[i + 1] == ' ')
  }

  /** `s.replace('  ', ' ')`: the first double space becomes one space. */
  function CollapseSpace(s: string): string
  {
    ReplaceFirst(s, "  ", " ")
  }

  /** Text without a double space is left as it is. */
  lemma CollapseNothing(s: string)
    requires NoDoubleSpace(s)
    ensures CollapseSpace(s) == s
  {
    forall j | 0 <= j < |s| + 1 ensures !Occurs(s, "  ", j) {
      if j + 2 <= |s| {
        assert s[j..j + 2][0] == s[j] && s[j..j + 2][1] == s[j + 1];
      }
    }
    ReplaceFirstAbsent(s, "  ", " ");
  }

  /** When `x` has no double space and does not end in a space, the first
      double space of `x + "  " + y` is the one after `x`; it is collapsed
      and `y` is kept whatever it holds. */
  lemma CollapseAfter(x: string, y: string)
    requires NoDoubleSpace(x) && (x == "" || x[|x| - 1] != ' ')
    ensures CollapseSpace(x + "  " + y) == x + " " + y
  {
    var s := x + ("  " + y);
    assert x + "  " + y == s;
    forall j | 0 <= j < |x| ensures !Occurs(s, "  ", j) {
      assert s[j..j + 2][0] == s[j] == x[j] && s[j..j + 2][1] == s[j + 1];
      if j < |x| - 1 {
        assert s[j + 1] == x[j + 1];
      }
    }
    ReplaceFirstSkip(x, "  " + y, "  ", " ");
    FirstAtToken("  ", y, " ");
  }

  /** Gluing two texts without a double space adds none unless one ends
      and the other starts with a space. */
  lemma NoDoubleSpaceAppend(a: string, b: string)
    requires NoDoubleSpace(a) && NoDoubleSpace(b)
    requires a == "" || b == "" || a[|a| - 1] != ' ' || b[0] != ' '
    ensures NoDoubleSpace(a + b)
  {
    var s := a + b;
    forall i | 0 <= i < |s| - 1 ensures !(s[i] == ' ' && s[i + 1] == ' ') {
      if i < |a| - 1 {
        assert s[i] == a[i] && s[i + 1] == a[i + 1];
      } else if i == |a| - 1 {
        assert s[i] == a[|a| - 1] && s[i + 1] == b[0];
      } else {
        assert s[i] == b[i - |a|] && s[i + 1] == b[i - |a| + 1];
      }
    }
  }
}
