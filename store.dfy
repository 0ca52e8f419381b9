/** How values from a request reach PostgreSQL through node-postgres: the
    conversion of a parameter to a row key, of `undefined` to NULL, and the
    text comparison used by `WHERE column = $1`. The tables themselves are
    maps from the SERIAL id to a row, held by each controller. */
module Store {
  import opened Js

  /** What `WHERE id = $1` does with a parameter. */
  datatype KeyLookup =
    | ByKey(key: int)  // the parameter denotes this id
    | NoRow            // NULL: `id = NULL` selects nothing
    | StoreError       // the text is not an integer: the query throws

  /** The white space PostgreSQL's integer input skips around the number
      (the C `isspace` set). */
  predicate PgSpace(c: char)
  {
    c == ' ' || c == '\t' || c == '\n' || c == '\r' || c == '\U{000B}' || c == '\U{000C}'
  }

  predicate AllPgSpace(s: string)
  {
    forall i :: 0 <= i < |s| ==> PgSpace(s[i])
  }

  /** The text without its leading white space. */
  function PgStripStart(s: string): (r: string)
    ensures |r| <= |s| && r == s[|s| - |r|..]
    ensures AllPgSpace(s[..|s| - |r|])
    ensures |r| > 0 ==> !PgSpace(r[0])
  {
    if |s| > 0 && PgSpace(s[0]) then
      var r := PgStripStart(s[1..]);
      StripStartStep(s, r);
      r
    else s
  }

  /** The text without its trailing white space. */
  function PgStripEnd(s: string): (r: string)
    ensures |r| <= |s| && r == s[..|r|]
    ensures AllPgSpace(s[|r|..])
    ensures |r| > 0 ==> !PgSpace(r[|r| - 1])
  {
    if |s| > 0 && PgSpace(s[|s| - 1]) then
      var r := PgStripEnd(s[..|s| - 1]);
      StripEndStep(s, r);
      r
    else s
  }

  /** One step of `PgStripStart`: a white-space character in front of the
      rest keeps what the rest strips to a suffix, after white space. */
  lemma StripStartStep(s: string, r: string)
    requires |s| > 0 && PgSpace(s[0])
    requires |r| <= |s[1..]| && r == s[1..][|s[1..]| - |r|..]
    requires AllPgSpace(s[1..][..|s[1..]| - |r|])
    ensures |r| <= |s| && r == s[|s| - |r|..]
    ensures AllPgSpace(s[..|s| - |r|])
  {
    var k := |s| - |r|;
    assert s[1..][k - 1..] == s[k..];
    forall i | 1 <= i < k ensures PgSpace(s[..k][i]) {
      assert s[..k][i] == s[1..][..k - 1][i - 1];
    }
  }

  /** One step of `PgStripEnd`: a white-space character after the rest
      keeps what the rest strips to a prefix, before white space. */
  lemma StripEndStep(s: string, r: string)
    requires |s| > 0 && PgSpace(s[|s| - 1])
    requires |r| <= |s[..|s| - 1]| && r == s[..|s| - 1][..|r|]
    requires AllPgSpace(s[..|s| - 1][|r|..])
    ensures |r| <= |s| && r == s[..|r|]
    ensures AllPgSpace(s[|r|..])
  {
    var k := |r|;
    assert s[..|s| - 1][..k] == s[..k];
    forall i | 0 <= i < |s| - 1 - k ensures PgSpace(s[k..][i]) {
      assert s[k..][i] == s[..|s| - 1][k..][i];
    }
  }

  /** An optional sign and at least one decimal digit, nothing else. */
  function SignedDigits(s: string): (r: Option<int>)
    ensures r.Some? ==> |s| > 0 && IsDigit(s[|s| - 1])
    ensures r.Some? ==> forall i :: 0 <= i < |s| ==> IsDigit(s[i]) || (i == 0 && (s[i] == '-' || s[i] == '+'))
  {
    if |s| > 0 && (s[0] == '-' || s[0] == '+') then
      var d := s[1..];
      if |d| > 0 && forall i :: 0 <= i < |d| ==> IsDigit(d[i]) then
        var m: int := DigitsValue(d);
        Some(if s[0] == '-' then -m else m)
      else None
    else if |s| > 0 && forall i :: 0 <= i < |s| ==> IsDigit(s[i]) then Some(DigitsValue(s))
    else None
  }

  /** The integer a parameter text denotes for an `integer` column: white
      space around an optional sign and at least one decimal digit. */
  function KeyText(s: string): (r: Option<int>)
    // accepted texts hold a digit, and only digits, signs and white space
    ensures r.Some? ==> exists i :: 0 <= i < |s| && IsDigit(s[i])
    ensures r.Some? ==> forall i :: 0 <= i < |s| ==> IsDigit(s[i]) || PgSpace(s[i]) || s[i] == '-' || s[i] == '+'
    ensures AllPgSpace(s) ==> r.None?
  {
    StripStartKeepsDigit(s);
    StripStartKeepsChars(s);
    StripEndKeepsDigit(PgStripStart(s));
    StripEndKeepsChars(PgStripStart(s));
    SpaceStripsToEmpty(s);
    SignedDigitsChars(PgStripEnd(PgStripStart(s)));
    SignedDigits(PgStripEnd(PgStripStart(s)))
  }

  /** A character of a number text: a digit, a sign or white space. */
  predicate NumberChar(c: char)
  {
    IsDigit(c) || PgSpace(c) || c == '-' || c == '+'
  }

  predicate AllNumberChars(s: string)
  {
    forall i :: 0 <= i < |s| ==> NumberChar(s[i])
  }

  predicate HasDigit(s: string)
  {
    exists i :: 0 <= i < |s| && IsDigit(s[i])
  }

  /** A signed number holds a digit, and only digits and signs. */
  lemma SignedDigitsChars(b: string)
    ensures SignedDigits(b).Some? ==> HasDigit(b) && AllNumberChars(b)
  {
    if SignedDigits(b).Some? {
      assert IsDigit(b[|b| - 1]);
    }
  }

  /** Dropping leading white space keeps the digits. */
  lemma {:induction false} StripStartKeepsDigit(s: string)
    ensures HasDigit(PgStripStart(s)) ==> HasDigit(s)
  {
    if |s| > 0 && PgSpace(s[0]) {
      var t := s[1..];
      assert PgStripStart(s) == PgStripStart(t);
      StripStartKeepsDigit(t);
      if HasDigit(t) {
        var i :| 0 <= i < |t| && IsDigit(t[i]);
        assert IsDigit(s[i + 1]);
      }
    }
  }

  /** Dropping leading white space removes only white space. */
  lemma {:induction false} StripStartKeepsChars(s: string)
    ensures AllNumberChars(PgStripStart(s)) ==> AllNumberChars(s)
  {
    if |s| > 0 && PgSpace(s[0]) {
      var t := s[1..];
      assert PgStripStart(s) == PgStripStart(t);
      StripStartKeepsChars(t);
      if AllNumberChars(t) {
        forall i | 0 < i < |s| ensures NumberChar(s[i]) {
          assert s[i] == t[i - 1];
        }
      }
    }
  }

  /** Dropping trailing white space keeps the digits. */
  lemma {:induction false} StripEndKeepsDigit(s: string)
    ensures HasDigit(PgStripEnd(s)) ==> HasDigit(s)
  {
    if |s| > 0 && PgSpace(s[|s| - 1]) {
      var t := s[..|s| - 1];
      assert PgStripEnd(s) == PgStripEnd(t);
      StripEndKeepsDigit(t);
      if HasDigit(t) {
        var i :| 0 <= i < |t| && IsDigit(t[i]);
        assert IsDigit(s[i]);
      }
    }
  }

  /** Dropping trailing white space removes only white space. */
  lemma {:induction false} StripEndKeepsChars(s: string)
    ensures AllNumberChars(PgStripEnd(s)) ==> AllNumberChars(s)
  {
    if |s| > 0 && PgSpace(s[|s| - 1]) {
      var t := s[..|s| - 1];
      assert PgStripEnd(s) == PgStripEnd(t);
      StripEndKeepsChars(t);
      if AllNumberChars(t) {
        forall i | 0 <= i < |s| - 1 ensures NumberChar(s[i]) {
          assert s[i] == t[i];
        }
      }
    }
  }

  /** White space alone strips to nothing. */
  lemma SpaceStripsToEmpty(s: string)
    ensures AllPgSpace(s) ==> PgStripEnd(PgStripStart(s)) == []
  {
    var r := PgStripStart(s);
    if |r| > 0 {
      assert r[0] == s[|s| - |r|];
    }
  }

  /** Leading white space in front of a text that does not start with it is
      dropped, and only that. */
  lemma {:induction false} StripStartOfPadded(pre: string, x: string)
    requires AllPgSpace(pre) && |x| > 0 && !PgSpace(x[0])
    ensures PgStripStart(pre + x) == x
  {
    if pre != [] {
      assert (pre + x)[1..] == pre[1..] + x;
      StripStartOfPadded(pre[1..], x);
    }
  }

  lemma {:induction false} StripEndOfPadded(x: string, post: string)
    requires AllPgSpace(post) && |x| > 0 && !PgSpace(x[|x| - 1])
    ensures PgStripEnd(x + post) == x
  {
    if post != [] {
      var t := post[..|post| - 1];
      assert (x + post)[..|x + post| - 1] == x + t;
      StripEndOfPadded(x, t);
    } else {
      assert x + post == x;
    }
  }

  /** The range of PostgreSQL's `integer`, the type of the SERIAL ids: a
      parameter outside it makes `WHERE id = $1` throw. */
  const Int4Min: int := -0x8000_0000
  const Int4Max: int := 0x7FFF_FFFF

  predicate InInt4(n: int)
  {
    Int4Min <= n <= Int4Max
  }

  function Int4Key(n: int): (r: KeyLookup)
    ensures InInt4(n) ==> r == ByKey(n)
    ensures !InInt4(n) ==> r == StoreError
  {
    if InInt4(n) then ByKey(n) else StoreError
  }

  function KeyOf(v: Val): (r: KeyLookup)
    ensures IsNullish(v) <==> r.NoRow?
    ensures v.Num? && InInt4(v.n) ==> r == ByKey(v.n)
    ensures v.Num? && !InInt4(v.n) ==> r == StoreError
    ensures r.ByKey? ==> InInt4(r.key)
  {
    match v
    case Undef => NoRow
    case Null => NoRow
    case Num(n) => Int4Key(n)
    case Str(s) => (match KeyText(s) case Some(k) => Int4Key(k) case None => StoreError)
    case Bool(_) => StoreError
  }

  /** The id a path segment gives `WHERE id = $1` after `parseInt(param, 10)`;
      `None` when that query throws: a NaN, or a number outside `integer`. */
  function PathId(param: string): (r: Option<int>)
    ensures r.Some? <==> ParseInt(param).Some? && InInt4(ParseInt(param).value)
    ensures r.Some? ==> r.value == ParseInt(param).value
  {
    match ParseInt(param)
    case Some(n) => if InInt4(n) then Some(n) else None
    case None => None
  }

  /** An id printed into a URL path selects its row exactly when it lies in
      the range of `integer`. */
  lemma PathIdOfPrinted(n: int)
    ensures InInt4(n) ==> PathId(IntToString(n)) == Some(n)
    ensures !InInt4(n) ==> PathId(IntToString(n)) == None
  {
    ParseIntOfIntToString(n);
  }

  /** An id printed into a URL (`/entradas/${id}`) selects the same row that
      the number itself selects. */
  lemma KeyOfPrintedId(n: int)
    ensures InInt4(n) ==> KeyOf(Str(IntToString(n))) == ByKey(n)
    ensures !InInt4(n) ==> KeyOf(Str(IntToString(n))) == StoreError
    ensures KeyOf(Str(IntToString(n))) == KeyOf(Num(n))
  {
    KeyTextOfPrinted(n);
    KeyOfNumberText(IntToString(n), n);
  }

  /** The same holds with white space around it: `{ id: " 7 " }` selects
      row 7, as the integer input of PostgreSQL skips that space. */
  lemma KeyOfPadded(n: int, pre: string, post: string)
    requires AllPgSpace(pre) && AllPgSpace(post)
    ensures InInt4(n) ==> KeyOf(Str(pre + IntToString(n) + post)) == ByKey(n)
    ensures !InInt4(n) ==> KeyOf(Str(pre + IntToString(n) + post)) == StoreError
  {
    KeyTextOfPaddedInt(n, pre, post);
    KeyOfNumberText(pre + IntToString(n) + post, n);
  }

  /** A text that denotes `n` has the effect of the number `n`. */
  lemma KeyOfNumberText(s: string, n: int)
    requires KeyText(s) == Some(n)
    ensures KeyOf(Str(s)) == KeyOf(Num(n))
  {
  }

  lemma KeyTextOfPaddedInt(n: int, pre: string, post: string)
    requires AllPgSpace(pre) && AllPgSpace(post)
    ensures KeyText(pre + IntToString(n) + post) == Some(n)
  {
    PrintedEdges(n);
    KeyTextOfPadded(pre, IntToString(n), post);
    SignedDigitsOfInt(n);
  }

  lemma KeyTextOfPrinted(n: int)
    ensures KeyText(IntToString(n)) == Some(n)
  {
    var s := IntToString(n);
    PrintedEdges(n);
    assert PgStripStart(s) == s;
    assert PgStripEnd(s) == s;
    SignedDigitsOfInt(n);
  }

  /** White space around a text that neither starts nor ends with it does not
      change what the text denotes. */
  lemma KeyTextOfPadded(pre: string, s: string, post: string)
    requires AllPgSpace(pre) && AllPgSpace(post)
    requires |s| > 0 && !PgSpace(s[0]) && !PgSpace(s[|s| - 1])
    ensures KeyText(pre + s + post) == SignedDigits(s)
  {
    assert pre + s + post == pre + (s + post);
    assert (s + post)[0] == s[0];
    StripStartOfPadded(pre, s + post);
    StripEndOfPadded(s, post);
  }

  /** A printed integer neither starts nor ends with white space. */
  lemma PrintedEdges(n: int)
    ensures var s := IntToString(n); !PgSpace(s[0]) && !PgSpace(s[|s| - 1])
  {
    var s := IntToString(n);
    var d := NatToString(if n < 0 then -n else n);
    assert s[0] == '-' || IsDigit(s[0]);
    assert s[|s| - 1] == d[|d| - 1];
  }

  /** A printed integer reads back as itself. */
  lemma SignedDigitsOfInt(n: int)
    ensures SignedDigits(IntToString(n)) == Some(n)
  {
    var s := IntToString(n);
    if n < 0 {
      var d := NatToString(-n);
      assert s == "-" + d;
      assert s[1..] == d;
      DigitsOfNat(-n);
      assert DigitsValue(s[1..]) == -n;
    } else {
      assert s == NatToString(n);
      assert s[0] != '-' && s[0] != '+';
      DigitsOfNat(n);
    }
  }

  /** A text that is not a number makes the query throw. */
  lemma KeyOfWord()
    ensures KeyOf(Str("abc")) == StoreError && KeyOf(Str("")) == StoreError
  {
    assert "abc"[0] == 'a' && !IsDigit('a') && !PgSpace('a');
  }

  /** node-postgres sends `undefined` as NULL: the value a column receives. */
  function Col(v: Val): (r: Val)
    ensures !r.Undef?
    ensures IsNullish(v) <==> r.Null?
    ensures !IsNullish(v) ==> r == v
  {
    if v.Undef? then Null else v
  }

  /** `column = $1` on text: NULL on either side matches nothing, and a
      parameter is compared by its text form. */
  predicate SameText(column: Val, param: Val)
  {
    !IsNullish(column) && !IsNullish(param) && ToJsString(column) == ToJsString(param)
  }
}
