/** JavaScript values as they arrive in a parsed JSON request body, and the
    handful of JavaScript operations the controllers apply to them: the three
    presence tests (`== null`, falsy, `=== undefined`), `||`, `String(v)`,
    `trim()`, `parseInt(s, 10)` and `new Date(v)`. */
module Js {

  datatype Option<+T> = None | Some(value: T)

  /** A primitive JavaScript value. Numbers are integers (no fractions, no NaN:
      a NaN produced by parseInt is an `Option` of its own). */
  datatype Val = Undef | Null | Str(s: string) | Num(n: int) | Bool(b: bool)

  /** The JavaScript truthiness test used by `!x`, `x && ...` and `x || y`. */
  predicate Truthy(v: Val)
  {
    match v
    case Undef => false
    case Null => false
    case Str(s) => s != ""
    case Num(n) => n != 0
    case Bool(b) => b
  }

  /** `v == null` (loose equality): true of both null and undefined, and only of them. */
  predicate IsNullish(v: Val)
  {
    v.Undef? || v.Null?
  }

  /** `v === undefined`. */
  predicate IsUndefined(v: Val)
  {
    v.Undef?
  }

  lemma PresenceTestsDiffer()
    ensures IsNullish(Null) && !IsUndefined(Null)
    ensures !IsNullish(Str("")) && !Truthy(Str(""))
    ensures !IsNullish(Num(0)) && !Truthy(Num(0)) && !Truthy(Bool(false))
    ensures forall v: Val :: IsUndefined(v) ==> IsNullish(v)
    ensures forall v: Val :: IsNullish(v) ==> !Truthy(v)
  {
  }

  /** `a || b`: the left operand when it is truthy, else the right one. */
  function Or(a: Val, b: Val): (r: Val)
    ensures Truthy(r) <==> Truthy(a) || Truthy(b)
    ensures r == a || r == b
    ensures Truthy(a) ==> r == a
  {
    if Truthy(a) then a else b
  }

  /** A request body: absent keys read as undefined. */
  type Body = map<string, Val>

  function Get(body: Body, key: string): (v: Val)
    ensures key !in body ==> v == Undef
  {
    if key in body then body[key] else Undef
  }

  /** A destructuring default `{ x = d } = body`: applies only to undefined. */
  function DefaultIfUndefined(v: Val, d: Val): (r: Val)
    ensures !v.Undef? ==> r == v
    ensures v.Undef? ==> r == d
  {
    if v.Undef? then d else v
  }

  // ---------------------------------------------------------------------------
  // Whitespace and trim()

  /** The characters JavaScript's `trim()` and the regular-expression class
      `\s` treat as white space: WhiteSpace and LineTerminator of ECMA-262. */
  predicate IsSpace(c: char)
  {
    var k := c as int;
    k == 0x09 || k == 0x0A || k == 0x0B || k == 0x0C || k == 0x0D || k == 0x20 ||
    k == 0xA0 || k == 0x1680 || (0x2000 <= k <= 0x200A) || k == 0x2028 || k == 0x2029 ||
    k == 0x202F || k == 0x205F || k == 0x3000 || k == 0xFEFF
  }

  predicate AllSpace(s: string)
  {
    forall i :: 0 <= i < |s| ==> IsSpace(s[i])
  }

  function TrimStart(s: string): string
    decreases |s|
  {
    if |s| > 0 && IsSpace(s[0]) then TrimStart(s[1..]) else s
  }

  function TrimEnd(s: string): string
    decreases |s|
  {
    if |s| > 0 && IsSpace(s[|s| - 1]) then TrimEnd(s[..|s| - 1]) else s
  }

  /** `s.trim()`. */
  function Trim(s: string): string
  {
    TrimEnd(TrimStart(s))
  }

  /** TrimStart drops the leading white space and nothing else. */
  lemma {:induction false} TrimStartShape(s: string)
    ensures |TrimStart(s)| <= |s| && TrimStart(s) == s[|s| - |TrimStart(s)|..]
    ensures AllSpace(s[..|s| - |TrimStart(s)|])
    ensures |TrimStart(s)| > 0 ==> !IsSpace(TrimStart(s)[0])
    decreases |s|
  {
    if |s| > 0 && IsSpace(s[0]) {
      TrimStartShape(s[1..]);
      var r := TrimStart(s[1..]);
      assert s[1..][|s| - 1 - |r|..] == s[|s| - |r|..];
      forall i | 0 <= i < |s| - |r| ensures IsSpace(s[i]) {
        if i > 0 { assert s[i] == s[1..][..|s| - 1 - |r|][i - 1]; }
      }
    }
  }

  /** TrimEnd drops the trailing white space and nothing else. */
  lemma {:induction false} TrimEndShape(s: string)
    ensures |TrimEnd(s)| <= |s| && TrimEnd(s) == s[..|TrimEnd(s)|]
    ensures AllSpace(s[|TrimEnd(s)|..])
    ensures |TrimEnd(s)| > 0 ==> !IsSpace(TrimEnd(s)[|TrimEnd(s)| - 1])
    decreases |s|
  {
    if |s| > 0 && IsSpace(s[|s| - 1]) {
      var t := s[..|s| - 1];
      TrimEndShape(t);
      var r := TrimEnd(t);
      assert t[..|r|] == s[..|r|];
      forall i | |r| <= i < |s| ensures IsSpace(s[i]) {
        if i < |s| - 1 { assert s[i] == t[|r|..][i - |r|]; }
      }
    }
  }

  /** Trimming removes white space only at the two ends: the result is a
      contiguous piece of the input with nothing but white space around it,
      and it neither starts nor ends with white space. */
  lemma TrimIsInnerPiece(s: string)
    ensures exists i, j :: 0 <= i <= j <= |s| && Trim(s) == s[i..j] && AllSpace(s[..i]) && AllSpace(s[j..])
    ensures |Trim(s)| > 0 ==> !IsSpace(Trim(s)[0]) && !IsSpace(Trim(s)[|Trim(s)| - 1])
  {
    var t := TrimStart(s);
    TrimStartShape(s);
    var i := |s| - |t|;
    var r := TrimEnd(t);
    TrimEndShape(t);
    assert t == s[i..];
    assert r == s[i..i + |r|];
    assert s[i + |r|..] == t[|r|..];
    assert |r| > 0 ==> r[0] == t[0];
    assert Trim(s) == s[i..i + |r|] && AllSpace(s[..i]) && AllSpace(s[i + |r|..]);
  }

  /** Trimming twice is trimming once. */
  lemma {:induction false} TrimIdempotent(s: string)
    ensures Trim(Trim(s)) == Trim(s)
  {
    var r := Trim(s);
    TrimIsInnerPiece(s);
    if |r| > 0 {
      assert TrimStart(r) == r;
      assert TrimEnd(r) == r;
    }
  }

  /** A string is blank for `v.trim() === ''` exactly when it is all white space. */
  lemma TrimEmptyIffAllSpace(s: string)
    ensures Trim(s) == "" <==> AllSpace(s)
  {
    var t := TrimStart(s);
    if Trim(s) == "" {
      TrimStartShape(s);
      TrimEndShape(t);
      assert t[0..] == t;
      assert |t| == 0;
      assert s[..|s| - |t|] == s;
    } else {
      TrimIsInnerPiece(s);
      var i, j :| 0 <= i <= j <= |s| && Trim(s) == s[i..j] && AllSpace(s[..i]) && AllSpace(s[j..]);
      assert s[i] == Trim(s)[0];
    }
  }

  // ---------------------------------------------------------------------------
  // Number printing and parseInt

  predicate IsDigit(c: char)
  {
    '0' as int <= c as int <= '9' as int
  }

  function DigitChar(d: int): (c: char)
    requires 0 <= d < 10
    ensures IsDigit(c) && c as int - '0' as int == d
  {
    ('0' as int + d) as char
  }

  /** Decimal digits of a natural number, most significant first, no leading zero. */
  function NatToString(n: nat): (s: string)
    ensures |s| > 0 && forall i :: 0 <= i < |s| ==> IsDigit(s[i])
  {
    if n < 10 then [DigitChar(n)] else NatToString(n / 10) + [DigitChar(n % 10)]
  }

  /** How a number is interpolated into a template literal (`${n}`). */
  function IntToString(n: int): (s: string)
    ensures |s| > 0 && !IsSpace(s[0])
  {
    if n < 0 then "-" + NatToString(-n) else NatToString(n)
  }

  /** `String(v)`, as used by template literals and by `toString()`. */
  function ToJsString(v: Val): string
  {
    match v
    case Undef => "undefined"
    case Null => "null"
    case Str(s) => s
    case Num(n) => IntToString(n)
    case Bool(b) => if b then "true" else "false"
  }

  /** Length of the longest prefix made of decimal digits. */
  function DigitRun(s: string): (k: nat)
    ensures k <= |s|
    ensures forall i :: 0 <= i < k ==> IsDigit(s[i])
    ensures k < |s| ==> !IsDigit(s[k])
  {
    if |s| > 0 && IsDigit(s[0]) then 1 + DigitRun(s[1..]) else 0
  }

  /** The value of a string of decimal digits. */
  function DigitsValue(s: string): nat
    requires forall i :: 0 <= i < |s| ==> IsDigit(s[i])
  {
    if s == [] then 0 else
      assert IsDigit(s[|s| - 1]);
      DigitsValue(s[..|s| - 1]) * 10 + (s[|s| - 1] as int - '0' as int)
  }

  /** `parseInt(s, 10)`: leading white space is skipped, one optional sign is
      read, then the longest run of digits; `None` stands for NaN (no digits). */
  function ParseInt(s: string): Option<int>
  {
    ParseSigned(TrimStart(s))
  }

  /** parseInt after the leading white space: an optional sign, then digits. */
  function ParseSigned(t: string): Option<int>
  {
    if |t| > 0 && t[0] == '-' then
      match ParseDigits(t[1..]) case None => None case Some(m) => Some(-m)
    else if |t| > 0 && t[0] == '+' then ParseDigits(t[1..])
    else ParseDigits(t)
  }

  /** The value of the longest digit prefix, `None` when there is none. */
  function ParseDigits(u: string): Option<int>
  {
    var k := DigitRun(u);
    if k == 0 then None else Some(DigitsValue(u[..k]))
  }

  lemma {:induction false} DigitsOfNat(n: nat)
    ensures DigitsValue(NatToString(n)) == n
  {
    var s := NatToString(n);
    if n >= 10 {
      DigitsOfNat(n / 10);
      assert s[..|s| - 1] == NatToString(n / 10);
    }
  }

  lemma DigitRunAll(s: string)
    requires forall i :: 0 <= i < |s| ==> IsDigit(s[i])
    ensures DigitRun(s) == |s|
  {
    if |s| > 0 {
      DigitRunAll(s[1..]);
    }
  }

  /** parseInt reads back every number the template literal `${n}` prints:
      an id printed into a URL parses to the same id. */
  lemma ParseDigitsOfNat(n: nat)
    ensures ParseDigits(NatToString(n)) == Some(n)
  {
    var d := NatToString(n);
    DigitRunAll(d);
    assert d[..|d|] == d;
    DigitsOfNat(n);
  }

  lemma ParseIntOfIntToString(n: int)
    ensures ParseInt(IntToString(n)) == Some(n)
  {
    var s := IntToString(n);
    assert TrimStart(s) == s;
    if n < 0 {
      var d := NatToString(-n);
      assert s[1..] == d;
      ParseDigitsOfNat(-n);
    } else {
      ParseDigitsOfNat(n);
      assert !IsDigit('-') && !IsDigit('+');
    }
  }

  /** parseInt is NaN when no digit follows the white space and the optional
      sign: the empty string, a bare sign, a word. */
  lemma ParseIntNaN(s: string)
    requires |s| > 0 ==> !IsSpace(s[0]) && !IsDigit(s[0])
    requires |s| > 1 && (s[0] == '-' || s[0] == '+') ==> !IsDigit(s[1])
    ensures ParseInt(s) == None
  {
    assert TrimStart(s) == s;
  }

  /** parseInt stops at the first character that is not a digit. */
  lemma ParseIntPrefix()
    ensures ParseInt("12abc") == Some(12)
  {
    var s := "12abc";
    assert TrimStart(s) == s;
    assert s[1..][1..] == s[2..];
    assert DigitRun(s[2..]) == 0;
    assert DigitRun(s) == 2;
    assert s[..2] == "12";
    assert DigitsValue("12") == 12 by {
      assert "12"[..1] == "1";
      assert "1"[..0] == "";
    }
  }

  // ---------------------------------------------------------------------------
  // new Date(v)

  /** The instant (milliseconds) JavaScript's date parser gives a string, with
      `None` for an Invalid Date. The parser itself is not modelled: every
      operation that needs it receives it as this oracle. */
  type Instant = string -> Option<int>

  /** The largest magnitude of a valid JavaScript time value. */
  const MaxTime: int := 8640000000000000

  /** `new Date(v).getTime()`, `None` standing for NaN. */
  function DateOf(v: Val, instant: Instant): (r: Option<int>)
    ensures v.Str? ==> r == instant(v.s)
    ensures v.Undef? ==> r == None
    ensures v.Null? ==> r == Some(0)
  {
    match v
    case Undef => None
    case Null => Some(0)
    case Str(s) => instant(s)
    case Num(n) => if -MaxTime <= n <= MaxTime then Some(n) else None
    case Bool(b) => Some(if b then 1 else 0)
  }

  /** `new Date(a).getTime() > new Date(b).getTime()`: false whenever either side is NaN. */
  predicate Later(a: Val, b: Val, instant: Instant)
  {
    var x := DateOf(a, instant);
    var y := DateOf(b, instant);
    x.Some? && y.Some? && x.value > y.value
  }
}
