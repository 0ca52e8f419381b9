/** The date validator: `parseAndValidateDate` accepts a value only when its
    text has the shape `YYYY-MM-DD[ |T]HH:MM:SS[.f][Z|±HH:MM]`, the date
    parser gives it an instant, and that instant is not after now; the
    middleware built from a field list answers 400 for the first present
    field that fails and calls `next()` otherwise. */
module ValidateDate {
  import opened Js
  import opened Http

  // ---------------------------------------------------------------------------
  // The pattern ^\d{4}-\d{2}-\d{2}([\sT]\d{2}:\d{2}:\d{2}(\.\d+)?(Z|[\+\-]\d{2}:\d{2})?)?$

  /** `\d` repeated: every character of `s[i..j]` is a decimal digit. */
  predicate Digits(s: string, i: nat, j: nat)
    requires i <= j <= |s|
  {
    forall k :: i <= k < j ==> IsDigit(s[k])
  }

  /** `\d{4}-\d{2}-\d{2}` (the date, exactly ten characters). */
  predicate DatePart(s: string)
  {
    |s| == 10 && Digits(s, 0, 4) && s[4] == '-' && Digits(s, 5, 7) && s[7] == '-' && Digits(s, 8, 10)
  }

  /** `[\sT]\d{2}:\d{2}:\d{2}` (the separator and the time, nine characters). */
  predicate ClockPart(s: string)
  {
    |s| == 9 && (IsSpace(s[0]) || s[0] == 'T') && Digits(s, 1, 3) && s[3] == ':' && Digits(s, 4, 6) && s[6] == ':' && Digits(s, 7, 9)
  }

  /** `Z|[\+\-]\d{2}:\d{2}`. */
  predicate Zone(s: string)
  {
    s == "Z" || (|s| == 6 && (s[0] == '+' || s[0] == '-') && Digits(s, 1, 3) && s[3] == ':' && Digits(s, 4, 6))
  }

  /** `(\.\d+)?(Z|[\+\-]\d{2}:\d{2})?$` after the time. The digits of the
      fraction are read greedily; no other split can succeed, because a zone
      never starts with a digit. */
  predicate TimeTail(s: string)
  {
    s == "" || Zone(s) ||
    (|s| >= 2 && s[0] == '.' && IsDigit(s[1]) &&
      var k := 1 + DigitRun(s[1..]);
      s[k..] == "" || Zone(s[k..]))
  }

  /** The whole pattern, anchored at both ends (`$` without the `m` flag
      matches only at the end of the input). */
  predicate IsoPattern(s: string)
  {
    |s| >= 10 && DatePart(s[..10]) &&
    (|s| == 10 || (|s| >= 19 && ClockPart(s[10..19]) && TimeTail(s[19..])))
  }

  /** A fraction or a zone is accepted only after a time part: whatever
      follows the date starts with the separator and a full time. */
  lemma SuffixNeedsTime(s: string)
    requires IsoPattern(s) && |s| > 10
    ensures |s| >= 19 && (IsSpace(s[10]) || s[10] == 'T') && s[13] == ':' && s[16] == ':'
  {
    assert s[10..19][0] == s[10] && s[10..19][3] == s[13] && s[10..19][6] == s[16];
  }

  /** The shapes the pattern admits and turns away. */
  lemma PatternAcceptsPlainDate()
    ensures IsoPattern("2025-01-15")
  {
  }

  lemma PatternAcceptsFraction()
    ensures IsoPattern("2025-01-15T10:30:00.123Z")
  {
    var a := "2025-01-15T10:30:00.123Z";
    PieceShapes();
    FractionTail();
    assert a[..10] == "2025-01-15" && a[10..19] == "T10:30:00" && a[19..] == ".123Z";
  }

  lemma PatternAcceptsOffset()
    ensures IsoPattern("2025-01-15 10:30:00+02:00")
  {
    var b := "2025-01-15 10:30:00+02:00";
    PieceShapes();
    assert b[..10] == "2025-01-15" && b[10..19] == " 10:30:00" && b[19..] == "+02:00";
  }

  /** The date, the two clocks and the zone the two examples above are made of. */
  lemma PieceShapes()
    ensures DatePart("2025-01-15") && ClockPart("T10:30:00") && ClockPart(" 10:30:00")
    ensures TimeTail("+02:00")
  {
  }

  /** `.123Z`: a fraction of three digits, then `Z`. */
  lemma FractionTail()
    ensures TimeTail(".123Z")
  {
    var f := ".123Z";
    assert DigitRun(f[1..]) == 3 by {
      var d := f[1..];
      assert d == "123Z" && d[1..] == "23Z" && d[1..][1..] == "3Z" && d[1..][1..][1..] == "Z";
      assert DigitRun("Z") == 0;
      assert DigitRun("3Z") == 1;
      assert DigitRun("23Z") == 2;
    }
    assert f[4..] == "Z";
  }

  lemma PatternRejectsSlashes()
    ensures !IsoPattern("05/01/2025")
  {
    assert "05/01/2025"[..10][2] == '/';
  }

  /** A zone straight after the date, or a time without seconds, is turned away. */
  lemma PatternRejectsPartialTime()
    ensures !IsoPattern("2025-01-15Z") && !IsoPattern("2025-01-15T10:30")
  {
  }

  /** Only a string can match: `regex.test` reads `String(v)`, and the text
      of `undefined`, `null`, a boolean or a number never has the dashes of
      the date. */
  lemma OnlyStringsMatch(v: Val)
    requires IsoPattern(ToJsString(v))
    ensures v.Str?
  {
  }

  // ---------------------------------------------------------------------------
  // parseAndValidateDate

  /** `parseAndValidateDate(v)` as the instant it returns, `None` for `null`.
      `now` is the server clock and `instant` the engine's date parser. */
  function ParseAndValidateDate(v: Val, now: int, instant: Instant): (r: Option<int>)
    ensures !Truthy(v) ==> r == None
    ensures r.Some? ==> v.Str? && IsoPattern(v.s) && instant(v.s) == r && r.value <= now
    ensures v.Str? && IsoPattern(v.s) && instant(v.s).Some? && instant(v.s).value <= now ==> r == instant(v.s)
  {
    if !Truthy(v) then None
    else if !IsoPattern(ToJsString(v)) then None
    else
      OnlyStringsMatch(v);
      match DateOf(v, instant)
      case None => None
      case Some(t) => if t > now then None else Some(t)
  }

  /** A value of the right shape that the date parser rejects (`2025-13-01`)
      is turned away: the pattern alone does not check the calendar. */
  lemma InvalidCalendarDate(now: int, instant: Instant)
    requires instant("2025-13-01") == None
    ensures IsoPattern("2025-13-01")
    ensures ParseAndValidateDate(Str("2025-13-01"), now, instant) == None
  {
  }

  /** A date after now is turned away. */
  lemma FutureDate(s: string, now: int, instant: Instant)
    requires instant(s).Some? && instant(s).value > now
    ensures ParseAndValidateDate(Str(s), now, instant) == None
  {
  }

  // ---------------------------------------------------------------------------
  // validateDateMiddleware(fields)

  /** A field the middleware rejects: present and truthy in the body, and not
      a valid date. */
  predicate BadField(field: string, body: Body, now: int, instant: Instant)
  {
    Truthy(Get(body, field)) && ParseAndValidateDate(Get(body, field), now, instant).None?
  }

  /** The first field of the list, in list order, that the middleware rejects. */
  function FirstInvalid(fields: seq<string>, body: Body, now: int, instant: Instant): Option<string>
  {
    if fields == [] then None
    else if BadField(fields[0], body, now, instant) then Some(fields[0])
    else FirstInvalid(fields[1..], body, now, instant)
  }

  /** `FirstInvalid` names the earliest bad field, and is `None` exactly when
      no listed field is bad. */
  lemma {:induction false} FirstInvalidIsFirst(fields: seq<string>, body: Body, now: int, instant: Instant)
    ensures FirstInvalid(fields, body, now, instant).None? <==>
            forall i :: 0 <= i < |fields| ==> !BadField(fields[i], body, now, instant)
    ensures FirstInvalid(fields, body, now, instant).Some? ==>
            exists i :: 0 <= i < |fields| && fields[i] == FirstInvalid(fields, body, now, instant).value &&
              BadField(fields[i], body, now, instant) &&
              forall j :: 0 <= j < i ==> !BadField(fields[j], body, now, instant)
  {
    if fields != [] && !BadField(fields[0], body, now, instant) {
      var rest := fields[1..];
      FirstInvalidIsFirst(rest, body, now, instant);
      if FirstInvalid(rest, body, now, instant).Some? {
        var i :| 0 <= i < |rest| && rest[i] == FirstInvalid(rest, body, now, instant).value &&
          BadField(rest[i], body, now, instant) && forall j :: 0 <= j < i ==> !BadField(rest[j], body, now, instant);
        assert fields[i + 1] == rest[i];
        forall j | 0 <= j < i + 1 ensures !BadField(fields[j], body, now, instant) {
          if j > 0 { assert fields[j] == rest[j - 1]; }
        }
      } else {
        forall i | 0 <= i < |fields| ensures !BadField(fields[i], body, now, instant) {
          if i > 0 { assert fields[i] == rest[i - 1]; }
        }
      }
    }
  }

  /** A bad field preceded only by good ones is the one reported. */
  lemma {:induction false} FirstInvalidAt(fields: seq<string>, i: nat, body: Body, now: int, instant: Instant)
    requires i < |fields| && BadField(fields[i], body, now, instant)
    requires forall j :: 0 <= j < i ==> !BadField(fields[j], body, now, instant)
    ensures FirstInvalid(fields, body, now, instant) == Some(fields[i])
  {
    if i > 0 {
      FirstInvalidAt(fields[1..], i - 1, body, now, instant);
    }
  }

  /** Fields that are absent or falsy are skipped: a body with none of the
      listed fields present passes. */
  lemma AbsentFieldsPass(fields: seq<string>, body: Body, now: int, instant: Instant)
    requires forall i :: 0 <= i < |fields| ==> !Truthy(Get(body, fields[i]))
    ensures FirstInvalid(fields, body, now, instant) == None
  {
    FirstInvalidIsFirst(fields, body, now, instant);
  }

  const FormatComplaint := "' tiene un formato de fecha inválido, no sigue el formato YYYY-MM-DD, o es una fecha futura."

  /** The 400 the middleware sends for `field`. */
  function DateRejection(field: string): Response
  {
    Reply(400, false, "mensaje", "El campo '" + field + FormatComplaint)
  }

  /** The middleware for `fields` applied to one request: the loop over the
      fields stops at the first bad one and answers 400 naming it; when none is
      bad, `next()` is called, once. `req.id` is not touched. */
  method ValidateDateMiddleware(ex: Exchange, fields: seq<string>, body: Body, now: int, instant: Instant)
    modifies ex
    ensures ex.id == old(ex.id)
    ensures FirstInvalid(fields, body, now, instant).Some? ==>
              ex.sent == Some(DateRejection(FirstInvalid(fields, body, now, instant).value)) && ex.nextCalls == old(ex.nextCalls)
    ensures FirstInvalid(fields, body, now, instant).None? ==>
              ex.sent == old(ex.sent) && ex.nextCalls == old(ex.nextCalls) + 1
  {
    var i := 0;
    while i < |fields|
      invariant 0 <= i <= |fields|
      invariant forall j :: 0 <= j < i ==> !BadField(fields[j], body, now, instant)
      invariant ex.sent == old(ex.sent) && ex.nextCalls == old(ex.nextCalls) && ex.id == old(ex.id)
    {
      var field := fields[i];
      var value := Get(body, field);
      var bad := false;
      if Truthy(value) {
        var parsed := ParseAndValidateDate(value, now, instant);
        bad := parsed.None?;
      }
      assert bad == BadField(field, body, now, instant);
      if bad {
        FirstInvalidAt(fields, i, body, now, instant);
        ex.sent := Some(DateRejection(field));
        return;
      }
      i := i + 1;
    }
    FirstInvalidIsFirst(fields, body, now, instant);
    ex.nextCalls := ex.nextCalls + 1;
  }
}
