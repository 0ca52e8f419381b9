/** The CORS part of the security configuration: `parseOrigins` reads the
    comma-separated allow-list from `CORS_ORIGIN`, and the origin callback
    lets a request through when the list is empty, when it has no origin, or
    when its origin is listed; any other origin gets an error with status 403. */
module Security {
  import opened Js
  import opened Http
  import opened ErrorHandler

  /** `s.split(',')`: the pieces between commas, empty ones included; the
      empty string splits into one empty piece. */
  function Split(s: string): (r: seq<string>)
    ensures |r| >= 1
    ensures forall i :: 0 <= i < |r| ==> ',' !in r[i]
  {
    if s == [] then [""]
    else
      var rest := Split(s[1..]);
      if s[0] == ',' then [""] + rest else [[s[0]] + rest[0]] + rest[1..]
  }

  /** `parts.join(',')`. */
  function Join(parts: seq<string>): string
    requires |parts| >= 1
  {
    if |parts| == 1 then parts[0] else parts[0] + "," + Join(parts[1..])
  }

  /** Splitting and joining undo each other. */
  lemma {:induction false} JoinSplit(s: string)
    ensures Join(Split(s)) == s
  {
    if s != [] {
      var rest := Split(s[1..]);
      JoinSplit(s[1..]);
      if s[0] == ',' {
        assert ([""] + rest)[1..] == rest;
      } else {
        var r := Split(s);
        assert r[0] == [s[0]] + rest[0];
        if |rest| == 1 {
          assert s == [s[0]] + s[1..];
        } else {
          assert r[1..] == rest[1..];
          assert Join(rest) == rest[0] + "," + Join(rest[1..]);
          assert s == [s[0]] + s[1..];
        }
      }
    }
  }

  lemma {:induction false} SplitJoin(parts: seq<string>)
    requires |parts| >= 1
    requires forall i :: 0 <= i < |parts| ==> ',' !in parts[i]
    ensures Split(Join(parts)) == parts
    decreases |parts|, |parts[0]|
  {
    var p := parts[0];
    if |parts| == 1 {
      SplitPiece(p);
    } else {
      var tail := parts[1..];
      SplitJoin(tail);
      SplitPieceThenComma(p, Join(tail));
    }
  }

  lemma {:induction false} SplitPiece(p: string)
    requires ',' !in p
    ensures Split(p) == [p]
  {
    if p != [] {
      SplitPiece(p[1..]);
      assert p == [p[0]] + p[1..];
    }
  }

  lemma {:induction false} SplitPieceThenComma(p: string, t: string)
    requires ',' !in p
    ensures Split(p + "," + t) == [p] + Split(t)
  {
    if p == [] {
      assert p + "," + t == [','] + t;
      assert ([','] + t)[1..] == t;
    } else {
      var s := p + "," + t;
      assert s[0] == p[0];
      assert s[1..] == p[1..] + "," + t;
      SplitPieceThenComma(p[1..], t);
      assert p == [p[0]] + p[1..];
    }
  }

  /** `.map(origin => origin.trim())`. */
  function TrimEach(parts: seq<string>): (r: seq<string>)
    ensures |r| == |parts| && forall j :: 0 <= j < |parts| ==> r[j] == Trim(parts[j])
  {
    if parts == [] then [] else [Trim(parts[0])] + TrimEach(parts[1..])
  }

  /** `.filter(Boolean)` on strings: the non-empty ones, in order. */
  function NonEmpty(xs: seq<string>): (r: seq<string>)
    ensures forall x :: x in r <==> x != "" && x in xs
  {
    if xs == [] then []
    else (if xs[0] == "" then [] else [xs[0]]) + NonEmpty(xs[1..])
  }

  lemma NoCommaAfterTrim(p: string)
    requires ',' !in p
    ensures ',' !in Trim(p)
  {
    TrimIsInnerPiece(p);
    var i, j :| 0 <= i <= j <= |p| && Trim(p) == p[i..j] && AllSpace(p[..i]) && AllSpace(p[j..]);
    forall k | 0 <= k < |Trim(p)| ensures Trim(p)[k] != ',' {
      assert Trim(p)[k] == p[i + k];
    }
  }

  /** `parseOrigins(value)`; `None` is an unset variable. */
  function ParseOrigins(value: Option<string>): (r: seq<string>)
    ensures value.None? || value == Some("") ==> r == []
    ensures forall x :: x in r ==> x != "" && ',' !in x
    ensures value.Some? ==> forall x :: x in r <==> x != "" && x in TrimEach(Split(value.value))
  {
    if value.None? || value.value == "" then []
    else
      var parts := Split(value.value);
      var r := NonEmpty(TrimEach(parts));
      forall x | x in r ensures ',' !in x {
        var j :| 0 <= j < |parts| && TrimEach(parts)[j] == x;
        NoCommaAfterTrim(parts[j]);
      }
      r
  }

  /** Filtering keeps the order: it distributes over concatenation. */
  lemma {:induction false} NonEmptyAppend(a: seq<string>, b: seq<string>)
    ensures NonEmpty(a + b) == NonEmpty(a) + NonEmpty(b)
  {
    if a != [] {
      assert (a + b)[0] == a[0];
      assert (a + b)[1..] == a[1..] + b;
      NonEmptyAppend(a[1..], b);
    } else {
      assert a + b == b;
    }
  }

  /** The entries keep the order of the list: the piece before the first
      comma, trimmed, comes first when it is not blank. */
  lemma ParseOriginsFirst(p: string, t: string)
    requires ',' !in p
    ensures ParseOrigins(Some(p + "," + t)) == (if Trim(p) == "" then [] else [Trim(p)]) + ParseOrigins(Some(t))
  {
    SplitPieceThenComma(p, t);
    var rest := Split(t);
    assert TrimEach([p] + rest) == [Trim(p)] + TrimEach(rest);
    NonEmptyAppend([Trim(p)], TrimEach(rest));
    assert NonEmpty([Trim(p)]) == (if Trim(p) == "" then [] else [Trim(p)]) by {
      assert [Trim(p)][1..] == [];
    }
    if t == "" {
      assert rest == [""];
      assert Trim("") == "" by { TrimEmptyIffAllSpace(""); }
      assert TrimEach(rest) == [""];
      assert NonEmpty(TrimEach(rest)) == [] by { assert [""][1..] == []; }
    }
  }

  /** Every entry is trimmed and not blank. */
  lemma EntriesAreTrimmed(value: Option<string>)
    ensures forall x :: x in ParseOrigins(value) ==> Trim(x) == x && !AllSpace(x)
  {
    forall x | x in ParseOrigins(value) ensures Trim(x) == x && !AllSpace(x) {
      var parts := Split(value.value);
      var j :| 0 <= j < |parts| && TrimEach(parts)[j] == x;
      TrimIdempotent(parts[j]);
      TrimEmptyIffAllSpace(x);
    }
  }

  lemma {:induction false} NonEmptyKeeps(xs: seq<string>)
    requires forall i :: 0 <= i < |xs| ==> xs[i] != ""
    ensures NonEmpty(xs) == xs
  {
    if xs != [] {
      NonEmptyKeeps(xs[1..]);
    }
  }

  /** A list written out with commas is read back as written, in order. */
  lemma OriginsRoundTrip(origins: seq<string>)
    requires |origins| >= 1
    requires forall i :: 0 <= i < |origins| ==> origins[i] != "" && Trim(origins[i]) == origins[i] && ',' !in origins[i]
    ensures ParseOrigins(Some(Join(origins))) == origins
  {
    var s := Join(origins);
    assert s != "" by {
      if |origins| > 1 { assert s == origins[0] + "," + Join(origins[1..]); }
    }
    SplitJoin(origins);
    var t := TrimEach(origins);
    assert t == origins;
    NonEmptyKeeps(origins);
  }

  /** The error the origin callback produces. */
  const CorsError := Failure(Some(403), Str("CORS not allowed"))

  /** The CORS decision for a request whose `Origin` header is `origin`
      (`None` when absent), under the allow-list `CORS_ORIGIN = env`:
      `None` lets it through, `Some(err)` is the error passed on. */
  function CheckOrigin(env: Option<string>, origin: Option<string>): (r: Option<Failure>)
    ensures r.None? <==> ParseOrigins(env) == [] || origin.None? || origin.value == "" || origin.value in ParseOrigins(env)
    ensures r.Some? ==> r.value == CorsError
  {
    var allowed := ParseOrigins(env);
    if allowed == [] then None
    else if origin.None? || origin.value == "" || origin.value in allowed then None
    else Some(CorsError)
  }

  /** A rejected origin reaches the error handler, which answers 403 with the
      CORS message. */
  lemma RejectedOriginAnswer(env: Option<string>, origin: Option<string>)
    requires CheckOrigin(env, origin).Some?
    ensures GlobalErrorHandler(CheckOrigin(env, origin), false) ==
              Some(Reply(403, false, "mensaje", "CORS no permitido para este origen."))
  {
  }
}
