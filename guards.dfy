/** The steps the controllers share: the `x-token` check at the top of the
    write handlers, the "blank" test the search handlers apply with
    `v.trim()`, and the answer a search handler produces before it runs a
    query. */
module Guards {
  import opened Js
  import opened Http
  import opened Jwt
  import opened Query

  /** Who is calling, as far as a handler's own token check goes. */
  datatype Caller = Refused(response: Response) | Operator(id: int)

  /** The check at the top of the write handlers: a missing (or empty)
      header answers 401 'Token no proporcionado'; a token `comprobarJWT`
      rejects, or one whose id is falsy, answers 401 'Token inválido';
      otherwise the handler goes on with the token's id. `key` is `mensaje`
      or `msg`, depending on the controller. */
  function CheckToken(auth: Auth, token: string, key: string): (r: Caller)
    ensures token == "" ==> r == Refused(Reply(401, false, key, "Token no proporcionado"))
    ensures token != "" && Rejected(Comprobar(auth, token)) ==> r == Refused(Reply(401, false, key, "Token inválido"))
    ensures r.Operator? <==> token != "" && !Rejected(Comprobar(auth, token))
    ensures r.Operator? ==> r.id != 0 && Comprobar(auth, token).id == Some(r.id)
  {
    if token == "" then Refused(Reply(401, false, key, "Token no proporcionado"))
    else
      var v := Comprobar(auth, token);
      if Rejected(v) then Refused(Reply(401, false, key, "Token inválido"))
      else Operator(v.id.value)
  }

  /** `!v || v.trim() === ''` and its negation `v && v.trim() !== ''`:
      a falsy value is blank, a string is blank when it is all white space,
      and any other truthy value has no `trim` and throws a TypeError. */
  datatype Blankness = Blank | Filled(trimmed: string) | NoTrim

  function BlankTest(v: Val): (r: Blankness)
    ensures r.Blank? <==> !Truthy(v) || (v.Str? && AllSpace(v.s))
    ensures r.NoTrim? <==> Truthy(v) && !v.Str?
    ensures r.Filled? ==> v.Str? && r.trimmed == Trim(v.s) && r.trimmed != ""
  {
    if !Truthy(v) then Blank
    else if !v.Str? then NoTrim
    else
      TrimEmptyIffAllSpace(v.s);
      if Trim(v.s) == "" then Blank else Filled(Trim(v.s))
  }

  /** `!v || v.toString().trim() === ''`: the blank test the search handlers
      apply to their date bounds, which never throws because every value has
      a `toString`. */
  predicate TextBlank(v: Val)
  {
    !Truthy(v) || Trim(ToJsString(v)) == ""
  }

  /** What a search handler does before the database answers: it either
      responds straight away (a 400 for a missing field, a 500 for a
      TypeError) or runs the query it built. */
  datatype Search = Answer(response: Response) | Run(query: Built)

  /** `'%' + v.trim() + '%'` when the field is filled: the parameter of an
      `ILIKE` filter, or nothing when the filter is skipped. */
  function PatternOf(b: Blankness): (r: seq<Val>)
    ensures |r| == (if b.Filled? then 1 else 0)
  {
    match b
    case Filled(t) => [Str("%" + t + "%")]
    case _ => []
  }

  /** The blank test of a body field. */
  function Test(body: Body, field: string): Blankness
  {
    BlankTest(Get(body, field))
  }

  /** The literal pieces an optional filter adds: its clause and, when it
      has one, the closing text; nothing when the field is blank. */
  function ClauseTexts(test: Blankness, clause: string, close: string): (r: seq<string>)
    ensures |r| <= 2
  {
    if test.Filled? then [clause] + (if close == "" then [] else [close]) else []
  }

  /** One optional `ILIKE` filter of a search handler:
      `if (v && v.trim() !== '') { query += clause + '$' + (paramIndex++) + close; params.push('%' + v.trim() + '%'); }`,
      where `test` is the blank test of `v` (the caller answers 500 first when it is `NoTrim`). */
  method AddFilter(sql: Sql, params: seq<Val>, paramIndex: nat, test: Blankness, clause: string, close: string)
    returns (sql2: Sql, params2: seq<Val>, paramIndex2: nat)
    requires Numbered(sql, params) && paramIndex == |params| + 1 && !test.NoTrim?
    ensures Numbered(sql2, params2) && paramIndex2 == |params2| + 1
    ensures params2 == params + PatternOf(test)
    ensures Texts(sql2) == Texts(sql) + ClauseTexts(test, clause, close)
    // the placeholder directly follows its own clause
    ensures test.Filled? ==>
              sql2 == sql + [Text(clause), Param(paramIndex)] + (if close == "" then [] else [Text(close)])
    ensures !test.Filled? ==> sql2 == sql
  {
    sql2, params2, paramIndex2 := sql, params, paramIndex;
    if test.Filled? {
      var v := Str("%" + test.trimmed + "%");
      Bind(sql2, params2, clause, v);
      sql2 := sql2 + [Text(clause), Param(paramIndex2)];
      paramIndex2 := paramIndex2 + 1;
      params2 := params2 + [v];
      if close != "" {
        sql2 := AddText(sql2, params2, close);
      }
    }
  }

  /** `query += clause + '$' + (paramIndex++)` with `params.push(v)`, for
      the parameters every query of a handler has. */
  method AddParam(sql: Sql, params: seq<Val>, paramIndex: nat, clause: string, v: Val)
    returns (sql2: Sql, params2: seq<Val>, paramIndex2: nat)
    requires Numbered(sql, params) && paramIndex == |params| + 1
    ensures Numbered(sql2, params2) && paramIndex2 == |params2| + 1
    ensures params2 == params + [v]
    ensures Texts(sql2) == Texts(sql) + [clause]
    // the placeholder directly follows its own clause
    ensures sql2 == sql + [Text(clause), Param(paramIndex)]
  {
    Bind(sql, params, clause, v);
    sql2 := sql + [Text(clause), Param(paramIndex)];
    paramIndex2 := paramIndex + 1;
    params2 := params + [v];
  }
}
