/** An Express router as the route files register it: an ordered list of
    (verb, path pattern, middleware chain, handler). A request goes to the
    first registration whose verb and pattern fit; its chain runs step by
    step, and the handler is reached only when no step answered. */
module Router {
  import opened Js
  import opened Http
  import opened Jwt
  import ValidarJwt
  import ValidateDate

  datatype Verb = GET | POST | PUT | DELETE

  /** A path segment of a pattern: literal text, or a `:name` parameter,
      which fits any non-empty segment. */
  datatype Segment = Lit(text: string) | Var(name: string)

  /** The two express-validator rules the routes use: `isEmail()` and
      `not().isEmpty()`. */
  datatype Rule = IsEmail | NotEmpty

  /** `check(field, message).<rule>` */
  datatype FieldCheck = FieldCheck(field: string, rule: Rule, message: string)

  /** One middleware of a chain: `validarJWT`, `validateDateMiddleware(fields)`,
      or a list of `check(...)` closed by `validarCampos`. */
  datatype Step = Gate | Dates(fields: seq<string>) | Fields(checks: seq<FieldCheck>)

  datatype Route = Route(verb: Verb, pattern: seq<Segment>, steps: seq<Step>, handler: string)

  /** A request as the router sees it: the path is already split into the
      segments after the router's mount point; `token` is the `x-token`
      header, the empty string when it is missing. */
  datatype Request = Request(verb: Verb, path: seq<string>, token: string, body: Body)

  /** What the chain depends on beyond the request: the signing key and
      verifier, the clock, the date reading, and whether a value satisfies
      an express-validator rule. */
  datatype Env = Env(auth: Auth, now: int, instant: Instant, holds: (Rule, Val) -> bool)

  /** How a chain ends: a middleware answered, or every step called `next()`
      and the handler runs with `req.id` as the gate left it. */
  datatype Chain = Stop(response: Response) | Reached(id: Option<int>)

  /** How the router deals with a request: no registration fits (Express
      moves on to the next router, and at the end of the application to the
      not-found handler), a middleware answered, or the named handler runs
      with the path parameters and `req.id`. */
  datatype Outcome = NoRoute | Answered(response: Response) | Handled(handler: string, params: map<string, string>, id: Option<int>)

  // ---------------------------------------------------------------------------
  // Matching

  predicate SegmentFits(s: Segment, part: string)
  {
    match s
    case Lit(t) => part == t
    case Var(_) => part != ""
  }

  predicate PatternFits(pattern: seq<Segment>, path: seq<string>)
  {
    |pattern| == |path| && forall i :: 0 <= i < |path| ==> SegmentFits(pattern[i], path[i])
  }

  predicate Fits(r: Route, verb: Verb, path: seq<string>)
  {
    r.verb == verb && PatternFits(r.pattern, path)
  }

  /** The first registration at or after `from` that fits. */
  function FirstMatchFrom(table: seq<Route>, verb: Verb, path: seq<string>, from: nat): (r: Option<nat>)
    requires from <= |table|
    ensures r.Some? ==> from <= r.value < |table| && Fits(table[r.value], verb, path) &&
                        forall j :: from <= j < r.value ==> !Fits(table[j], verb, path)
    ensures r.None? ==> forall j :: from <= j < |table| ==> !Fits(table[j], verb, path)
    decreases |table| - from
  {
    if from == |table| then None
    else if Fits(table[from], verb, path) then Some(from)
    else FirstMatchFrom(table, verb, path, from + 1)
  }

  /** Express tries the registrations in order and takes the first that fits. */
  function FirstMatch(table: seq<Route>, verb: Verb, path: seq<string>): (r: Option<nat>)
    ensures r.Some? ==> r.value < |table| && Fits(table[r.value], verb, path) &&
                        forall j :: 0 <= j < r.value ==> !Fits(table[j], verb, path)
    ensures r.None? <==> forall j :: 0 <= j < |table| ==> !Fits(table[j], verb, path)
  {
    FirstMatchFrom(table, verb, path, 0)
  }

  /** `req.params`: each `:name` bound to the segment in its place. */
  function Bindings(pattern: seq<Segment>, path: seq<string>): (m: map<string, string>)
    requires |pattern| == |path|
    ensures forall k :: k in m ==> exists i :: 0 <= i < |pattern| && pattern[i] == Var(k)
  {
    if pattern == [] then map[]
    else
      var m := Bindings(pattern[..|pattern| - 1], path[..|path| - 1]);
      match pattern[|pattern| - 1]
      case Lit(_) => m
      case Var(name) => m[name := path[|path| - 1]]
  }

  // ---------------------------------------------------------------------------
  // The chain

  /** `validationResult(req).mapped()`: for every field with a failing check,
      the first failing check's message. */
  function Errors(checks: seq<FieldCheck>, body: Body, holds: (Rule, Val) -> bool): (errs: map<string, Json>)
  {
    if checks == [] then map[]
    else
      var rest := Errors(checks[1..], body, holds);
      var c := checks[0];
      if holds(c.rule, Get(body, c.field)) then rest
      else rest[c.field := JObj(map["msg" := JStr(c.message)])]
  }

  predicate CheckHolds(c: FieldCheck, body: Body, holds: (Rule, Val) -> bool)
  {
    holds(c.rule, Get(body, c.field))
  }

  /** `validarCampos` lets the request through exactly when every check
      holds. */
  lemma {:induction false} ErrorsEmptyIff(checks: seq<FieldCheck>, body: Body, holds: (Rule, Val) -> bool)
    ensures Errors(checks, body, holds) == map[] <==> forall i :: 0 <= i < |checks| ==> CheckHolds(checks[i], body, holds)
  {
    if checks != [] {
      var rest := checks[1..];
      ErrorsEmptyIff(rest, body, holds);
      if !CheckHolds(checks[0], body, holds) {
        assert checks[0].field in Errors(checks, body, holds);
      }
      if forall i :: 0 <= i < |rest| ==> CheckHolds(rest[i], body, holds) {
        forall i | 0 <= i < |checks| && i > 0 ensures CheckHolds(checks[i], body, holds) {
          assert checks[i] == rest[i - 1];
        }
      } else {
        var i :| 0 <= i < |rest| && !CheckHolds(rest[i], body, holds);
        assert checks[i + 1] == rest[i];
      }
    }
  }

  /** The errors name precisely the fields with a failing check. */
  lemma {:induction false} ErrorsKeys(checks: seq<FieldCheck>, body: Body, holds: (Rule, Val) -> bool, f: string)
    ensures f in Errors(checks, body, holds) <==>
            exists i :: 0 <= i < |checks| && checks[i].field == f && !CheckHolds(checks[i], body, holds)
  {
    if checks != [] {
      var rest := checks[1..];
      ErrorsKeys(rest, body, holds, f);
      if f in Errors(rest, body, holds) {
        var i :| 0 <= i < |rest| && rest[i].field == f && !CheckHolds(rest[i], body, holds);
        assert checks[i + 1] == rest[i];
      }
      if exists i :: 0 <= i < |checks| && checks[i].field == f && !CheckHolds(checks[i], body, holds) {
        var i :| 0 <= i < |checks| && checks[i].field == f && !CheckHolds(checks[i], body, holds);
        if i > 0 { assert rest[i - 1] == checks[i]; }
      }
    }
  }

  /** A field's entry is the message of its first failing check. */
  lemma {:induction false} ErrorsFirstMessage(checks: seq<FieldCheck>, body: Body, holds: (Rule, Val) -> bool, i: nat)
    requires i < |checks| && !CheckHolds(checks[i], body, holds)
    requires forall j :: 0 <= j < i ==> checks[j].field != checks[i].field || CheckHolds(checks[j], body, holds)
    ensures checks[i].field in Errors(checks, body, holds)
    ensures Errors(checks, body, holds)[checks[i].field] == JObj(map["msg" := JStr(checks[i].message)])
  {
    if i > 0 {
      var rest := checks[1..];
      assert rest[i - 1] == checks[i];
      forall j | 0 <= j < i - 1 ensures rest[j].field != rest[i - 1].field || CheckHolds(rest[j], body, holds) {
        assert rest[j] == checks[j + 1];
      }
      ErrorsFirstMessage(rest, body, holds, i - 1);
    }
  }

  /** The answer of `validarCampos` for a failing request. */
  function FieldsRejection(errs: map<string, Json>): Response
  {
    Response(400, map["ok" := JBool(false), "errors" := JObj(errs)])
  }

  /** Whether one middleware calls `next()` for the request. */
  predicate Passes(s: Step, req: Request, env: Env)
  {
    match s
    case Gate => ValidarJwt.Gate(env.auth, req.token).Pass?
    case Dates(fields) => ValidateDate.FirstInvalid(fields, req.body, env.now, env.instant).None?
    case Fields(checks) => Errors(checks, req.body, env.holds) == map[]
  }

  /** What one middleware that does not call `next()` answers. */
  function Refusal(s: Step, req: Request, env: Env): Response
    requires !Passes(s, req, env)
  {
    match s
    case Gate => ValidarJwt.Gate(env.auth, req.token).response
    case Dates(fields) => ValidateDate.DateRejection(ValidateDate.FirstInvalid(fields, req.body, env.now, env.instant).value)
    case Fields(checks) => FieldsRejection(Errors(checks, req.body, env.holds))
  }

  /** The chain run from `req.id == id`: each step either answers, which
      ends the chain, or calls `next()`; the gate also sets `req.id`. */
  function RunSteps(steps: seq<Step>, req: Request, env: Env, id: Option<int>): Chain
  {
    if steps == [] then Reached(id)
    else if !Passes(steps[0], req, env) then Stop(Refusal(steps[0], req, env))
    else
      var id' := if steps[0].Gate? then Some(ValidarJwt.Gate(env.auth, req.token).id) else id;
      RunSteps(steps[1..], req, env, id')
  }

  /** The handler is reached exactly when every middleware passes; otherwise
      the answer is that of the first middleware that does not; and a chain
      holding the gate hands the handler the gate's id. */
  lemma {:induction false} ChainReachedIffAllPass(steps: seq<Step>, req: Request, env: Env, id: Option<int>)
    ensures RunSteps(steps, req, env, id).Reached? <==> forall i :: 0 <= i < |steps| ==> Passes(steps[i], req, env)
    ensures RunSteps(steps, req, env, id).Stop? ==>
              exists i :: 0 <= i < |steps| && !Passes(steps[i], req, env) &&
                (forall j :: 0 <= j < i ==> Passes(steps[j], req, env)) &&
                RunSteps(steps, req, env, id).response == Refusal(steps[i], req, env)
    ensures RunSteps(steps, req, env, id).Reached? && (exists i :: 0 <= i < |steps| && steps[i] == Gate) ==>
              RunSteps(steps, req, env, id).id == Some(ValidarJwt.Gate(env.auth, req.token).id)
    ensures RunSteps(steps, req, env, id).Reached? && (forall i :: 0 <= i < |steps| ==> steps[i] != Gate) ==>
              RunSteps(steps, req, env, id).id == id
  {
    if steps != [] {
      var rest := steps[1..];
      if Passes(steps[0], req, env) {
        var id' := if steps[0].Gate? then Some(ValidarJwt.Gate(env.auth, req.token).id) else id;
        ChainReachedIffAllPass(rest, req, env, id');
        var r := RunSteps(steps, req, env, id);
        assert r == RunSteps(rest, req, env, id');
        if forall i :: 0 <= i < |rest| ==> Passes(rest[i], req, env) {
          forall i | 0 <= i < |steps| ensures Passes(steps[i], req, env) {
            if i > 0 { assert steps[i] == rest[i - 1]; }
          }
        } else {
          var i :| 0 <= i < |rest| && !Passes(rest[i], req, env);
          assert steps[i + 1] == rest[i];
        }
        if r.Stop? {
          var i :| 0 <= i < |rest| && !Passes(rest[i], req, env) &&
            (forall j :: 0 <= j < i ==> Passes(rest[j], req, env)) && r.response == Refusal(rest[i], req, env);
          assert steps[i + 1] == rest[i];
          forall j | 0 <= j < i + 1 ensures Passes(steps[j], req, env) {
            if j > 0 { assert steps[j] == rest[j - 1]; }
          }
        }
        if r.Reached? && exists i :: 0 <= i < |steps| && steps[i] == Gate {
          if !steps[0].Gate? {
            var i :| 0 <= i < |steps| && steps[i] == Gate;
            assert rest[i - 1] == Gate;
          }
        }
        if r.Reached? && forall i :: 0 <= i < |steps| ==> steps[i] != Gate {
          forall i | 0 <= i < |rest| ensures rest[i] != Gate {
            assert rest[i] == steps[i + 1];
          }
        }
      }
    }
  }

  /** The router's decision for a request. */
  function Dispatch(table: seq<Route>, req: Request, env: Env): Outcome
  {
    match FirstMatch(table, req.verb, req.path)
    case None => NoRoute
    case Some(i) =>
      match RunSteps(table[i].steps, req, env, None)
      case Stop(response) => Answered(response)
      case Reached(id) => Handled(table[i].handler, Bindings(table[i].pattern, req.path), id)
  }

  /** A request whose first fitting registration is `i` and whose chain
      passes every step reaches that registration's handler. */
  lemma DispatchAllPass(table: seq<Route>, req: Request, env: Env, i: nat)
    requires FirstMatch(table, req.verb, req.path) == Some(i)
    requires forall k :: 0 <= k < |table[i].steps| ==> Passes(table[i].steps[k], req, env)
    ensures Dispatch(table, req, env).Handled?
    ensures Dispatch(table, req, env).handler == table[i].handler
    ensures Dispatch(table, req, env).params == Bindings(table[i].pattern, req.path)
    ensures (exists k :: 0 <= k < |table[i].steps| && table[i].steps[k] == Gate) ==>
              ValidarJwt.Gate(env.auth, req.token).Pass? &&
              Dispatch(table, req, env).id == Some(ValidarJwt.Gate(env.auth, req.token).id)
    ensures (forall k :: 0 <= k < |table[i].steps| ==> table[i].steps[k] != Gate) ==> Dispatch(table, req, env).id == None
  {
    ChainReachedIffAllPass(table[i].steps, req, env, None);
  }

  predicate Gated(r: Route)
  {
    |r.steps| > 0 && r.steps[0] == Gate
  }

  predicate AllGated(table: seq<Route>)
  {
    forall i :: 0 <= i < |table| ==> Gated(table[i])
  }

  /** In a table whose every chain starts with `validarJWT`, no handler runs
      without a token the gate accepts, and every handler gets the token's
      id; a request without a token is answered by the gate, with 400. */
  lemma GatedTableNeedsToken(table: seq<Route>, req: Request, env: Env)
    requires AllGated(table)
    ensures Dispatch(table, req, env).Handled? ==>
              ValidarJwt.Gate(env.auth, req.token).Pass? &&
              Dispatch(table, req, env).id == Some(ValidarJwt.Gate(env.auth, req.token).id)
    ensures req.token == "" ==> Dispatch(table, req, env) in {NoRoute, Answered(ValidarJwt.NoToken)}
  {
    var m := FirstMatch(table, req.verb, req.path);
    if m.Some? {
      var steps := table[m.value].steps;
      assert Gated(table[m.value]);
      ChainReachedIffAllPass(steps, req, env, None);
    }
  }

  /** A handler reached through a registration ran every middleware of its
      chain successfully: the gate, the date fields and the field checks. */
  lemma HandledPassedChain(table: seq<Route>, req: Request, env: Env)
    ensures Dispatch(table, req, env).Handled? ==>
              var i := FirstMatch(table, req.verb, req.path).value;
              table[i].handler == Dispatch(table, req, env).handler &&
              forall k :: 0 <= k < |table[i].steps| ==> Passes(table[i].steps[k], req, env)
  {
    var m := FirstMatch(table, req.verb, req.path);
    if m.Some? {
      ChainReachedIffAllPass(table[m.value].steps, req, env, None);
    }
  }
}
