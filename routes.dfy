/** The five route files as registration tables, in registration order, with
    the facts their order and their chains decide. Paths are relative to the
    router's mount point (`/api/entradas`, `/api/externas`, `/api/internas`,
    `/api/tornos`, and `/api/` for the users router). */
module RouteTables {
  import opened Js
  import opened Http
  import opened Router
  import ValidarJwt
  import ValidateDate

  /** No listed date field is rejected. */
  predicate DatesPass(fields: seq<string>, req: Request, env: Env)
  {
    ValidateDate.FirstInvalid(fields, req.body, env.now, env.instant).None?
  }

  // ---------------------------------------------------------------------------
  // /api/entradas

  const Entradas: seq<Route> := [
    Route(GET, [], [Gate], "getEntradas"),
    Route(GET, [Lit("almacen")], [Gate], "getEntradasAlmacen"),
    Route(GET, [Lit("porteria")], [Gate], "getEntradasPorteria"),
    Route(GET, [Lit("by-matricula"), Var("matricula")], [Gate], "getEntradaByMatricula"),
    Route(GET, [Var("id")], [Gate], "getEntrada"),
    Route(POST, [], [Gate, Dates(["fecha_entrada"])], "setEntrada"),
    Route(PUT, [Lit("recepcion")], [Gate], "updateRecepcionEntrada"),
    Route(PUT, [Lit("porteria")], [Gate, Dates(["fecha"])], "updatePorteriaEntrada"),
    Route(PUT, [Lit("select")], [Gate, Dates(["fecha_entrada1", "fecha_entrada2"])], "getEntradasSelect"),
    Route(DELETE, [Var("id")], [Gate], "deleteEntrada"),
    Route(PUT, [Var("id")], [Gate, Dates(["fecha_entrada", "fecha_salida"])], "updateEntradas")
  ]

  /** Every entradas handler sits behind `validarJWT`: none runs without a
      token the gate accepts, and a request without a token gets the gate's
      400, never a controller's own 401. */
  lemma EntradasNeedToken(req: Request, env: Env)
    ensures Dispatch(Entradas, req, env).Handled? ==>
              ValidarJwt.Gate(env.auth, req.token).Pass? &&
              Dispatch(Entradas, req, env).id == Some(ValidarJwt.Gate(env.auth, req.token).id)
    ensures req.token == "" ==> Dispatch(Entradas, req, env) in {NoRoute, Answered(ValidarJwt.NoToken)}
  {
    assert AllGated(Entradas);
    GatedTableNeedsToken(Entradas, req, env);
  }

  /** The fixed GET paths are registered before `/:id` and win over it. */
  lemma EntradasAlmacenFirst()
    ensures FirstMatch(Entradas, GET, ["almacen"]) == Some(1)
  {
    assert !Fits(Entradas[0], GET, ["almacen"]);
    assert Fits(Entradas[1], GET, ["almacen"]);
  }

  lemma EntradasPorteriaFirst()
    ensures FirstMatch(Entradas, GET, ["porteria"]) == Some(2)
  {
    assert !Fits(Entradas[0], GET, ["porteria"]);
    assert !Fits(Entradas[1], GET, ["porteria"]) by { assert !SegmentFits(Entradas[1].pattern[0], "porteria"); }
    assert Fits(Entradas[2], GET, ["porteria"]);
  }

  lemma EntradasByMatricula(seg: string)
    requires seg != ""
    ensures FirstMatch(Entradas, GET, ["by-matricula", seg]) == Some(3)
  {
    assert forall j :: 0 <= j < 3 ==> |Entradas[j].pattern| != 2;
    assert Fits(Entradas[3], GET, ["by-matricula", seg]);
  }

  /** Any other single segment is an id. */
  lemma EntradasIdPath(seg: string)
    requires seg != "" && seg != "almacen" && seg != "porteria"
    ensures FirstMatch(Entradas, GET, [seg]) == Some(4)
  {
    assert !Fits(Entradas[0], GET, [seg]);
    assert !Fits(Entradas[1], GET, [seg]) by { assert !SegmentFits(Entradas[1].pattern[0], seg); }
    assert !Fits(Entradas[2], GET, [seg]) by { assert !SegmentFits(Entradas[2].pattern[0], seg); }
    assert !Fits(Entradas[3], GET, [seg]);
    assert Fits(Entradas[4], GET, [seg]);
  }

  /** The date-checked entradas handlers run only with valid dates in the
      fields their route lists. */
  lemma EntradasDatesChecked(req: Request, env: Env)
    ensures var o := Dispatch(Entradas, req, env);
            o.Handled? ==>
              (o.handler == "setEntrada" ==> DatesPass(["fecha_entrada"], req, env)) &&
              (o.handler == "updatePorteriaEntrada" ==> DatesPass(["fecha"], req, env)) &&
              (o.handler == "getEntradasSelect" ==> DatesPass(["fecha_entrada1", "fecha_entrada2"], req, env)) &&
              (o.handler == "updateEntradas" ==> DatesPass(["fecha_entrada", "fecha_salida"], req, env))
  {
    HandledPassedChain(Entradas, req, env);
    var o := Dispatch(Entradas, req, env);
    if o.Handled? {
      var i := FirstMatch(Entradas, req.verb, req.path).value;
      assert Entradas[i].handler == o.handler;
      if i in {5, 7, 8, 10} {
        assert Passes(Entradas[i].steps[1], req, env);
      }
    }
  }

  lemma EntradasRecepcionRoute()
    ensures FirstMatch(Entradas, PUT, ["recepcion"]) == Some(6)
  {
    assert Fits(Entradas[6], PUT, ["recepcion"]);
  }

  /** `PUT /recepcion` has no date check: with a valid token the handler runs
      whatever the body holds. */
  lemma RecepcionUnchecked(token: string, body: Body, env: Env)
    requires ValidarJwt.Gate(env.auth, token).Pass?
    ensures Dispatch(Entradas, Request(PUT, ["recepcion"], token, body), env) ==
            Handled("updateRecepcionEntrada", map[], Some(ValidarJwt.Gate(env.auth, token).id))
  {
    EntradasRecepcionRoute();
    var req := Request(PUT, ["recepcion"], token, body);
    assert Entradas[6].steps == [Gate];
    DispatchAllPass(Entradas, req, env, 6);
    assert Bindings([Lit("recepcion")], ["recepcion"]) == map[] by {
      assert Bindings([], []) == map[];
    }
  }

  // ---------------------------------------------------------------------------
  // /api/externas

  const Externas: seq<Route> := [
    Route(POST, [Lit("new_externa")], [Gate], "setExterna"),
    Route(GET, [Lit("externas_hoy")], [Gate], "getExternasHoy"),
    Route(GET, [Lit("porteria")], [Gate], "getExternaPorteria"),
    Route(GET, [Var("id")], [Gate], "getExterna"),
    Route(PUT, [Lit("porteria")], [Gate], "updatePorteriaExterna"),
    Route(DELETE, [Lit("externa"), Var("id")], [Gate], "deleteExterna"),
    Route(PUT, [Lit("buscar_externa")], [Gate, Dates(["fechaEntrada", "fechaEntrada2"])], "buscarExterna"),
    Route(PUT, [Var("id")], [Gate], "updateExternas"),
    Route(GET, [Lit("by-nombreConductor"), Var("nombreConductor")], [Gate], "getExternaByNombreConductor")
  ]

  lemma ExternasNeedToken(req: Request, env: Env)
    ensures Dispatch(Externas, req, env).Handled? ==>
              ValidarJwt.Gate(env.auth, req.token).Pass? &&
              Dispatch(Externas, req, env).id == Some(ValidarJwt.Gate(env.auth, req.token).id)
    ensures req.token == "" ==> Dispatch(Externas, req, env) in {NoRoute, Answered(ValidarJwt.NoToken)}
  {
    assert AllGated(Externas);
    GatedTableNeedsToken(Externas, req, env);
  }

  /** `PUT /porteria` and `PUT /buscar_externa` are registered before
      `PUT /:id` and win over it. */
  lemma ExternasPorteriaFirst()
    ensures FirstMatch(Externas, PUT, ["porteria"]) == Some(4)
  {
    assert forall j :: 0 <= j < 4 ==> Externas[j].verb != PUT;
    assert Fits(Externas[4], PUT, ["porteria"]);
  }

  lemma ExternasBuscarFirst()
    ensures FirstMatch(Externas, PUT, ["buscar_externa"]) == Some(6)
  {
    assert forall j :: 0 <= j < 4 ==> Externas[j].verb != PUT;
    assert !Fits(Externas[4], PUT, ["buscar_externa"]) by { assert !SegmentFits(Externas[4].pattern[0], "buscar_externa"); }
    assert Fits(Externas[6], PUT, ["buscar_externa"]);
  }

  lemma ExternasIdPath(seg: string)
    requires seg != "" && seg != "porteria" && seg != "buscar_externa"
    ensures FirstMatch(Externas, PUT, [seg]) == Some(7)
  {
    assert forall j :: 0 <= j < 4 ==> Externas[j].verb != PUT;
    assert !Fits(Externas[4], PUT, [seg]) by { assert !SegmentFits(Externas[4].pattern[0], seg); }
    assert !Fits(Externas[6], PUT, [seg]) by { assert !SegmentFits(Externas[6].pattern[0], seg); }
    assert Fits(Externas[7], PUT, [seg]);
  }

  /** Deletion lives under `/externa/:id`; `DELETE /:id` is not a route of
      this router. */
  lemma ExternasDeletePath(seg: string)
    ensures seg != "" ==> FirstMatch(Externas, DELETE, ["externa", seg]) == Some(5)
    ensures FirstMatch(Externas, DELETE, [seg]) == None
  {
    assert forall j :: 0 <= j < |Externas| && j != 5 ==> Externas[j].verb != DELETE;
    assert !Fits(Externas[5], DELETE, [seg]);
  }

  /** Only `PUT /buscar_externa` checks dates; `POST /new_externa` and
      `PUT /:id` run with any body once the token passes. */
  lemma ExternasDatesChecked(req: Request, env: Env)
    ensures var o := Dispatch(Externas, req, env);
            o.Handled? && o.handler == "buscarExterna" ==> DatesPass(["fechaEntrada", "fechaEntrada2"], req, env)
    ensures forall i :: 0 <= i < |Externas| && i != 6 ==> Externas[i].steps == [Gate]
  {
    HandledPassedChain(Externas, req, env);
    var o := Dispatch(Externas, req, env);
    if o.Handled? && o.handler == "buscarExterna" {
      var i := FirstMatch(Externas, req.verb, req.path).value;
      assert i == 6;
      assert Passes(Externas[i].steps[1], req, env);
    }
  }

  // ---------------------------------------------------------------------------
  // /api/internas

  const Internas: seq<Route> := [
    Route(POST, [Lit("new_Interna")], [Gate, Dates(["fechaSalida"])], "setInterna"),
    Route(GET, [Lit("internas_hoy")], [Gate], "getInternasHoy"),
    Route(GET, [Var("id")], [Gate], "getInterna"),
    Route(POST, [Lit("code")], [Gate], "getInternaCode"),
    Route(PUT, [Lit("porteria")], [Gate, Dates(["fechaEntrada"])], "updatePorteriaInterna"),
    Route(DELETE, [Lit("interna"), Var("id")], [Gate], "deleteInterna"),
    Route(PUT, [Lit("buscar_interna")], [Gate, Dates(["fechaSalida", "fechaSalida2"])], "consultaInterna"),
    Route(PUT, [Var("id")], [Gate, Dates(["fechaEntrada", "fechaSalida"])], "updateInternas")
  ]

  lemma InternasNeedToken(req: Request, env: Env)
    ensures Dispatch(Internas, req, env).Handled? ==>
              ValidarJwt.Gate(env.auth, req.token).Pass? &&
              Dispatch(Internas, req, env).id == Some(ValidarJwt.Gate(env.auth, req.token).id)
    ensures req.token == "" ==> Dispatch(Internas, req, env) in {NoRoute, Answered(ValidarJwt.NoToken)}
  {
    assert AllGated(Internas);
    GatedTableNeedsToken(Internas, req, env);
  }

  /** The date-checked internas handlers run only with valid dates in the
      fields their route lists. */
  lemma InternasDatesChecked(req: Request, env: Env)
    ensures var o := Dispatch(Internas, req, env);
            o.Handled? ==>
              (o.handler == "setInterna" ==> DatesPass(["fechaSalida"], req, env)) &&
              (o.handler == "updatePorteriaInterna" ==> DatesPass(["fechaEntrada"], req, env)) &&
              (o.handler == "consultaInterna" ==> DatesPass(["fechaSalida", "fechaSalida2"], req, env)) &&
              (o.handler == "updateInternas" ==> DatesPass(["fechaEntrada", "fechaSalida"], req, env))
  {
    HandledPassedChain(Internas, req, env);
    var o := Dispatch(Internas, req, env);
    if o.Handled? {
      var i := FirstMatch(Internas, req.verb, req.path).value;
      assert Internas[i].handler == o.handler;
      if i in {0, 4, 6, 7} {
        assert Passes(Internas[i].steps[1], req, env);
      }
    }
  }

  lemma InternasBuscarRoute()
    ensures FirstMatch(Internas, PUT, ["buscar_interna"]) == Some(6)
  {
    assert forall j :: 0 <= j < 4 ==> Internas[j].verb != PUT;
    assert !Fits(Internas[4], PUT, ["buscar_interna"]) by { assert !SegmentFits(Internas[4].pattern[0], "buscar_interna"); }
    assert Fits(Internas[6], PUT, ["buscar_interna"]);
  }

  /** `PUT /buscar_interna` checks `fechaSalida` and `fechaSalida2`, while
      `consultaInterna` filters on `fecha_entrada` and `fecha_entrada2`: a
      body without the checked keys reaches the handler whatever the keys it
      reads hold. */
  lemma BuscarInternaChecksOtherKeys(token: string, body: Body, env: Env)
    requires ValidarJwt.Gate(env.auth, token).Pass?
    requires Get(body, "fechaSalida").Undef? && Get(body, "fechaSalida2").Undef?
    ensures Dispatch(Internas, Request(PUT, ["buscar_interna"], token, body), env) ==
            Handled("consultaInterna", map[], Some(ValidarJwt.Gate(env.auth, token).id))
  {
    InternasBuscarRoute();
    var req := Request(PUT, ["buscar_interna"], token, body);
    ValidateDate.AbsentFieldsPass(["fechaSalida", "fechaSalida2"], body, env.now, env.instant);
    assert Internas[6].steps == [Gate, Dates(["fechaSalida", "fechaSalida2"])];
    DispatchAllPass(Internas, req, env, 6);
    assert Bindings([Lit("buscar_interna")], ["buscar_interna"]) == map[] by {
      assert Bindings([], []) == map[];
    }
  }

  // ---------------------------------------------------------------------------
  // /api/tornos

  const Tornos: seq<Route> := [
    Route(POST, [Lit("setTorno")], [Gate, Dates(["fechaEntrada", "fechaSalida"])], "setTorno"),
    Route(GET, [Lit("tornos_hoy")], [Gate], "getTornosHoy"),
    Route(GET, [Var("id")], [Gate], "getTorno"),
    Route(POST, [Lit("code")], [Gate], "getTornoCode"),
    Route(DELETE, [Var("id")], [Gate], "deleteTorno"),
    Route(PUT, [Var("id")], [Gate, Dates(["fechaEntrada", "fechaSalida"])], "updateTorno"),
    Route(POST, [Lit("consulta")], [Gate, Dates(["fechaInicio", "fechaFin"])], "consultaTorno")
  ]

  lemma TornosNeedToken(req: Request, env: Env)
    ensures Dispatch(Tornos, req, env).Handled? ==>
              ValidarJwt.Gate(env.auth, req.token).Pass? &&
              Dispatch(Tornos, req, env).id == Some(ValidarJwt.Gate(env.auth, req.token).id)
    ensures req.token == "" ==> Dispatch(Tornos, req, env) in {NoRoute, Answered(ValidarJwt.NoToken)}
  {
    assert AllGated(Tornos);
    GatedTableNeedsToken(Tornos, req, env);
  }

  /** `GET /tornos_hoy` is registered before `GET /:id` and wins. */
  lemma TornosHoyFirst()
    ensures FirstMatch(Tornos, GET, ["tornos_hoy"]) == Some(1)
  {
    assert !Fits(Tornos[0], GET, ["tornos_hoy"]);
    assert Fits(Tornos[1], GET, ["tornos_hoy"]);
  }

  lemma TornosIdPath(seg: string)
    requires seg != "" && seg != "tornos_hoy"
    ensures FirstMatch(Tornos, GET, [seg]) == Some(2)
  {
    assert !Fits(Tornos[0], GET, [seg]);
    assert !Fits(Tornos[1], GET, [seg]) by { assert !SegmentFits(Tornos[1].pattern[0], seg); }
    assert Fits(Tornos[2], GET, [seg]);
  }

  /** The date-checked tornos handlers run only with valid dates in the
      fields their route lists; `DELETE /:id` checks none. */
  lemma TornosDatesChecked(req: Request, env: Env)
    ensures var o := Dispatch(Tornos, req, env);
            o.Handled? ==>
              (o.handler == "setTorno" ==> DatesPass(["fechaEntrada", "fechaSalida"], req, env)) &&
              (o.handler == "updateTorno" ==> DatesPass(["fechaEntrada", "fechaSalida"], req, env)) &&
              (o.handler == "consultaTorno" ==> DatesPass(["fechaInicio", "fechaFin"], req, env))
    ensures Tornos[4].steps == [Gate]
  {
    HandledPassedChain(Tornos, req, env);
    var o := Dispatch(Tornos, req, env);
    if o.Handled? {
      var i := FirstMatch(Tornos, req.verb, req.path).value;
      assert Tornos[i].handler == o.handler;
      if i in {0, 5, 6} {
        assert Passes(Tornos[i].steps[1], req, env);
      }
    }
  }

  // ---------------------------------------------------------------------------
  // /api/ (users)

  const EmailCheck := FieldCheck("email", IsEmail, "El email es obligatorio")
  const PasswordCheck := FieldCheck("password", NotEmpty, "El password es obligatorio")
  const NameCheck := FieldCheck("name", NotEmpty, "El nombre es obligatorio")

  const Usuarios: seq<Route> := [
    Route(GET, [Lit("users")], [Gate], "todosUsuarios"),
    Route(GET, [Lit("users"), Var("id")], [Gate], "usuarioId"),
    Route(POST, [Lit("login")], [Fields([EmailCheck, PasswordCheck])], "login"),
    Route(POST, [Lit("login"), Lit("new")], [Fields([NameCheck, EmailCheck, PasswordCheck])], "createUsuario"),
    Route(GET, [Lit("login"), Lit("renew")], [Gate], "renewToken"),
    Route(PUT, [Lit("users"), Var("id")], [Fields([NameCheck, EmailCheck, PasswordCheck])], "updateUsuario"),
    Route(DELETE, [Lit("users"), Var("id")], [Gate], "deleteUsuario")
  ]

  /** Exactly the login, sign-up and user-update routes lack `validarJWT`. */
  lemma UsuariosGates()
    ensures forall i :: 0 <= i < |Usuarios| ==>
              (Gated(Usuarios[i]) <==> Usuarios[i].handler !in {"login", "createUsuario", "updateUsuario"})
  {
  }

  lemma UsuariosUpdateRoute(id: string)
    requires id != ""
    ensures FirstMatch(Usuarios, PUT, ["users", id]) == Some(5)
  {
    assert forall j :: 0 <= j < 5 ==> Usuarios[j].verb != PUT;
    assert Fits(Usuarios[5], PUT, ["users", id]);
  }

  /** `PUT /users/:id` runs without any token once its field checks pass;
      `req.id` is then unset. */
  lemma UpdateUsuarioWithoutToken(id: string, body: Body, env: Env)
    requires id != ""
    requires forall c :: c in [NameCheck, EmailCheck, PasswordCheck] ==> CheckHolds(c, body, env.holds)
    ensures Dispatch(Usuarios, Request(PUT, ["users", id], "", body), env) == Handled("updateUsuario", map["id" := id], None)
  {
    var checks := [NameCheck, EmailCheck, PasswordCheck];
    UsuariosUpdateRoute(id);
    assert forall i :: 0 <= i < |checks| ==> CheckHolds(checks[i], body, env.holds);
    ErrorsEmptyIff(checks, body, env.holds);
    var req := Request(PUT, ["users", id], "", body);
    assert Usuarios[5].steps == [Fields(checks)];
    DispatchAllPass(Usuarios, req, env, 5);
    assert Bindings([Lit("users"), Var("id")], ["users", id]) == map["id" := id] by {
      assert Bindings([Lit("users")], ["users"]) == map[] by {
        assert Bindings([], []) == map[];
      }
    }
  }

  /** `renewToken` runs only behind the gate, so it always gets the id the
      token carries. */
  lemma RenewGetsGateId(req: Request, env: Env)
    ensures var o := Dispatch(Usuarios, req, env);
            o.Handled? && o.handler == "renewToken" ==>
              ValidarJwt.Gate(env.auth, req.token).Pass? && o.id == Some(ValidarJwt.Gate(env.auth, req.token).id)
  {
    var o := Dispatch(Usuarios, req, env);
    if o.Handled? && o.handler == "renewToken" {
      var i := FirstMatch(Usuarios, req.verb, req.path).value;
      assert i == 4;
      ChainReachedIffAllPass(Usuarios[i].steps, req, env, None);
      assert Usuarios[i].steps[0] == Gate;
    }
  }

  lemma UsuariosLoginRoute()
    ensures FirstMatch(Usuarios, POST, ["login"]) == Some(2)
  {
    assert Usuarios[0].verb != POST && Usuarios[1].verb != POST;
    assert Fits(Usuarios[2], POST, ["login"]);
  }

  /** A login whose email fails its check is answered 400 by `validarCampos`
      with the email's message, before the controller runs. */
  lemma LoginRejectsBadEmail(body: Body, token: string, env: Env)
    requires !CheckHolds(EmailCheck, body, env.holds)
    ensures Dispatch(Usuarios, Request(POST, ["login"], token, body), env) ==
            Answered(FieldsRejection(Errors([EmailCheck, PasswordCheck], body, env.holds)))
    ensures Errors([EmailCheck, PasswordCheck], body, env.holds)["email"] == JObj(map["msg" := JStr("El email es obligatorio")])
  {
    UsuariosLoginRoute();
    ErrorsFirstMessage([EmailCheck, PasswordCheck], body, env.holds, 0);
  }
}
