/** The controller for employees leaving the premises, over the table
    `salidas_empleados`: an exit is recorded with no return time, the
    gatehouse later stamps it, and it can be revised, deleted, looked up and
    searched. Its token failures and 500s use the key `msg`. */
module Internas {
  import opened Js
  import opened Http
  import opened Jwt
  import opened Store
  import opened Query
  import opened Guards
  import Usuarios

  /** One row of `salidas_empleados` (the id is the map key). */
  datatype Salida = Salida(
    codigoEmpleado: Val,
    nombrePersona: Val,
    fechaEntrada: Val,
    fechaSalida: Val,
    motivo: Val,
    usuario: Val)

  /** A row as `SELECT *` returns it. */
  function RowJson(id: int, s: Salida): Json
  {
    JObj(map[
      "id" := JNum(id),
      "codigo_empleado" := ToJson(s.codigoEmpleado),
      "nombre_persona" := ToJson(s.nombrePersona),
      "fecha_entrada" := ToJson(s.fechaEntrada),
      "fecha_salida" := ToJson(s.fechaSalida),
      "motivo" := ToJson(s.motivo),
      "usuario" := ToJson(s.usuario)])
  }

  /** `setInterna` refuses a body whose code, name or exit time is falsy. */
  predicate Incomplete(body: Body)
  {
    !Truthy(Get(body, "codigoEmpleado")) || !Truthy(Get(body, "nombrePersona")) || !Truthy(Get(body, "fechaSalida"))
  }

  /** The row `setInterna` inserts for a complete body: the employee has left
      and not come back, so the return time is NULL. */
  function NewSalida(body: Body, user: int): (s: Salida)
    requires !Incomplete(body)
    ensures s.fechaEntrada == Null && s.usuario == Num(user)
    ensures Truthy(s.codigoEmpleado) && Truthy(s.nombrePersona) && Truthy(s.fechaSalida)
    ensures s.codigoEmpleado == Get(body, "codigoEmpleado") && s.fechaSalida == Get(body, "fechaSalida")
    ensures s.nombrePersona == Get(body, "nombrePersona")
    // a missing reason is stored as NULL; a given one is stored as sent
    ensures Get(body, "motivo").Undef? ==> s.motivo == Null
    ensures !Get(body, "motivo").Undef? ==> s.motivo == Get(body, "motivo")
  {
    Salida(Get(body, "codigoEmpleado"), Get(body, "nombrePersona"), Null, Get(body, "fechaSalida"),
      Col(Get(body, "motivo")), Num(user))
  }

  /** The columns `updateInternas` overwrites: every data column, the two
      times through `|| null`, and the author. */
  function Revised(s: Salida, body: Body, user: int): Salida
  {
    s.(codigoEmpleado := Col(Get(body, "codigo_empleado")), nombrePersona := Col(Get(body, "nombre_persona")),
       fechaSalida := Or(Get(body, "fecha_salida"), Null), motivo := Col(Get(body, "motivo")),
       fechaEntrada := Or(Get(body, "fecha_entrada"), Null), usuario := Num(user))
  }

  /** After a revision neither time is falsy-but-present: an empty string,
      `0` or `false` is stored as NULL, a truthy value as given. */
  lemma RevisedTimes(s: Salida, body: Body, user: int)
    ensures var r := Revised(s, body, user);
            (r.fechaEntrada.Null? || Truthy(r.fechaEntrada)) && (r.fechaSalida.Null? || Truthy(r.fechaSalida))
    ensures Truthy(Get(body, "fecha_entrada")) ==> Revised(s, body, user).fechaEntrada == Get(body, "fecha_entrada")
    ensures Truthy(Get(body, "fecha_salida")) ==> Revised(s, body, user).fechaSalida == Get(body, "fecha_salida")
  {
  }

  // The fixed answers and message pieces of the handlers below.
  const GetCrash := Reply(500, false, "msg", "Error al obtener interna")
  const IncompleteData := Response(400, map["ok" := JBool(false), "entrada" := JStr("datos empleado enviados nulos")])
  const PorteriaCrash := Reply(500, false, "msg", "Error al actualizar portería")
  const PorteriaDone := Reply(200, true, "mensaje", "Entrada empleado actualizada correctamente")
  const DeleteCrash := Reply(500, false, "msg", "Error al eliminar interna")
  const ServerError := Reply(500, false, "msg", "Error interno del servidor")
  const MissingStart := Reply(400, false, "mensaje", "El campo fecha_entrada es obligatorio para la búsqueda.")
  const NoInterna := "No se encontró interna con id "
  const NoCode := "empleado con codigo empleado "

  // ---------------------------------------------------------------------------
  // consultaInterna

  const SearchBase := "SELECT * FROM salidas_empleados WHERE 1=1"
  const ByCode := " AND codigo_empleado ILIKE "
  const ByName := " AND nombre_persona ILIKE "
  const ByReason := " AND motivo ILIKE "
  const ByExitTime := " AND fecha_salida BETWEEN "
  const AndText := " AND "
  const NewestFirst := " ORDER BY fecha_salida DESC LIMIT "
  const OffsetText := " OFFSET "

  /** The text of `consultaInterna` up to its filters. */
  function SearchTexts(code: Blankness, name: Blankness, reason: Blankness): seq<string>
  {
    [SearchBase] + ClauseTexts(code, ByCode, "") + ClauseTexts(name, ByName, "") + ClauseTexts(reason, ByReason, "")
  }

  /** The three optional `ILIKE` filters of `consultaInterna`, in order. */
  method SearchFilters(code: Blankness, name: Blankness, reason: Blankness)
    returns (sql: Sql, params: seq<Val>, paramIndex: nat)
    requires !code.NoTrim? && !name.NoTrim? && !reason.NoTrim?
    ensures Numbered(sql, params) && paramIndex == |params| + 1
    ensures params == PatternOf(code) + PatternOf(name) + PatternOf(reason)
    ensures Texts(sql) == SearchTexts(code, name, reason)
  {
    sql, params, paramIndex := [Text(SearchBase)], [], 1;
    assert Texts(sql) == [SearchBase] by { assert sql[..0] == []; }
    sql, params, paramIndex := AddFilter(sql, params, paramIndex, code, ByCode, "");
    sql, params, paramIndex := AddFilter(sql, params, paramIndex, name, ByName, "");
    sql, params, paramIndex := AddFilter(sql, params, paramIndex, reason, ByReason, "");
  }

  /** The query `consultaInterna` builds once the start time is known: the
      filters, the exit-time range, the limit and the offset. */
  method SearchQuery(code: Blankness, name: Blankness, reason: Blankness,
                     f1: Val, f2: Val, limit: Val, offset: Val) returns (q: Built)
    requires !code.NoTrim? && !name.NoTrim? && !reason.NoTrim?
    ensures Numbered(q.sql, q.params)
    ensures q.params == PatternOf(code) + PatternOf(name) + PatternOf(reason) + [f1, f2, limit, offset]
    ensures Texts(q.sql) == SearchTexts(code, name, reason) + [ByExitTime, AndText, NewestFirst, OffsetText]
  {
    var sql, params, paramIndex := SearchFilters(code, name, reason);
    ghost var patterns, texts := params, Texts(sql);
    sql, params, paramIndex := AddParam(sql, params, paramIndex, ByExitTime, f1);
    sql, params, paramIndex := AddParam(sql, params, paramIndex, AndText, f2);
    sql, params, paramIndex := AddParam(sql, params, paramIndex, NewestFirst, limit);
    sql, params, paramIndex := AddParam(sql, params, paramIndex, OffsetText, offset);
    AppendFour(patterns, f1, f2, limit, offset);
    AppendFour(texts, ByExitTime, AndText, NewestFirst, OffsetText);
    q := Built(sql, params);
  }

  /** Whether one of the text filters is truthy without being a string, so
      that its `.trim()` throws. */
  predicate SearchTrimThrows(body: Body)
  {
    Test(body, "codigo_empleado").NoTrim? || Test(body, "nombre_persona").NoTrim? || Test(body, "motivo").NoTrim?
  }

  /** `consultaInterna`: the start time is required; a blank end time becomes
      the current minute (`dbNow`, what `date_trunc('minute', ...)` gives). */
  method ConsultaInterna(body: Body, dbNow: Val) returns (r: Search)
    ensures TextBlank(Get(body, "fecha_entrada")) ==> r == Answer(MissingStart)
    ensures !TextBlank(Get(body, "fecha_entrada")) ==> (r.Answer? <==> SearchTrimThrows(body))
    ensures r.Answer? ==> r.response in {MissingStart, ServerError}
    ensures r.Run? ==> Numbered(r.query.sql, r.query.params)
    ensures r.Run? ==>
              r.query.params ==
                PatternOf(Test(body, "codigo_empleado")) + PatternOf(Test(body, "nombre_persona")) +
                PatternOf(Test(body, "motivo")) + [
                  Get(body, "fecha_entrada"),
                  if TextBlank(Get(body, "fecha_entrada2")) then dbNow else Get(body, "fecha_entrada2"),
                  DefaultIfUndefined(Get(body, "limit"), Num(100)),
                  DefaultIfUndefined(Get(body, "offset"), Num(0))]
    ensures r.Run? ==>
              Texts(r.query.sql) ==
                SearchTexts(Test(body, "codigo_empleado"), Test(body, "nombre_persona"), Test(body, "motivo")) +
                [ByExitTime, AndText, NewestFirst, OffsetText]
  {
    var f1 := Get(body, "fecha_entrada");
    var f2 := Get(body, "fecha_entrada2");
    var limit := DefaultIfUndefined(Get(body, "limit"), Num(100));
    var offset := DefaultIfUndefined(Get(body, "offset"), Num(0));
    if TextBlank(f1) {
      return Answer(MissingStart);
    }
    if TextBlank(f2) {
      f2 := dbNow;
    }
    var code := Test(body, "codigo_empleado");
    var name := Test(body, "nombre_persona");
    var reason := Test(body, "motivo");
    if code.NoTrim? || name.NoTrim? || reason.NoTrim? {
      return Answer(ServerError);
    }
    var q := SearchQuery(code, name, reason, f1, f2, limit, offset);
    r := Run(q);
  }

  // ---------------------------------------------------------------------------
  // getInternaCode

  /** `getInternaCode`: the user holding `body.code` as employee code, looked
      up in `users`. With no match the answer is a 400 that echoes the code
      (left out when undefined). */
  method GetInternaCode(users: map<int, Usuarios.Usuario>, body: Body) returns (res: Response)
    ensures !Usuarios.HasCode(users, Get(body, "code")) ==>
              res == Response(400, With(map["ok" := JBool(false),
                                            "mensaje" := JStr(NoCode + ToJsString(Get(body, "code")) + " no se encuentra")],
                                        "codigo_empleado", Get(body, "code")))
    ensures Usuarios.HasCode(users, Get(body, "code")) ==>
              exists k :: k in users && SameText(users[k].codigoEmpleado, Get(body, "code")) &&
                res == Response(200, map["usuario" := JObj(Usuarios.UserObject(k, users[k]))])
  {
    var code := Get(body, "code");
    if !Usuarios.HasCode(users, code) {
      return Response(400, With(map["ok" := JBool(false), "mensaje" := JStr(NoCode + ToJsString(code) + " no se encuentra")],
                                "codigo_empleado", code));
    }
    var k :| k in users && SameText(users[k].codigoEmpleado, code);
    res := Response(200, map["usuario" := JObj(Usuarios.UserObject(k, users[k]))]);
  }

  /** An undefined code matches no user, so it is always answered 400 and the
      echo of the code is left out. */
  lemma UndefinedCodeRefused(users: map<int, Usuarios.Usuario>)
    ensures !Usuarios.HasCode(users, Undef)
    ensures With(map["ok" := JBool(false)], "codigo_empleado", Undef) == map["ok" := JBool(false)]
  {
  }

  // ---------------------------------------------------------------------------
  // The handlers that read or change the table

  class InternasTable {
    var rows: map<int, Salida>
    var nextId: int

    /** Every id was handed out by the SERIAL counter. */
    predicate Valid()
      reads this
    {
      nextId >= 1 && forall k :: k in rows ==> 1 <= k < nextId
    }

    constructor ()
      ensures Valid() && rows == map[] && nextId == 1
    {
      rows := map[];
      nextId := 1;
    }

    /** `getInternasHoy`: the exits that fall on `today` (`NOW()::DATE`),
        where `day` is the database's `::DATE` cast. */
    method GetInternasHoy(today: string, day: Val -> Option<string>) returns (listed: set<int>)
      ensures forall k :: k in listed <==> k in rows && day(rows[k].fechaSalida) == Some(today)
    {
      listed := set k | k in rows && day(rows[k].fechaSalida) == Some(today);
    }

    /** `getInterna` for the path segment `param`. */
    method GetInterna(param: string) returns (res: Response)
      ensures PathId(param).None? ==> res == GetCrash
      ensures PathId(param).Some? && PathId(param).value !in rows ==>
                res == Notice(Num(PathId(param).value), "empleado con id " + IntToString(PathId(param).value) + " no se encuentra")
      ensures PathId(param).Some? && PathId(param).value in rows ==>
                res == Response(200, map["ok" := JBool(true), "interna" := RowJson(PathId(param).value, rows[PathId(param).value])])
    {
      var id := PathId(param);
      if id.None? {
        // a NaN or out-of-range id makes the query throw
        return GetCrash;
      }
      var n := id.value;
      if n !in rows {
        return Notice(Num(n), "empleado con id " + IntToString(n) + " no se encuentra");
      }
      return Response(200, map["ok" := JBool(true), "interna" := RowJson(n, rows[n])]);
    }

    /** `setInterna`: inserts the exit, then reads an id back by employee code
        and exit time; the id answered names a row with the request's code
        and exit time. */
    method SetInterna(auth: Auth, token: string, body: Body) returns (res: Response)
      requires Valid()
      modifies this
      ensures Valid()
      ensures CheckToken(auth, token, "msg").Refused? ==>
                res == CheckToken(auth, token, "msg").response && rows == old(rows) && nextId == old(nextId)
      ensures CheckToken(auth, token, "msg").Operator? && Incomplete(body) ==>
                res == IncompleteData && rows == old(rows) && nextId == old(nextId)
      ensures CheckToken(auth, token, "msg").Operator? && !Incomplete(body) ==>
                old(nextId) !in old(rows) && nextId == old(nextId) + 1 &&
                rows == old(rows)[old(nextId) := NewSalida(body, CheckToken(auth, token, "msg").id)] &&
                exists k :: k in rows && SameText(rows[k].codigoEmpleado, Get(body, "codigoEmpleado")) &&
                  SameText(rows[k].fechaSalida, Get(body, "fechaSalida")) &&
                  res == Response(200, map["ok" := JBool(true), "interna" := JNum(k)])
    {
      var caller := CheckToken(auth, token, "msg");
      if caller.Refused? {
        return caller.response;
      }
      var code := Get(body, "codigoEmpleado");
      var salida := Get(body, "fechaSalida");
      if !Truthy(code) || !Truthy(Get(body, "nombrePersona")) || !Truthy(salida) {
        return IncompleteData;
      }
      var id := nextId;
      rows := rows[id := NewSalida(body, caller.id)];
      nextId := nextId + 1;
      // the handler reads the row back by employee code and exit time
      assert id in rows && SameText(rows[id].codigoEmpleado, code) && SameText(rows[id].fechaSalida, salida);
      var k :| k in rows && SameText(rows[k].codigoEmpleado, code) && SameText(rows[k].fechaSalida, salida);
      res := Response(200, map["ok" := JBool(true), "interna" := JNum(k)]);
    }

    /** `updatePorteriaInterna`: the body's `fechaEntrada` is written into
        `fecha_salida`, together with the author; nothing else changes. */
    method UpdatePorteriaInterna(auth: Auth, token: string, body: Body) returns (res: Response)
      requires Valid()
      modifies this
      ensures Valid() && nextId == old(nextId)
      ensures CheckToken(auth, token, "msg").Refused? ==>
                res == CheckToken(auth, token, "msg").response && rows == old(rows)
      ensures CheckToken(auth, token, "msg").Operator? ==>
                match KeyOf(Get(body, "id"))
                case StoreError =>
                  res == PorteriaCrash && rows == old(rows)
                case NoRow =>
                  res == Reply(404, false, "msg", NoInterna + ToJsString(Get(body, "id"))) && rows == old(rows)
                case ByKey(k) =>
                  if k !in old(rows) then
                    res == Reply(404, false, "msg", NoInterna + ToJsString(Get(body, "id"))) && rows == old(rows)
                  else
                    rows == old(rows)[k := old(rows)[k].(fechaSalida := Col(Get(body, "fechaEntrada")),
                                                         usuario := Num(CheckToken(auth, token, "msg").id))] &&
                    res == PorteriaDone
    {
      var caller := CheckToken(auth, token, "msg");
      if caller.Refused? {
        return caller.response;
      }
      var id := Get(body, "id");
      var fechaEntrada := Get(body, "fechaEntrada");
      var key := KeyOf(id);
      if key.StoreError? {
        return PorteriaCrash;
      }
      if key.NoRow? || key.key !in rows {
        return Reply(404, false, "msg", NoInterna + ToJsString(id));
      }
      var k := key.key;
      rows := rows[k := rows[k].(fechaSalida := Col(fechaEntrada), usuario := Num(caller.id))];
      res := PorteriaDone;
    }

    /** `deleteInterna` for the path segment `param`: a missing row is
        reported with status 200 and no `ok`. */
    method DeleteInterna(param: string, auth: Auth, token: string) returns (res: Response)
      requires Valid()
      modifies this
      ensures Valid() && nextId == old(nextId)
      ensures CheckToken(auth, token, "msg").Refused? ==>
                res == CheckToken(auth, token, "msg").response && rows == old(rows)
      ensures CheckToken(auth, token, "msg").Operator? && PathId(param).None? ==>
                res == DeleteCrash && rows == old(rows)
      ensures CheckToken(auth, token, "msg").Operator? && PathId(param).Some? && PathId(param).value !in old(rows) ==>
                res == Notice(Num(PathId(param).value), "Persona interna con id " + IntToString(PathId(param).value) + " no se encuentra") &&
                rows == old(rows)
      ensures CheckToken(auth, token, "msg").Operator? && PathId(param).Some? && PathId(param).value in old(rows) ==>
                rows == old(rows) - {PathId(param).value} &&
                res == Reply(200, true, "mensaje", "Salida empleado " + IntToString(PathId(param).value) + " eliminada satisfactoriamente")
    {
      var id := PathId(param);
      var caller := CheckToken(auth, token, "msg");
      if caller.Refused? {
        return caller.response;
      }
      if id.None? {
        // a NaN or out-of-range id makes the query throw
        return DeleteCrash;
      }
      var n := id.value;
      if n !in rows {
        return Notice(Num(n), "Persona interna con id " + IntToString(n) + " no se encuentra");
      }
      rows := rows - {n};
      res := Reply(200, true, "mensaje", "Salida empleado " + IntToString(n) + " eliminada satisfactoriamente");
    }

    /** `updateInternas` for the path segment `param`. */
    method UpdateInternas(param: string, auth: Auth, token: string, body: Body) returns (res: Response)
      requires Valid()
      modifies this
      ensures Valid() && nextId == old(nextId)
      ensures CheckToken(auth, token, "msg").Refused? ==>
                res == CheckToken(auth, token, "msg").response && rows == old(rows)
      ensures CheckToken(auth, token, "msg").Operator? && PathId(param).None? ==>
                res == ServerError && rows == old(rows)
      ensures CheckToken(auth, token, "msg").Operator? && PathId(param).Some? && PathId(param).value !in old(rows) ==>
                res == Reply(404, false, "mensaje", "No existe registro con id " + IntToString(PathId(param).value)) &&
                rows == old(rows)
      ensures CheckToken(auth, token, "msg").Operator? && PathId(param).Some? && PathId(param).value in old(rows) ==>
                rows == old(rows)[PathId(param).value :=
                          Revised(old(rows)[PathId(param).value], body, CheckToken(auth, token, "msg").id)] &&
                res == Reply(200, true, "mensaje", "Registro " + IntToString(PathId(param).value) + " modificado satisfactoriamente")
    {
      var id := PathId(param);
      var caller := CheckToken(auth, token, "msg");
      if caller.Refused? {
        return caller.response;
      }
      if id.None? {
        // a NaN or out-of-range id makes the query throw
        return ServerError;
      }
      var n := id.value;
      if n !in rows {
        return Reply(404, false, "mensaje", "No existe registro con id " + IntToString(n));
      }
      rows := rows[n := Revised(rows[n], body, caller.id)];
      res := Reply(200, true, "mensaje", "Registro " + IntToString(n) + " modificado satisfactoriamente");
    }
  }
}
