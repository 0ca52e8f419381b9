/** The controller for turnstile records, over the table `salidas_tornos`:
    a record holds an employee code and an entry time, an exit time or both.
    Creation checks the code against `users` and the order of the two times;
    updates change only the columns the body mentions. */
module Tornos {
  import opened Js
  import opened Http
  import opened Jwt
  import opened Store
  import opened Query
  import opened Guards
  import Usuarios

  /** One row of `salidas_tornos` (the id is the map key). */
  datatype Torno = Torno(codigoEmpleado: Val, fechaEntrada: Val, fechaSalida: Val, usuario: Val)

  /** A row as `SELECT *` returns it. */
  function RowJson(id: int, t: Torno): Json
  {
    JObj(map[
      "id" := JNum(id),
      "codigo_empleado" := ToJson(t.codigoEmpleado),
      "fecha_entrada" := ToJson(t.fechaEntrada),
      "fecha_salida" := ToJson(t.fechaSalida),
      "usuario" := ToJson(t.usuario)])
  }

  /** The operator a turnstile handler acts for: `comprobarJWT(token || '')`
      must be valid with a truthy id. There is no separate answer for a
      missing header. */
  predicate TokenRefused(auth: Auth, token: string)
  {
    Rejected(Comprobar(auth, token))
  }

  function Author(auth: Auth, token: string): (id: int)
    requires !TokenRefused(auth, token)
    ensures id != 0 && Comprobar(auth, token).id == Some(id)
  {
    Comprobar(auth, token).id.value
  }

  // The fixed answers and message pieces of the handlers below.
  const BadToken := Reply(401, false, "mensaje", "Token no válido o expirado.")
  const NeedCodeAndTime := Reply(400, false, "mensaje", "El código de empleado y al menos una fecha (entrada o salida) son obligatorios.")
  const EntryAfterExit := Reply(400, false, "mensaje", "La fecha de entrada no puede ser posterior a la fecha de salida.")
  const Created := "Registro de torno creado correctamente"
  const NothingToUpdate := Reply(400, false, "mensaje", "Debe proporcionar al menos un campo para actualizar.")
  const UpdateCrash := Reply(500, false, "mensaje", "Error inesperado al actualizar el registro.")
  const DeleteCrash := Reply(500, false, "mensaje", "Error inesperado al eliminar el registro.")
  const BadId := Reply(400, false, "mensaje", "El ID proporcionado no es un número válido.")
  const GetCrash := Reply(500, false, "mensaje", "Error inesperado al obtener el registro del torno.")
  const StartAfterEnd := Reply(400, false, "mensaje", "La fecha de inicio no puede ser posterior a la fecha de fin.")
  const NoRecord := "No se encontró un registro de torno con el id "
  const NoRecordAtAll := "No se encontró ningún registro de torno con el id "
  const UnknownCode := "El código de empleado "
  const NoEmployee := "No se encontró un empleado con el código "

  // ---------------------------------------------------------------------------
  // setTorno

  /** `setTorno` refuses a body without a code or without either time. */
  predicate MissingData(body: Body)
  {
    !Truthy(Get(body, "codigoEmpleado")) || (!Truthy(Get(body, "fechaEntrada")) && !Truthy(Get(body, "fechaSalida")))
  }

  /** The row `setTorno` inserts: a falsy time is stored as NULL. */
  function NewTorno(body: Body, user: int): Torno
  {
    Torno(Get(body, "codigoEmpleado"), Or(Get(body, "fechaEntrada"), Null), Or(Get(body, "fechaSalida"), Null), Num(user))
  }

  /** What the checks of `setTorno` guarantee about every row it inserts: a
      code, at least one time, and an entry that is not after the exit when
      both are given. */
  predicate WellFormed(t: Torno, instant: Instant)
  {
    Truthy(t.codigoEmpleado) && (Truthy(t.fechaEntrada) || Truthy(t.fechaSalida)) &&
    (Truthy(t.fechaEntrada) && Truthy(t.fechaSalida) ==> !Later(t.fechaEntrada, t.fechaSalida, instant))
  }

  /** A body that passes the two 400 checks yields a well-formed row. */
  lemma AcceptedRowWellFormed(body: Body, user: int, instant: Instant)
    requires !MissingData(body)
    requires !(Truthy(Get(body, "fechaEntrada")) && Truthy(Get(body, "fechaSalida")) &&
               Later(Get(body, "fechaEntrada"), Get(body, "fechaSalida"), instant))
    ensures WellFormed(NewTorno(body, user), instant)
  {
  }

  // ---------------------------------------------------------------------------
  // updateTorno

  /** The columns `updateTorno` writes: the code when truthy, each time when
      it is present in the body (so `null` clears it), and the author. */
  function Assigned(t: Torno, body: Body, user: int): Torno
  {
    var code := Get(body, "codigoEmpleado");
    var entrada := Get(body, "fechaEntrada");
    var salida := Get(body, "fechaSalida");
    Torno(if Truthy(code) then code else t.codigoEmpleado,
          if entrada.Undef? then t.fechaEntrada else entrada,
          if salida.Undef? then t.fechaSalida else salida,
          Num(user))
  }

  /** The body names nothing to change. */
  predicate NothingGiven(body: Body)
  {
    !Truthy(Get(body, "codigoEmpleado")) && Get(body, "fechaEntrada").Undef? && Get(body, "fechaSalida").Undef?
  }

  const UpdateBase := "UPDATE salidas_tornos SET "
  const CodeColumn := "codigo_empleado = "
  const EntryColumn := "fecha_entrada = "
  const ExitColumn := "fecha_salida = "
  const Separator := ", "
  const AuthorColumn := "usuario = "
  const WhereId := " WHERE id = "

  /** The literal pieces of the `UPDATE` for `body`. */
  function UpdateTexts(body: Body): seq<string>
  {
    [UpdateBase] +
    (if Truthy(Get(body, "codigoEmpleado")) then [CodeColumn, Separator] else []) +
    (if !Get(body, "fechaEntrada").Undef? then [EntryColumn, Separator] else []) +
    (if !Get(body, "fechaSalida").Undef? then [ExitColumn, Separator] else []) +
    [AuthorColumn, WhereId]
  }

  /** The parameters of the `UPDATE` for `body`. */
  function UpdateParams(body: Body, user: int, id: int): seq<Val>
  {
    (if Truthy(Get(body, "codigoEmpleado")) then [Get(body, "codigoEmpleado")] else []) +
    (if !Get(body, "fechaEntrada").Undef? then [Get(body, "fechaEntrada")] else []) +
    (if !Get(body, "fechaSalida").Undef? then [Get(body, "fechaSalida")] else []) +
    [Num(user), Num(id)]
  }

  /** The statement and `Assigned` agree: a column the `SET` list does not
      name keeps its value, and a named one takes the parameter sent for it. */
  lemma AssignedMatchesStatement(t: Torno, body: Body, user: int, id: int)
    ensures CodeColumn !in UpdateTexts(body) ==> Assigned(t, body, user).codigoEmpleado == t.codigoEmpleado
    ensures EntryColumn !in UpdateTexts(body) ==> Assigned(t, body, user).fechaEntrada == t.fechaEntrada
    ensures ExitColumn !in UpdateTexts(body) ==> Assigned(t, body, user).fechaSalida == t.fechaSalida
    ensures CodeColumn in UpdateTexts(body) ==> Assigned(t, body, user).codigoEmpleado == UpdateParams(body, user, id)[0]
    ensures |UpdateParams(body, user, id)| >= 2 &&
            UpdateParams(body, user, id)[|UpdateParams(body, user, id)| - 2] == Assigned(t, body, user).usuario
  {
    var texts := UpdateTexts(body);
    var opt := texts[1..|texts| - 2];
    assert texts == [UpdateBase] + opt + [AuthorColumn, WhereId];
    assert AuthorColumn != CodeColumn && WhereId != CodeColumn && UpdateBase != CodeColumn;
    assert AuthorColumn != EntryColumn && WhereId != EntryColumn && UpdateBase != EntryColumn;
    assert AuthorColumn != ExitColumn && WhereId != ExitColumn && UpdateBase != ExitColumn;
    assert Separator != CodeColumn && Separator != EntryColumn && Separator != ExitColumn;
    assert EntryColumn != CodeColumn && ExitColumn != CodeColumn && ExitColumn != EntryColumn;
  }

  /** One optional `column = $k, ` of the `SET` list. */
  method SetColumn(sql: Sql, params: seq<Val>, paramIndex: nat, present: bool, column: string, v: Val)
    returns (sql2: Sql, params2: seq<Val>, paramIndex2: nat)
    requires Numbered(sql, params) && paramIndex == |params| + 1
    ensures Numbered(sql2, params2) && paramIndex2 == |params2| + 1
    ensures params2 == params + (if present then [v] else [])
    ensures Texts(sql2) == Texts(sql) + (if present then [column, Separator] else [])
    ensures sql2 == sql + (if present then [Text(column), Param(paramIndex), Text(Separator)] else [])
  {
    sql2, params2, paramIndex2 := sql, params, paramIndex;
    if present {
      sql2, params2, paramIndex2 := AddParam(sql2, params2, paramIndex2, column, v);
      sql2 := AddText(sql2, params2, Separator);
    }
  }

  /** The `UPDATE` statement `updateTorno` builds for row `id`. */
  method UpdateStatement(body: Body, user: int, id: int) returns (q: Built)
    ensures Numbered(q.sql, q.params)
    ensures q.params == UpdateParams(body, user, id)
    ensures Texts(q.sql) == UpdateTexts(body)
  {
    var code := Get(body, "codigoEmpleado");
    var entrada := Get(body, "fechaEntrada");
    var salida := Get(body, "fechaSalida");
    var sql, params, paramIndex := [Text(UpdateBase)], [], 1;
    assert Texts(sql) == [UpdateBase] by { assert sql[..0] == []; }
    sql, params, paramIndex := SetColumn(sql, params, paramIndex, Truthy(code), CodeColumn, code);
    sql, params, paramIndex := SetColumn(sql, params, paramIndex, !entrada.Undef?, EntryColumn, entrada);
    sql, params, paramIndex := SetColumn(sql, params, paramIndex, !salida.Undef?, ExitColumn, salida);
    ghost var optional, texts := params, Texts(sql);
    sql, params, paramIndex := AddParam(sql, params, paramIndex, AuthorColumn, Num(user));
    sql, params, paramIndex := AddParam(sql, params, paramIndex, WhereId, Num(id));
    AppendTwo(optional, Num(user), Num(id));
    AppendTwo(texts, AuthorColumn, WhereId);
    q := Built(sql, params);
  }

  // ---------------------------------------------------------------------------
  // consultaTorno

  const SearchBase := "\n            SELECT t.*, u.name as nombre_persona \n            FROM salidas_tornos t\n            JOIN users u ON t.codigo_empleado = u.codigo_empleado\n            WHERE 1=1\n        "
  const ByCode := " AND t.codigo_empleado::TEXT ILIKE "
  const AsVarchar := "::VARCHAR"
  const EntryBetween := " AND (t.fecha_entrada BETWEEN "
  const AndText := " AND "
  const OrExitBetween := "\n                        OR t.fecha_salida BETWEEN "
  const EntryFrom := " AND (t.fecha_entrada >= "
  const OrExitFrom := " OR t.fecha_salida >= "
  const EntryUntil := " AND (t.fecha_entrada <= "
  const OrExitUntil := " OR t.fecha_salida <= "
  const Close := ")"
  const NewestFirst := " ORDER BY t.fecha_entrada DESC, t.fecha_salida DESC LIMIT "
  const OffsetText := " OFFSET "

  /** The time bounds of the search: both, either one (matched against the
      entry or the exit time), or none. */
  function DateParams(inicio: Val, fin: Val): seq<Val>
  {
    if Truthy(inicio) && Truthy(fin) then [inicio, fin, inicio, fin]
    else if Truthy(inicio) then [inicio, inicio]
    else if Truthy(fin) then [fin, fin]
    else []
  }

  function DateTexts(inicio: Val, fin: Val): seq<string>
  {
    if Truthy(inicio) && Truthy(fin) then [EntryBetween, AndText, OrExitBetween, AndText, Close]
    else if Truthy(inicio) then [EntryFrom, OrExitFrom, Close]
    else if Truthy(fin) then [EntryUntil, OrExitUntil, Close]
    else []
  }

  /** The fragments the time bounds append, numbered from `k`. */
  function DateFrags(inicio: Val, fin: Val, k: nat): seq<Frag>
  {
    if Truthy(inicio) && Truthy(fin) then
      [Text(EntryBetween), Param(k), Text(AndText), Param(k + 1), Text(OrExitBetween), Param(k + 2),
       Text(AndText), Param(k + 3), Text(Close)]
    else if Truthy(inicio) then [Text(EntryFrom), Param(k), Text(OrExitFrom), Param(k + 1), Text(Close)]
    else if Truthy(fin) then [Text(EntryUntil), Param(k), Text(OrExitUntil), Param(k + 1), Text(Close)]
    else []
  }

  /** The code filter: `'%' + code + '%'` with no trimming, when truthy. */
  function CodeParams(code: Val): seq<Val>
  {
    if Truthy(code) then [Str("%" + ToJsString(code) + "%")] else []
  }

  function CodeTexts(code: Val): seq<string>
  {
    if Truthy(code) then [ByCode, AsVarchar] else []
  }

  /** The code part of the search. */
  method CodeFilter(sql: Sql, params: seq<Val>, paramIndex: nat, code: Val)
    returns (sql2: Sql, params2: seq<Val>, paramIndex2: nat)
    requires Numbered(sql, params) && paramIndex == |params| + 1
    ensures Numbered(sql2, params2) && paramIndex2 == |params2| + 1
    ensures params2 == params + CodeParams(code)
    ensures Texts(sql2) == Texts(sql) + CodeTexts(code)
    ensures sql2 == sql + (if Truthy(code) then [Text(ByCode), Param(paramIndex), Text(AsVarchar)] else [])
  {
    sql2, params2, paramIndex2 := sql, params, paramIndex;
    if Truthy(code) {
      sql2, params2, paramIndex2 := AddParam(sql2, params2, paramIndex2, ByCode, Str("%" + ToJsString(code) + "%"));
      sql2 := AddText(sql2, params2, AsVarchar);
    }
  }

  /** One time bound, compared with the entry and then the exit time. */
  method OneBound(sql: Sql, params: seq<Val>, paramIndex: nat, entry: string, exit: string, v: Val)
    returns (sql2: Sql, params2: seq<Val>, paramIndex2: nat)
    requires Numbered(sql, params) && paramIndex == |params| + 1
    ensures Numbered(sql2, params2) && paramIndex2 == |params2| + 1
    ensures params2 == params + [v, v]
    ensures Texts(sql2) == Texts(sql) + [entry, exit, Close]
    ensures sql2 == sql + [Text(entry), Param(paramIndex), Text(exit), Param(paramIndex + 1), Text(Close)]
  {
    ghost var texts := Texts(sql);
    sql2, params2, paramIndex2 := AddParam(sql, params, paramIndex, entry, v);
    sql2, params2, paramIndex2 := AddParam(sql2, params2, paramIndex2, exit, v);
    sql2 := AddText(sql2, params2, Close);
    assert params2 == params + [v, v];
    assert Texts(sql2) == texts + [entry, exit, Close];
  }

  /** Both time bounds, against the entry and then the exit time. */
  method BothBounds(sql: Sql, params: seq<Val>, paramIndex: nat, inicio: Val, fin: Val)
    returns (sql2: Sql, params2: seq<Val>, paramIndex2: nat)
    requires Numbered(sql, params) && paramIndex == |params| + 1
    ensures Numbered(sql2, params2) && paramIndex2 == |params2| + 1
    ensures params2 == params + [inicio, fin, inicio, fin]
    ensures Texts(sql2) == Texts(sql) + [EntryBetween, AndText, OrExitBetween, AndText, Close]
    ensures sql2 == sql + [Text(EntryBetween), Param(paramIndex), Text(AndText), Param(paramIndex + 1),
                           Text(OrExitBetween), Param(paramIndex + 2), Text(AndText), Param(paramIndex + 3),
                           Text(Close)]
  {
    var k := paramIndex;
    ghost var texts := Texts(sql);
    sql2, params2, paramIndex2 := AddParam(sql, params, paramIndex, EntryBetween, inicio);
    sql2, params2, paramIndex2 := AddParam(sql2, params2, paramIndex2, AndText, fin);
    ghost var half := sql2;
    assert half == sql + [Text(EntryBetween), Param(k), Text(AndText), Param(k + 1)];
    sql2, params2, paramIndex2 := AddParam(sql2, params2, paramIndex2, OrExitBetween, inicio);
    sql2, params2, paramIndex2 := AddParam(sql2, params2, paramIndex2, AndText, fin);
    ghost var full := sql2;
    assert full == half + [Text(OrExitBetween), Param(k + 2), Text(AndText), Param(k + 3)];
    AppendFour(params, inicio, fin, inicio, fin);
    AppendFour(texts, EntryBetween, AndText, OrExitBetween, AndText);
    ghost var four := Texts(sql2);
    sql2 := AddText(sql2, params2, Close);
    assert four + [Close] == texts + [EntryBetween, AndText, OrExitBetween, AndText, Close];
  }

  /** The time-bound part of the search. */
  method DateFilter(sql: Sql, params: seq<Val>, paramIndex: nat, inicio: Val, fin: Val)
    returns (sql2: Sql, params2: seq<Val>, paramIndex2: nat)
    requires Numbered(sql, params) && paramIndex == |params| + 1
    ensures Numbered(sql2, params2) && paramIndex2 == |params2| + 1
    ensures params2 == params + DateParams(inicio, fin)
    ensures Texts(sql2) == Texts(sql) + DateTexts(inicio, fin)
    // each bound's placeholder directly follows the comparison it belongs to
    ensures sql2 == sql + DateFrags(inicio, fin, paramIndex)
  {
    if Truthy(inicio) && Truthy(fin) {
      sql2, params2, paramIndex2 := BothBounds(sql, params, paramIndex, inicio, fin);
    } else if Truthy(inicio) {
      sql2, params2, paramIndex2 := OneBound(sql, params, paramIndex, EntryFrom, OrExitFrom, inicio);
    } else if Truthy(fin) {
      sql2, params2, paramIndex2 := OneBound(sql, params, paramIndex, EntryUntil, OrExitUntil, fin);
    } else {
      sql2, params2, paramIndex2 := sql, params, paramIndex;
    }
  }

  /** The search query of `consultaTorno` once the time order has passed. */
  method SearchQuery(code: Val, inicio: Val, fin: Val, limit: Val, offset: Val) returns (q: Built)
    ensures Numbered(q.sql, q.params)
    ensures q.params == CodeParams(code) + DateParams(inicio, fin) + [limit, offset]
    ensures Texts(q.sql) == [SearchBase] + CodeTexts(code) + DateTexts(inicio, fin) + [NewestFirst, OffsetText]
  {
    var sql, params, paramIndex := [Text(SearchBase)], [], 1;
    assert Texts(sql) == [SearchBase] by { assert sql[..0] == []; }
    sql, params, paramIndex := CodeFilter(sql, params, paramIndex, code);
    sql, params, paramIndex := DateFilter(sql, params, paramIndex, inicio, fin);
    ghost var filtered, texts := params, Texts(sql);
    sql, params, paramIndex := AddParam(sql, params, paramIndex, NewestFirst, limit);
    sql, params, paramIndex := AddParam(sql, params, paramIndex, OffsetText, offset);
    AppendTwo(filtered, limit, offset);
    AppendTwo(texts, NewestFirst, OffsetText);
    q := Built(sql, params);
  }

  /** `consultaTorno`: a start after the end is refused before any query. */
  method ConsultaTorno(body: Body, instant: Instant) returns (r: Search)
    ensures (Truthy(Get(body, "fechaInicio")) && Truthy(Get(body, "fechaFin")) &&
             Later(Get(body, "fechaInicio"), Get(body, "fechaFin"), instant)) <==> r == Answer(StartAfterEnd)
    ensures r.Run? ==> Numbered(r.query.sql, r.query.params)
    ensures r.Run? ==>
              r.query.params ==
                CodeParams(Get(body, "codigoEmpleado")) + DateParams(Get(body, "fechaInicio"), Get(body, "fechaFin")) +
                [DefaultIfUndefined(Get(body, "limit"), Num(100)), DefaultIfUndefined(Get(body, "offset"), Num(0))]
    ensures r.Run? ==>
              Texts(r.query.sql) ==
                [SearchBase] + CodeTexts(Get(body, "codigoEmpleado")) +
                DateTexts(Get(body, "fechaInicio"), Get(body, "fechaFin")) + [NewestFirst, OffsetText]
  {
    var code := Get(body, "codigoEmpleado");
    var inicio := Get(body, "fechaInicio");
    var fin := Get(body, "fechaFin");
    var limit := DefaultIfUndefined(Get(body, "limit"), Num(100));
    var offset := DefaultIfUndefined(Get(body, "offset"), Num(0));
    if Truthy(inicio) && Truthy(fin) && Later(inicio, fin, instant) {
      return Answer(StartAfterEnd);
    }
    var q := SearchQuery(code, inicio, fin, limit, offset);
    r := Run(q);
  }

  /** Both bounds are matched against either time: with both given, an
      entry or an exit inside the range selects the row. */
  lemma BothBoundsTwice(inicio: Val, fin: Val)
    requires Truthy(inicio) && Truthy(fin)
    ensures DateParams(inicio, fin)[..2] == DateParams(inicio, fin)[2..] == [inicio, fin]
  {
  }

  // ---------------------------------------------------------------------------
  // getTornosHoy

  /** The day `getTornosHoy` lists: the `date` query value when truthy,
      otherwise today's date as `toISOString` prints it. */
  function Day(query: Body, today: string): string
  {
    ToJsString(Or(Get(query, "date"), Str(today)))
  }

  /** The parameters of `getTornosHoy`: the first and the last millisecond of
      the day (as the texts the two `Date`s are built from), the limit
      (default 50) and the offset (default 0). */
  function HoyParams(query: Body, today: string): seq<Val>
  {
    [Str(Day(query, today) + "T00:00:00.000Z"), Str(Day(query, today) + "T23:59:59.999Z"),
     DefaultIfUndefined(Get(query, "limit"), Num(50)), DefaultIfUndefined(Get(query, "offset"), Num(0))]
  }

  /** The window is one day long and defaults to today. */
  lemma HoyWindow(query: Body, today: string)
    ensures var p := HoyParams(query, today);
            var d := Day(query, today);
            |p| == 4 && p[0].Str? && p[1].Str? && p[0].s[..|d|] == p[1].s[..|d|] == d
    ensures !Truthy(Get(query, "date")) ==> Day(query, today) == today
    ensures Get(query, "date").Str? && Get(query, "date").s != "" ==> Day(query, today) == Get(query, "date").s
  {
    var d := Day(query, today);
    assert (d + "T00:00:00.000Z")[..|d|] == d;
    assert (d + "T23:59:59.999Z")[..|d|] == d;
  }

  // ---------------------------------------------------------------------------
  // getTornoCode

  /** `getTornoCode`: only the name of the user holding the code is answered. */
  method GetTornoCode(users: map<int, Usuarios.Usuario>, body: Body) returns (res: Response)
    ensures !Usuarios.HasCode(users, Get(body, "code")) ==>
              res == Reply(404, false, "msg", NoEmployee + ToJsString(Get(body, "code")))
    ensures Usuarios.HasCode(users, Get(body, "code")) ==>
              exists k :: k in users && SameText(users[k].codigoEmpleado, Get(body, "code")) &&
                res == Response(200, map["ok" := JBool(true), "usuario" := JObj(map["name" := ToJson(users[k].name)])])
  {
    var code := Get(body, "code");
    if !Usuarios.HasCode(users, code) {
      return Reply(404, false, "msg", NoEmployee + ToJsString(code));
    }
    var k :| k in users && SameText(users[k].codigoEmpleado, code);
    res := Response(200, map["ok" := JBool(true), "usuario" := JObj(map["name" := ToJson(users[k].name)])]);
  }

  // ---------------------------------------------------------------------------
  // The handlers that read or change the table

  class TornosTable {
    var rows: map<int, Torno>
    var nextId: int

    /** Every id was handed out by the SERIAL counter. */
    predicate Valid()
      reads this
    {
      nextId >= 1 && forall k :: k in rows ==> 1 <= k < nextId
    }

    constructor ()
      ensures Valid() && rows == map[] && nextId == 1
    {
      rows := map[];
      nextId := 1;
    }

    /** `getTorno` for the path segment `param`. */
    method GetTorno(param: string) returns (res: Response)
      ensures ParseInt(param).None? ==> res == BadId
      // a number outside `integer` passes the NaN test and makes the SELECT throw
      ensures ParseInt(param).Some? && PathId(param).None? ==> res == GetCrash
      ensures PathId(param).Some? && PathId(param).value !in rows ==>
                res == Reply(404, false, "mensaje", NoRecordAtAll + IntToString(PathId(param).value) + ".")
      ensures PathId(param).Some? && PathId(param).value in rows ==>
                res == Response(200, map["ok" := JBool(true), "torno" := RowJson(PathId(param).value, rows[PathId(param).value])])
    {
      if ParseInt(param).None? {
        return BadId;
      }
      var id := PathId(param);
      if id.None? {
        return GetCrash;
      }
      var n := id.value;
      if n !in rows {
        return Reply(404, false, "mensaje", NoRecordAtAll + IntToString(n) + ".");
      }
      return Response(200, map["ok" := JBool(true), "torno" := RowJson(n, rows[n])]);
    }

    /** `setTorno`: answers 201 with the new id (`RETURNING id`). Every row it
        inserts is well formed. */
    method SetTorno(auth: Auth, token: string, body: Body, users: map<int, Usuarios.Usuario>, instant: Instant)
      returns (res: Response)
      requires Valid()
      modifies this
      ensures Valid()
      ensures TokenRefused(auth, token) ==> res == BadToken && rows == old(rows) && nextId == old(nextId)
      ensures !TokenRefused(auth, token) && MissingData(body) ==>
                res == NeedCodeAndTime && rows == old(rows) && nextId == old(nextId)
      ensures !TokenRefused(auth, token) && !MissingData(body) &&
              Truthy(Get(body, "fechaEntrada")) && Truthy(Get(body, "fechaSalida")) &&
              Later(Get(body, "fechaEntrada"), Get(body, "fechaSalida"), instant) ==>
                res == EntryAfterExit && rows == old(rows) && nextId == old(nextId)
      ensures res.status == 201 <==> nextId == old(nextId) + 1
      ensures res.status == 201 ==>
                Usuarios.HasCode(users, Get(body, "codigoEmpleado")) &&
                old(nextId) !in old(rows) &&
                rows == old(rows)[old(nextId) := NewTorno(body, Author(auth, token))] &&
                WellFormed(rows[old(nextId)], instant) &&
                res == Response(201, map["ok" := JBool(true), "torno_id" := JNum(old(nextId)), "mensaje" := JStr(Created)])
      ensures res.status != 201 ==> rows == old(rows) && nextId == old(nextId)
      ensures !TokenRefused(auth, token) && !MissingData(body) &&
              !(Truthy(Get(body, "fechaEntrada")) && Truthy(Get(body, "fechaSalida")) &&
                Later(Get(body, "fechaEntrada"), Get(body, "fechaSalida"), instant)) ==>
                if Usuarios.HasCode(users, Get(body, "codigoEmpleado")) then res.status == 201
                else res == Reply(404, false, "mensaje", UnknownCode + ToJsString(Get(body, "codigoEmpleado")) + " no existe.")
    {
      if TokenRefused(auth, token) {
        return BadToken;
      }
      var operator := Author(auth, token);
      var code := Get(body, "codigoEmpleado");
      var entrada := Get(body, "fechaEntrada");
      var salida := Get(body, "fechaSalida");
      if !Truthy(code) || (!Truthy(entrada) && !Truthy(salida)) {
        return NeedCodeAndTime;
      }
      if Truthy(entrada) && Truthy(salida) && Later(entrada, salida, instant) {
        return EntryAfterExit;
      }
      if !Usuarios.HasCode(users, code) {
        return Reply(404, false, "mensaje", UnknownCode + ToJsString(code) + " no existe.");
      }
      var id := nextId;
      AcceptedRowWellFormed(body, operator, instant);
      rows := rows[id := NewTorno(body, operator)];
      nextId := nextId + 1;
      res := Response(201, map["ok" := JBool(true), "torno_id" := JNum(id), "mensaje" := JStr(Created)]);
    }

    /** `updateTorno` for the path segment `param`: the statement is built
        column by column, and no order check is made on the times. */
    method UpdateTorno(param: string, auth: Auth, token: string, body: Body) returns (res: Response, statement: Option<Built>)
      requires Valid()
      modifies this
      ensures Valid() && nextId == old(nextId)
      ensures TokenRefused(auth, token) ==> res == BadToken && rows == old(rows) && statement == None
      ensures !TokenRefused(auth, token) && NothingGiven(body) ==>
                res == NothingToUpdate && rows == old(rows) && statement == None
      ensures !TokenRefused(auth, token) && !NothingGiven(body) && PathId(param).None? ==>
                res == UpdateCrash && rows == old(rows) && statement == None
      ensures !TokenRefused(auth, token) && !NothingGiven(body) && PathId(param).Some? && PathId(param).value !in old(rows) ==>
                res == Reply(404, false, "mensaje", NoRecord + IntToString(PathId(param).value) + ".") &&
                rows == old(rows) && statement == None
      ensures !TokenRefused(auth, token) && !NothingGiven(body) && PathId(param).Some? && PathId(param).value in old(rows) ==>
                var n := PathId(param).value;
                rows == old(rows)[n := Assigned(old(rows)[n], body, Author(auth, token))] &&
                statement.Some? && Numbered(statement.value.sql, statement.value.params) &&
                statement.value.params == UpdateParams(body, Author(auth, token), n) &&
                Texts(statement.value.sql) == UpdateTexts(body) &&
                res == Reply(200, true, "mensaje", "Registro de torno con id " + IntToString(n) + " actualizado correctamente.")
    {
      statement := None;
      var id := PathId(param);
      if TokenRefused(auth, token) {
        return BadToken, None;
      }
      var operator := Author(auth, token);
      if !Truthy(Get(body, "codigoEmpleado")) && Get(body, "fechaEntrada").Undef? && Get(body, "fechaSalida").Undef? {
        return NothingToUpdate, None;
      }
      if id.None? {
        // a NaN or out-of-range id makes the query throw
        return UpdateCrash, None;
      }
      var n := id.value;
      if n !in rows {
        return Reply(404, false, "mensaje", NoRecord + IntToString(n) + "."), None;
      }
      var q := UpdateStatement(body, operator, n);
      statement := Some(q);
      rows := rows[n := Assigned(rows[n], body, operator)];
      res := Reply(200, true, "mensaje", "Registro de torno con id " + IntToString(n) + " actualizado correctamente.");
    }

    /** `deleteTorno` for the path segment `param` (no token check). */
    method DeleteTorno(param: string) returns (res: Response)
      requires Valid()
      modifies this
      ensures Valid() && nextId == old(nextId)
      ensures PathId(param).None? ==> res == DeleteCrash && rows == old(rows)
      ensures PathId(param).Some? && PathId(param).value !in old(rows) ==>
                res == Reply(404, false, "mensaje", NoRecord + IntToString(PathId(param).value) + ".") && rows == old(rows)
      ensures PathId(param).Some? && PathId(param).value in old(rows) ==>
                rows == old(rows) - {PathId(param).value} &&
                res == Reply(200, true, "mensaje", "Registro de torno con id " + IntToString(PathId(param).value) + " eliminado satisfactoriamente.")
    {
      var id := PathId(param);
      if id.None? {
        // a NaN or out-of-range id makes the query throw
        return DeleteCrash;
      }
      var n := id.value;
      if n !in rows {
        return Reply(404, false, "mensaje", NoRecord + IntToString(n) + ".");
      }
      rows := rows - {n};
      res := Reply(200, true, "mensaje", "Registro de torno con id " + IntToString(n) + " eliminado satisfactoriamente.");
    }
  }
}
