/** The controller for visitors from outside companies, over the table
    `empresas_exteriores`: creation from a request read through
    `Externa.fromRequest`, the gatehouse stamp, full updates, deletion, the
    search query and the lookups. */
module Externas {
  import opened Js
  import opened Http
  import opened Jwt
  import opened Store
  import opened Query
  import opened Guards
  import opened ExternaModel

  /** One row of `empresas_exteriores` (the id is the map key). */
  datatype Visita = Visita(
    nombrePersona: Val,
    empresaExterior: Val,
    peticionario: Val,
    telefonoPersona: Val,
    firma: Val,
    fechaEntrada: Val,
    fechaSalida: Val,
    nota: Val,
    recepcion: Val,
    usuario: Val)

  /** A row as `SELECT *` returns it. */
  function RowJson(id: int, v: Visita): Json
  {
    JObj(map[
      "id" := JNum(id),
      "nombre_persona" := ToJson(v.nombrePersona),
      "empresa_exterior" := ToJson(v.empresaExterior),
      "peticionario" := ToJson(v.peticionario),
      "telefono_persona" := ToJson(v.telefonoPersona),
      "firma" := ToJson(v.firma),
      "fecha_entrada" := ToJson(v.fechaEntrada),
      "fecha_salida" := ToJson(v.fechaSalida),
      "nota" := ToJson(v.nota),
      "recepcion" := ToJson(v.recepcion),
      "usuario" := ToJson(v.usuario)])
  }

  /** `setExterna` refuses a request unless these six properties of the
      adapted body are all truthy. */
  predicate Incomplete(e: Externa)
  {
    !Truthy(e.nombrePersona) || !Truthy(e.empresaExterior) || !Truthy(e.peticionario) ||
    !Truthy(e.telefonoPersona) || !Truthy(e.firma) || !Truthy(e.fechaEntrada)
  }

  /** The row `setExterna` inserts: no exit time, not received, the caller
      as author. */
  function NewVisita(e: Externa, user: int): Visita
  {
    Visita(Col(e.nombrePersona), Col(e.empresaExterior), Col(e.peticionario), Col(e.telefonoPersona),
      Col(e.firma), Col(e.fechaEntrada), Null, Col(e.nota), Bool(false), Num(user))
  }

  /** The nine columns `updateExternas` overwrites; the signature is kept. */
  function Overwrite(v: Visita, e: Externa, user: int): (w: Visita)
    ensures w.firma == v.firma && w.usuario == Num(user)
  {
    v.(nombrePersona := Col(e.nombrePersona), empresaExterior := Col(e.empresaExterior),
       peticionario := Col(e.peticionario), telefonoPersona := Col(e.telefonoPersona),
       fechaEntrada := Col(e.fechaEntrada), nota := Col(e.nota), fechaSalida := Col(e.fechaSalida),
       usuario := Num(user), recepcion := Col(e.recepcion))
  }

  /** An update that does not mention `recepcion` clears the flag, because
      the adapter defaults it to false. */
  lemma UpdateClearsReception(v: Visita, body: Body, user: int)
    requires !Truthy(Get(body, "recepcion"))
    ensures Overwrite(v, FromRequest(body), user).recepcion == Bool(false)
  {
  }

  /** The author the gatehouse stamp records: the token's id, or NULL when
      the token does not verify. */
  function Stamper(auth: Auth, token: string): (r: Val)
    ensures Comprobar(auth, token).valid ==> r == Num(Comprobar(auth, token).id.value)
    ensures !Comprobar(auth, token).valid ==> r == Null
  {
    var v := Comprobar(auth, token);
    if v.id.Some? then Num(v.id.value) else Null
  }

  // ---------------------------------------------------------------------------
  // buscarExterna

  const SearchBase := "SELECT * FROM empresas_exteriores WHERE 1=1"
  const ByName := " AND nombre_persona ILIKE "
  const ByCompany := " AND empresa_exterior ILIKE "
  const ByRequester := " AND peticionario ILIKE "
  const ByPhone := " AND telefono_persona ILIKE "
  const ByEntryTime := " AND fecha_entrada BETWEEN "
  const AndText := " AND "
  const NewestFirst := " ORDER BY fecha_entrada DESC LIMIT "
  const OffsetText := " OFFSET "

  // The fixed answers and message prefixes of the handlers below.
  const GetCrash := Reply(500, false, "mensaje", "Error al obtener externa")
  const IncompleteData := Reply(400, false, "mensaje", "Datos de persona exterior incompletos")
  const IdMissing := Reply(400, false, "mensaje", "El campo id es obligatorio")
  const RecepcionMissing := Reply(400, false, "mensaje", "El campo recepcion es obligatorio")
  const PorteriaCrash := Reply(500, false, "mensaje", "Error inesperado al actualizar la entrada de portería")
  const DeleteCrash := Reply(500, false, "mensaje", "Error al eliminar externa")
  const UpdateCrash := Reply(500, false, "mensaje", "Error inesperado al modificar la externa")
  const NoCompany := "Empresa exterior con id "
  const NoPerson := "Persona externa con id "
  const NoVisitor := "persona externa con id "

  const MissingStart := Reply(400, false, "mensaje", "El campo fecha_entrada es obligatorio para la búsqueda.")
  const SearchCrash := Reply(500, false, "mensaje", "Error inesperado en la selección de externas.")

  /** The text of `buscarExterna` up to its filters: the base query, then
      each filled filter's clause. */
  function SearchTexts(name: Blankness, company: Blankness, requester: Blankness, phone: Blankness): seq<string>
  {
    [SearchBase] + ClauseTexts(name, ByName, "") + ClauseTexts(company, ByCompany, "") +
    ClauseTexts(requester, ByRequester, "") + ClauseTexts(phone, ByPhone, "")
  }

  /** The four optional `ILIKE` filters of `buscarExterna`, in order. */
  method SearchFilters(name: Blankness, company: Blankness, requester: Blankness, phone: Blankness)
    returns (sql: Sql, params: seq<Val>, paramIndex: nat)
    requires !name.NoTrim? && !company.NoTrim? && !requester.NoTrim? && !phone.NoTrim?
    ensures Numbered(sql, params) && paramIndex == |params| + 1
    ensures params == PatternOf(name) + PatternOf(company) + PatternOf(requester) + PatternOf(phone)
    ensures Texts(sql) == SearchTexts(name, company, requester, phone)
  {
    sql, params, paramIndex := [Text(SearchBase)], [], 1;
    assert Texts(sql) == [SearchBase] by { assert sql[..0] == []; }
    sql, params, paramIndex := AddFilter(sql, params, paramIndex, name, ByName, "");
    sql, params, paramIndex := AddFilter(sql, params, paramIndex, company, ByCompany, "");
    sql, params, paramIndex := AddFilter(sql, params, paramIndex, requester, ByRequester, "");
    sql, params, paramIndex := AddFilter(sql, params, paramIndex, phone, ByPhone, "");
  }

  /** The query `buscarExterna` builds once the start date is known: the
      filters, the date range, the limit and the offset. */
  method SearchQuery(name: Blankness, company: Blankness, requester: Blankness, phone: Blankness,
                     f1: Val, f2: Val, limit: Val, offset: Val) returns (q: Built)
    requires !name.NoTrim? && !company.NoTrim? && !requester.NoTrim? && !phone.NoTrim?
    ensures Numbered(q.sql, q.params)
    ensures q.params == PatternOf(name) + PatternOf(company) + PatternOf(requester) + PatternOf(phone) + [f1, f2, limit, offset]
    ensures |q.params| == (if name.Filled? then 1 else 0) + (if company.Filled? then 1 else 0) +
                          (if requester.Filled? then 1 else 0) + (if phone.Filled? then 1 else 0) + 4
    ensures Texts(q.sql) == SearchTexts(name, company, requester, phone) + [ByEntryTime, AndText, NewestFirst, OffsetText]
  {
    var sql, params, paramIndex := SearchFilters(name, company, requester, phone);
    ghost var patterns, texts := params, Texts(sql);
    sql, params, paramIndex := AddParam(sql, params, paramIndex, ByEntryTime, f1);
    sql, params, paramIndex := AddParam(sql, params, paramIndex, AndText, f2);
    sql, params, paramIndex := AddParam(sql, params, paramIndex, NewestFirst, limit);
    sql, params, paramIndex := AddParam(sql, params, paramIndex, OffsetText, offset);
    AppendFour(patterns, f1, f2, limit, offset);
    AppendFour(texts, ByEntryTime, AndText, NewestFirst, OffsetText);
    q := Built(sql, params);
  }

  /** Whether one of the text filters of the adapted body is truthy without
      being a string, so that its `.trim()` throws. */
  predicate SearchTrimThrows(c: Externa)
  {
    BlankTest(c.nombrePersona).NoTrim? || BlankTest(c.empresaExterior).NoTrim? ||
    BlankTest(c.peticionario).NoTrim? || BlankTest(c.telefonoPersona).NoTrim?
  }

  /** `buscarExterna`: the body is read through the adapter; the start date
      is required, the end date defaults to `select now()` (`dbNow`). */
  method BuscarExterna(body: Body, dbNow: Val) returns (r: Search)
    ensures TextBlank(FromRequest(body).fechaEntrada) ==> r == Answer(MissingStart)
    ensures !TextBlank(FromRequest(body).fechaEntrada) ==> (r.Answer? <==> SearchTrimThrows(FromRequest(body)))
    ensures r.Answer? ==> r.response in {MissingStart, SearchCrash}
    ensures r.Run? ==> Numbered(r.query.sql, r.query.params)
    ensures r.Run? ==>
              var c := FromRequest(body);
              r.query.params ==
                PatternOf(BlankTest(c.nombrePersona)) + PatternOf(BlankTest(c.empresaExterior)) +
                PatternOf(BlankTest(c.peticionario)) + PatternOf(BlankTest(c.telefonoPersona)) + [
                  c.fechaEntrada,
                  if TextBlank(c.fechaSalida) then dbNow else c.fechaSalida,
                  DefaultIfUndefined(Get(body, "limit"), Num(100)),
                  DefaultIfUndefined(Get(body, "offset"), Num(0))]
    ensures r.Run? ==>
              var c := FromRequest(body);
              Texts(r.query.sql) ==
                SearchTexts(BlankTest(c.nombrePersona), BlankTest(c.empresaExterior), BlankTest(c.peticionario), BlankTest(c.telefonoPersona)) +
                [ByEntryTime, AndText, NewestFirst, OffsetText]
  {
    var c := FromRequest(body);
    var limit := DefaultIfUndefined(Get(body, "limit"), Num(100));
    var offset := DefaultIfUndefined(Get(body, "offset"), Num(0));
    if TextBlank(c.fechaEntrada) {
      return Answer(MissingStart);
    }
    var f2 := c.fechaSalida;
    if TextBlank(f2) {
      f2 := dbNow;
    }
    var name := BlankTest(c.nombrePersona);
    var company := BlankTest(c.empresaExterior);
    var requester := BlankTest(c.peticionario);
    var phone := BlankTest(c.telefonoPersona);
    if name.NoTrim? || company.NoTrim? || requester.NoTrim? || phone.NoTrim? {
      return Answer(SearchCrash);
    }
    var q := SearchQuery(name, company, requester, phone, c.fechaEntrada, f2, limit, offset);
    r := Run(q);
  }

  /** An empty body is refused for want of a start date; the telephone
      and requester defaults (`''`) never add a filter. */
  lemma SearchDefaults(body: Body)
    ensures BlankTest(FromRequest(map[]).peticionario) == Blank && BlankTest(FromRequest(map[]).telefonoPersona) == Blank
    ensures TextBlank(FromRequest(map[]).fechaEntrada)
  {
  }

  // ---------------------------------------------------------------------------
  // The handlers that read or change the table

  class ExternasTable {
    var rows: map<int, Visita>
    var nextId: int

    /** Every id was handed out by the SERIAL counter. */
    predicate Valid()
      reads this
    {
      nextId >= 1 && forall k :: k in rows ==> 1 <= k < nextId
    }

    constructor ()
      ensures Valid() && rows == map[] && nextId == 1
    {
      rows := map[];
      nextId := 1;
    }

    /** `getExternaPorteria`: the visitors not yet received. */
    method GetExternaPorteria() returns (listed: set<int>)
      ensures forall k :: k in listed <==> k in rows && rows[k].recepcion == Bool(false)
    {
      listed := set k | k in rows && rows[k].recepcion == Bool(false);
    }

    /** `getExternasHoy`: the visitors whose entry falls on `today` (the
        date `to_char(now(), 'yyyy-mm-dd')` gives), where `day` is the
        database's `::DATE` cast. */
    method GetExternasHoy(today: string, day: Val -> Option<string>) returns (listed: set<int>)
      ensures forall k :: k in listed <==> k in rows && day(rows[k].fechaEntrada) == Some(today)
    {
      listed := set k | k in rows && day(rows[k].fechaEntrada) == Some(today);
    }

    /** `getExterna` for the path segment `param`. */
    method GetExterna(param: string) returns (res: Response)
      ensures PathId(param).None? ==> res == GetCrash
      ensures PathId(param).Some? && PathId(param).value !in rows ==>
                res == Notice(Num(PathId(param).value), NoVisitor + IntToString(PathId(param).value) + " no se encuentra")
      ensures PathId(param).Some? && PathId(param).value in rows ==>
                res == Response(200, map["ok" := JBool(true), "externa" := RowJson(PathId(param).value, rows[PathId(param).value])])
    {
      var id := PathId(param);
      if id.None? {
        // a NaN or out-of-range id makes the query throw
        return GetCrash;
      }
      var n := id.value;
      if n !in rows {
        return Notice(Num(n), NoVisitor + IntToString(n) + " no se encuentra");
      }
      return Response(200, map["ok" := JBool(true), "externa" := RowJson(n, rows[n])]);
    }

    /** `setExterna`: answers 201 with the new id. */
    method SetExterna(auth: Auth, token: string, body: Body) returns (res: Response)
      requires Valid()
      modifies this
      ensures Valid()
      ensures CheckToken(auth, token, "mensaje").Refused? ==>
                res == CheckToken(auth, token, "mensaje").response && rows == old(rows) && nextId == old(nextId)
      ensures CheckToken(auth, token, "mensaje").Operator? && Incomplete(FromRequest(body)) ==>
                res == IncompleteData &&
                rows == old(rows) && nextId == old(nextId)
      ensures CheckToken(auth, token, "mensaje").Operator? && !Incomplete(FromRequest(body)) ==>
                old(nextId) !in old(rows) && nextId == old(nextId) + 1 &&
                rows == old(rows)[old(nextId) := NewVisita(FromRequest(body), CheckToken(auth, token, "mensaje").id)] &&
                res == Response(201, map["ok" := JBool(true), "externa" := JNum(old(nextId))])
    {
      var caller := CheckToken(auth, token, "mensaje");
      if caller.Refused? {
        return caller.response;
      }
      var e := FromRequest(body);
      if !Truthy(e.nombrePersona) || !Truthy(e.empresaExterior) || !Truthy(e.peticionario) ||
         !Truthy(e.telefonoPersona) || !Truthy(e.firma) || !Truthy(e.fechaEntrada) {
        return IncompleteData;
      }
      var id := nextId;
      rows := rows[id := NewVisita(e, caller.id)];
      nextId := nextId + 1;
      res := Response(201, map["ok" := JBool(true), "externa" := JNum(id)]);
    }

    /** `updatePorteriaExterna`: the token is verified but never refused; a
        token that does not verify records NULL as the author. Only
        `recepcion`, `fecha_salida` and `usuario` change, and the answer
        carries the row as it is afterwards. */
    method UpdatePorteriaExterna(auth: Auth, token: string, body: Body) returns (res: Response)
      requires Valid()
      modifies this
      ensures Valid() && nextId == old(nextId)
      ensures !Truthy(Get(body, "id")) ==>
                res == IdMissing && rows == old(rows)
      ensures Truthy(Get(body, "id")) && IsNullish(Get(body, "recepcion")) ==>
                res == RecepcionMissing && rows == old(rows)
      ensures Truthy(Get(body, "id")) && !IsNullish(Get(body, "recepcion")) ==>
                match KeyOf(Get(body, "id"))
                case ByKey(k) =>
                  if k !in old(rows) then
                    res == Reply(404, false, "mensaje", NoCompany + ToJsString(Get(body, "id")) + " no se encuentra") &&
                    rows == old(rows)
                  else
                    rows == old(rows)[k := old(rows)[k].(recepcion := Get(body, "recepcion"),
                                                         fechaSalida := Col(Get(body, "fechaSalida")),
                                                         usuario := Stamper(auth, token))] &&
                    res == Response(200, map["ok" := JBool(true),
                                             "mensaje" := JStr("Entrada de portería actualizada satisfactoriamente"),
                                             "externa" := RowJson(k, rows[k])])
                case _ =>
                  res == PorteriaCrash && rows == old(rows)
    {
      var id := Get(body, "id");
      var fechaSalida := Get(body, "fechaSalida");
      var recepcion := Get(body, "recepcion");
      if !Truthy(id) {
        return IdMissing;
      }
      if IsNullish(recepcion) {
        return RecepcionMissing;
      }
      var key := KeyOf(id);
      if !key.ByKey? {
        // a truthy id is never NULL, so only a text that is not a number is left: the query throws
        return PorteriaCrash;
      }
      var k := key.key;
      if k !in rows {
        return Reply(404, false, "mensaje", NoCompany + ToJsString(id) + " no se encuentra");
      }
      rows := rows[k := rows[k].(recepcion := recepcion, fechaSalida := Col(fechaSalida), usuario := Stamper(auth, token))];
      res := Response(200, map["ok" := JBool(true),
                               "mensaje" := JStr("Entrada de portería actualizada satisfactoriamente"),
                               "externa" := RowJson(k, rows[k])]);
    }

    /** `deleteExterna` for the path segment `param`: a missing row is
        reported with status 200 and no `ok`. */
    method DeleteExterna(param: string, auth: Auth, token: string) returns (res: Response)
      requires Valid()
      modifies this
      ensures Valid() && nextId == old(nextId)
      ensures CheckToken(auth, token, "mensaje").Refused? ==>
                res == CheckToken(auth, token, "mensaje").response && rows == old(rows)
      ensures CheckToken(auth, token, "mensaje").Operator? && PathId(param).None? ==>
                res == DeleteCrash && rows == old(rows)
      ensures CheckToken(auth, token, "mensaje").Operator? && PathId(param).Some? && PathId(param).value !in old(rows) ==>
                res == Notice(Num(PathId(param).value), NoPerson + IntToString(PathId(param).value) + " no se encuentra") &&
                rows == old(rows)
      ensures CheckToken(auth, token, "mensaje").Operator? && PathId(param).Some? && PathId(param).value in old(rows) ==>
                rows == old(rows) - {PathId(param).value} &&
                res == Reply(200, true, "mensaje", "Persona externa " + IntToString(PathId(param).value) + " eliminada satisfactoriamente")
    {
      var id := PathId(param);
      var caller := CheckToken(auth, token, "mensaje");
      if caller.Refused? {
        return caller.response;
      }
      if id.None? {
        // a NaN or out-of-range id makes the query throw
        return DeleteCrash;
      }
      var n := id.value;
      if n !in rows {
        return Notice(Num(n), NoPerson + IntToString(n) + " no se encuentra");
      }
      rows := rows - {n};
      res := Reply(200, true, "mensaje", "Persona externa " + IntToString(n) + " eliminada satisfactoriamente");
    }

    /** `updateExternas` for the path segment `param`: a missing row is a 404
        with `ok: false`; otherwise nine columns are overwritten from the
        adapted body. */
    method UpdateExternas(param: string, auth: Auth, token: string, body: Body) returns (res: Response)
      requires Valid()
      modifies this
      ensures Valid() && nextId == old(nextId)
      ensures CheckToken(auth, token, "mensaje").Refused? ==>
                res == CheckToken(auth, token, "mensaje").response && rows == old(rows)
      ensures CheckToken(auth, token, "mensaje").Operator? && PathId(param).None? ==>
                res == UpdateCrash && rows == old(rows)
      ensures CheckToken(auth, token, "mensaje").Operator? && PathId(param).Some? && PathId(param).value !in old(rows) ==>
                res == Reply(404, false, "mensaje", NoCompany + IntToString(PathId(param).value) + " no se encuentra") &&
                rows == old(rows)
      ensures CheckToken(auth, token, "mensaje").Operator? && PathId(param).Some? && PathId(param).value in old(rows) ==>
                rows == old(rows)[PathId(param).value :=
                          Overwrite(old(rows)[PathId(param).value], FromRequest(body), CheckToken(auth, token, "mensaje").id)] &&
                res == Reply(200, true, "mensaje", "Empresa exterior con id: " + IntToString(PathId(param).value) + " modificada satisfactoriamente")
    {
      var id := PathId(param);
      var caller := CheckToken(auth, token, "mensaje");
      if caller.Refused? {
        return caller.response;
      }
      var e := FromRequest(body);
      if id.None? {
        // a NaN or out-of-range id makes the query throw
        return UpdateCrash;
      }
      var n := id.value;
      if n !in rows {
        return Reply(404, false, "mensaje", NoCompany + IntToString(n) + " no se encuentra");
      }
      rows := rows[n := Overwrite(rows[n], e, caller.id)];
      res := Reply(200, true, "mensaje", "Empresa exterior con id: " + IntToString(n) + " modificada satisfactoriamente");
    }
  }
}
