/** The vehicle-entry controller over the table `entradas_vehiculos`: the
    list of current entries, the search query, and the handlers that create,
    update, stamp and delete entries. */
module Entradas {
  import opened Js
  import opened Http
  import opened Jwt
  import opened Store
  import opened Query
  import opened Guards

  /** One row of `entradas_vehiculos` (the id is the map key). */
  datatype Entrada = Entrada(
    nombreConductor: Val,
    empresa: Val,
    matricula: Val,
    claseCarga: Val,
    fechaEntrada: Val,
    fechaSalida: Val,
    firma: Val,
    recepcion: Val,
    vigilancia: Val,
    usuario: Val)

  /** A row as `SELECT *` returns it. */
  function RowJson(id: int, e: Entrada): Json
  {
    JObj(map[
      "id" := JNum(id),
      "nombre_conductor" := ToJson(e.nombreConductor),
      "empresa" := ToJson(e.empresa),
      "matricula" := ToJson(e.matricula),
      "clase_carga" := ToJson(e.claseCarga),
      "fecha_entrada" := ToJson(e.fechaEntrada),
      "fecha_salida" := ToJson(e.fechaSalida),
      "firma" := ToJson(e.firma),
      "recepcion" := ToJson(e.recepcion),
      "vigilancia" := ToJson(e.vigilancia),
      "usuario" := ToJson(e.usuario)])
  }

  /** `new Entrada(id, nombreConductor, empresa, matricula, claseCarga,
      fechaEntrada, firma)` as `res.json` writes it: the properties left
      undefined by the constructor are dropped. */
  function CreatedJson(id: int, e: Entrada): Json
  {
    JObj(map[
      "id" := JNum(id),
      "nombreConductor" := ToJson(e.nombreConductor),
      "empresa" := ToJson(e.empresa),
      "matricula" := ToJson(e.matricula),
      "claseCarga" := ToJson(e.claseCarga),
      "fechaEntrada" := ToJson(e.fechaEntrada),
      "firma" := ToJson(e.firma)])
  }

  /** Twelve hours, in milliseconds. */
  const ShiftLength: int := 12 * 60 * 60 * 1000

  /** `getEntradas`: an entry is listed when it came in during the last
      twelve hours or has not left yet. */
  predicate Current(e: Entrada, now: int, instant: Instant)
  {
    var t := DateOf(e.fechaEntrada, instant);
    (!e.fechaEntrada.Null? && t.Some? && t.value >= now - ShiftLength) || e.fechaSalida.Null?
  }

  /** A vehicle that has not left stays on the list however long ago it came in. */
  lemma OpenEntriesStayListed(e: Entrada, now: int, instant: Instant)
    requires e.fechaSalida.Null?
    ensures Current(e, now, instant)
  {
  }

  /** A vehicle that has left drops off the list once its entry is more than
      twelve hours old. */
  lemma ClosedEntriesExpire(e: Entrada, now: int, instant: Instant)
    requires !e.fechaSalida.Null? && DateOf(e.fechaEntrada, instant).Some?
    requires DateOf(e.fechaEntrada, instant).value < now - ShiftLength
    ensures !Current(e, now, instant)
  {
  }

  // ---------------------------------------------------------------------------
  // getEntradasSelect

  const SelectBase := "SELECT * FROM entradas_vehiculos WHERE 1=1"
  const ByDriver := " AND nombre_conductor ILIKE "
  const ByCompany := " AND empresa ILIKE "
  const ByPlate := " AND matricula ILIKE "
  const ByLoad := " AND (clase_carga IS NULL OR clase_carga ILIKE "
  const ByEntryTime := " AND fecha_entrada BETWEEN "
  const AndText := " AND "
  const NewestFirst := " ORDER BY fecha_entrada DESC LIMIT "
  const OffsetText := " OFFSET "

  const SelectCrash := Reply(500, false, "mensaje", "Error inesperado en la selección de entradas.")
  const MissingStart := Reply(400, false, "mensaje", "El campo fecha_entrada1 es obligatorio para la búsqueda.")

  /** The text of `getEntradasSelect` up to its filters: the base query, then
      each filled filter's clause, the load filter closing its parenthesis. */
  function SelectTexts(driver: Blankness, company: Blankness, plate: Blankness, load: Blankness): seq<string>
  {
    [SelectBase] + ClauseTexts(driver, ByDriver, "") + ClauseTexts(company, ByCompany, "") +
    ClauseTexts(plate, ByPlate, "") + ClauseTexts(load, ByLoad, ")")
  }

  /** The four optional `ILIKE` filters of `getEntradasSelect`, in the order
      the handler appends them, with their patterns as the first parameters. */
  method SelectFilters(driver: Blankness, company: Blankness, plate: Blankness, load: Blankness)
    returns (sql: Sql, params: seq<Val>, paramIndex: nat)
    requires !driver.NoTrim? && !company.NoTrim? && !plate.NoTrim? && !load.NoTrim?
    ensures Numbered(sql, params) && paramIndex == |params| + 1
    ensures params == PatternOf(driver) + PatternOf(company) + PatternOf(plate) + PatternOf(load)
    ensures Texts(sql) == SelectTexts(driver, company, plate, load)
  {
    sql, params, paramIndex := [Text(SelectBase)], [], 1;
    assert Texts(sql) == [SelectBase] by { assert sql[..0] == []; }
    sql, params, paramIndex := AddFilter(sql, params, paramIndex, driver, ByDriver, "");
    sql, params, paramIndex := AddFilter(sql, params, paramIndex, company, ByCompany, "");
    sql, params, paramIndex := AddFilter(sql, params, paramIndex, plate, ByPlate, "");
    sql, params, paramIndex := AddFilter(sql, params, paramIndex, load, ByLoad, ")");
  }

  /** The query `getEntradasSelect` builds once its date guards have passed:
      the filters, then the date range, the limit and the offset. */
  method SelectQuery(driver: Blankness, company: Blankness, plate: Blankness, load: Blankness,
                     f1: Val, f2: Val, limit: Val, offset: Val) returns (q: Built)
    requires !driver.NoTrim? && !company.NoTrim? && !plate.NoTrim? && !load.NoTrim?
    ensures Numbered(q.sql, q.params)
    ensures q.params == PatternOf(driver) + PatternOf(company) + PatternOf(plate) + PatternOf(load) + [f1, f2, limit, offset]
    ensures Texts(q.sql) == SelectTexts(driver, company, plate, load) + [ByEntryTime, AndText, NewestFirst, OffsetText]
  {
    var sql, params, paramIndex := SelectFilters(driver, company, plate, load);
    ghost var patterns, texts := params, Texts(sql);
    sql, params, paramIndex := AddParam(sql, params, paramIndex, ByEntryTime, f1);
    sql, params, paramIndex := AddParam(sql, params, paramIndex, AndText, f2);
    sql, params, paramIndex := AddParam(sql, params, paramIndex, NewestFirst, limit);
    sql, params, paramIndex := AddParam(sql, params, paramIndex, OffsetText, offset);
    AppendFour(patterns, f1, f2, limit, offset);
    AppendFour(texts, ByEntryTime, AndText, NewestFirst, OffsetText);
    q := Built(sql, params);
  }

  /** Whether one of the fields `getEntradasSelect` trims after the start
      date is truthy without being a string, so that `.trim()` throws. */
  predicate SelectTrimThrows(body: Body)
  {
    Test(body, "fecha_entrada2").NoTrim? || Test(body, "nombre_conductor").NoTrim? ||
    Test(body, "empresa").NoTrim? || Test(body, "matricula").NoTrim? || Test(body, "clase_carga").NoTrim?
  }

  /** The search query `getEntradasSelect` runs for `body`; `dbNow` is what
      `select now()` returns. A blank start date is answered 400 before any
      query; a value that is truthy but not a string throws at `.trim()`. */
  method GetEntradasSelect(body: Body, dbNow: Val) returns (r: Search)
    ensures Test(body, "fecha_entrada1").Blank? ==> r == Answer(MissingStart)
    ensures Test(body, "fecha_entrada1").NoTrim? ==> r == Answer(SelectCrash)
    ensures Test(body, "fecha_entrada1").Filled? ==> (r.Answer? <==> SelectTrimThrows(body))
    ensures r.Answer? ==> r.response in {MissingStart, SelectCrash}
    // the placeholders are $1..$n, in order
    ensures r.Run? ==> Numbered(r.query.sql, r.query.params)
    // one pattern per filled filter, in the fixed order, then the dates, limit and offset
    ensures r.Run? ==>
              r.query.params ==
                PatternOf(Test(body, "nombre_conductor")) + PatternOf(Test(body, "empresa")) +
                PatternOf(Test(body, "matricula")) + PatternOf(Test(body, "clase_carga")) + [
                  Get(body, "fecha_entrada1"),
                  if Test(body, "fecha_entrada2").Blank? then dbNow else Get(body, "fecha_entrada2"),
                  DefaultIfUndefined(Get(body, "limit"), Num(100)),
                  DefaultIfUndefined(Get(body, "offset"), Num(0))]
    // each filled filter adds its clause, in the same order; the load filter also admits rows with no load class
    ensures r.Run? ==>
              Texts(r.query.sql) ==
                SelectTexts(Test(body, "nombre_conductor"), Test(body, "empresa"), Test(body, "matricula"), Test(body, "clase_carga")) +
                [ByEntryTime, AndText, NewestFirst, OffsetText]
  {
    var f1 := Get(body, "fecha_entrada1");
    var t1 := BlankTest(f1);
    if t1.NoTrim? { return Answer(SelectCrash); }
    if t1.Blank? { return Answer(MissingStart); }
    var f2 := Get(body, "fecha_entrada2");
    var t2 := BlankTest(f2);
    if t2.NoTrim? { return Answer(SelectCrash); }
    if t2.Blank? { f2 := dbNow; }
    var limit := DefaultIfUndefined(Get(body, "limit"), Num(100));
    var offset := DefaultIfUndefined(Get(body, "offset"), Num(0));

    var driver := Test(body, "nombre_conductor");
    var company := Test(body, "empresa");
    var plate := Test(body, "matricula");
    var load := Test(body, "clase_carga");
    if driver.NoTrim? || company.NoTrim? || plate.NoTrim? || load.NoTrim? {
      return Answer(SelectCrash);
    }
    var q := SelectQuery(driver, company, plate, load, f1, f2, limit, offset);
    r := Run(q);
  }

  // ---------------------------------------------------------------------------
  // The handlers that read or change the table

  /** The body fields `setEntrada` requires, checked with `== null`. */
  const RequiredFields: seq<string> := ["nombre_conductor", "firma", "empresa", "matricula", "clase_carga", "fecha_entrada"]

  predicate MissingRequired(body: Body)
  {
    exists i :: 0 <= i < |RequiredFields| && IsNullish(Get(body, RequiredFields[i]))
  }

  /** The row `setEntrada` inserts for `body` on behalf of user `user`:
      no exit time, neither flag set. */
  function NewEntrada(body: Body, user: int): Entrada
  {
    Entrada(Col(Get(body, "nombre_conductor")), Col(Get(body, "empresa")), Col(Get(body, "matricula")),
      Col(Get(body, "clase_carga")), Col(Get(body, "fecha_entrada")), Null, Col(Get(body, "firma")),
      Bool(false), Bool(false), Num(user))
  }

  // The fixed answers of the handlers below.
  const GetCrash := Reply(500, false, "mensaje", "Error al obtener la entrada")
  const Incomplete := Reply(400, false, "mensaje", "Datos enviados nulos o incompletos")
  const RecepcionMissing := Reply(400, false, "mensaje", "Los campos id y recepcion son obligatorios.")
  const RecepcionCrash := Reply(500, false, "mensaje", "Error inesperado al actualizar la entrada.")
  const RecepcionDone := Reply(200, true, "mensaje", "El estado de recepción de la entrada ha sido actualizado correctamente.")
  const PorteriaMissing := Reply(400, false, "mensaje", "Los campos id, vigilancia y fecha son obligatorios.")
  const PorteriaCrash := Reply(500, false, "mensaje", "Error inesperado al actualizar la entrada de portería.")
  const PorteriaDone := Reply(200, true, "mensaje", "El estado de portería de la entrada ha sido actualizado correctamente.")
  const BadId := Reply(400, false, "mensaje", "El ID proporcionado no es un número válido.")
  const DeleteCrash := Reply(500, false, "mensaje", "Error inesperado al eliminar la entrada.")
  const CreateCrash := Reply(500, false, "mensaje", "Error al crear la entrada")
  const Deleted := "La entrada ha sido eliminada correctamente."
  const UpdateCrash := Reply(500, false, "mensaje", "Error al actualizar la entrada")
  const NoPlate := "No se encontró entrada para la matrícula "

  /** `ORDER BY fecha_entrada DESC` may list `a` ahead of `b`: NULL sorts
      first, as PostgreSQL does for a descending order, then later instants
      come before earlier ones. A value without an instant cannot be stored
      in the `timestamp` column; here it sorts last. */
  predicate ListedFirst(a: Val, b: Val, instant: Instant)
  {
    (b.Null? ==> a.Null?) &&
    (!a.Null? && !b.Null? && DateOf(b, instant).Some? ==>
       DateOf(a, instant).Some? && DateOf(b, instant).value <= DateOf(a, instant).value)
  }

  /** The rows `keys` selects, `w` among them, have a first one in that
      order: what `LIMIT 1` answers. */
  lemma {:induction false} FirstListed(rows: map<int, Entrada>, keys: set<int>, w: int, instant: Instant) returns (k: int)
    requires w in keys && keys <= rows.Keys
    ensures k in keys
    ensures forall j :: j in keys ==> ListedFirst(rows[k].fechaEntrada, rows[j].fechaEntrada, instant)
    decreases keys
  {
    if y :| y in keys && y != w {
      var m := FirstListed(rows, keys - {w}, y, instant);
      if ListedFirst(rows[m].fechaEntrada, rows[w].fechaEntrada, instant) {
        k := m;
      } else {
        k := w;
        forall j | j in keys
          ensures ListedFirst(rows[k].fechaEntrada, rows[j].fechaEntrada, instant)
        {
          if j != w {
            assert ListedFirst(rows[m].fechaEntrada, rows[j].fechaEntrada, instant);
          }
        }
      }
    } else {
      k := w;
    }
  }

  const NoEntry := "No se encontró ninguna entrada con el id "

  class EntradasTable {
    var rows: map<int, Entrada>
    var nextId: int

    /** Every id was handed out by the SERIAL counter. */
    predicate Valid()
      reads this
    {
      nextId >= 1 && forall k :: k in rows ==> 1 <= k < nextId
    }

    constructor ()
      ensures Valid() && rows == map[] && nextId == 1
    {
      rows := map[];
      nextId := 1;
    }

    /** The ids `getEntradas` lists. */
    method GetEntradas(now: int, instant: Instant) returns (listed: set<int>)
      ensures listed <= rows.Keys
      ensures forall k :: k in rows && rows[k].fechaSalida.Null? ==> k in listed
      ensures forall k :: k in listed <==> k in rows && Current(rows[k], now, instant)
    {
      listed := set k | k in rows && Current(rows[k], now, instant);
    }

    /** `getEntrada` for the path segment `param`. */
    method GetEntrada(param: string) returns (res: Response)
      ensures PathId(param).None? ==> res == GetCrash
      ensures PathId(param).Some? && PathId(param).value !in rows ==>
                res == Notice(Num(PathId(param).value), "entrada con id " + IntToString(PathId(param).value) + " no se encuentra")
      ensures PathId(param).Some? && PathId(param).value in rows ==>
                res == Response(200, map["ok" := JBool(true), "entrada" := RowJson(PathId(param).value, rows[PathId(param).value])])
    {
      var id := PathId(param);
      if id.None? {
        // a NaN or out-of-range id makes the query throw
        return GetCrash;
      }
      var n := id.value;
      if n !in rows {
        return Notice(Num(n), "entrada con id " + IntToString(n) + " no se encuentra");
      }
      return Response(200, map["ok" := JBool(true), "entrada" := RowJson(n, rows[n])]);
    }

    /** `setEntrada` as intended: the new row is built and answered with 200.
        This is the behaviour the rest of the model relies on; the code as
        written is `SetEntradaAsWritten`. */
    method SetEntrada(auth: Auth, token: string, body: Body) returns (res: Response)
      requires Valid()
      modifies this
      ensures Valid()
      ensures CheckToken(auth, token, "mensaje").Refused? ==>
                res == CheckToken(auth, token, "mensaje").response && rows == old(rows) && nextId == old(nextId)
      ensures CheckToken(auth, token, "mensaje").Operator? && MissingRequired(body) ==>
                res == Incomplete && rows == old(rows) && nextId == old(nextId)
      ensures CheckToken(auth, token, "mensaje").Operator? && !MissingRequired(body) ==>
                old(nextId) !in old(rows) && nextId == old(nextId) + 1 &&
                rows == old(rows)[old(nextId) := NewEntrada(body, CheckToken(auth, token, "mensaje").id)] &&
                // the answer carries a row with the same signature and entry time
                exists k :: k in rows && SameText(rows[k].firma, Get(body, "firma")) &&
                  SameText(rows[k].fechaEntrada, Get(body, "fecha_entrada")) &&
                  res == Response(200, map["ok" := JBool(true), "entrada" := CreatedJson(k, rows[k])])
    {
      var caller := CheckToken(auth, token, "mensaje");
      if caller.Refused? {
        return caller.response;
      }
      var nombre := Get(body, "nombre_conductor");
      var firma := Get(body, "firma");
      var empresa := Get(body, "empresa");
      var matricula := Get(body, "matricula");
      var clase := Get(body, "clase_carga");
      var fecha := Get(body, "fecha_entrada");
      assert MissingRequired(body) <==> (IsNullish(nombre) || IsNullish(firma) || IsNullish(empresa) ||
        IsNullish(matricula) || IsNullish(clase) || IsNullish(fecha)) by {
        assert RequiredFields[0] == "nombre_conductor" && RequiredFields[1] == "firma" && RequiredFields[2] == "empresa";
        assert RequiredFields[3] == "matricula" && RequiredFields[4] == "clase_carga" && RequiredFields[5] == "fecha_entrada";
      }
      if IsNullish(nombre) || IsNullish(firma) || IsNullish(empresa) || IsNullish(matricula) || IsNullish(clase) || IsNullish(fecha) {
        return Incomplete;
      }
      var id := nextId;
      rows := rows[id := NewEntrada(body, caller.id)];
      nextId := nextId + 1;
      // the handler reads the row back by signature and entry time
      assert id in rows && SameText(rows[id].firma, firma) && SameText(rows[id].fechaEntrada, fecha);
      var k :| k in rows && SameText(rows[k].firma, firma) && SameText(rows[k].fechaEntrada, fecha);
      res := Response(200, map["ok" := JBool(true), "entrada" := CreatedJson(k, rows[k])]);
    }

    /** `setEntrada` as written: the module `../models/entrada` is loaded
        with `require`, but it has only ES exports (`export class Entrada`,
        `export default Entrada`), so `require` yields the module object and
        `new Entrada(...)` throws a TypeError. That happens after the INSERT
        and the read-back SELECT, so every request that passes the checks
        stores its row and is still answered 500. */
    method SetEntradaAsWritten(auth: Auth, token: string, body: Body) returns (res: Response)
      requires Valid()
      modifies this
      ensures Valid()
      ensures CheckToken(auth, token, "mensaje").Refused? ==>
                res == CheckToken(auth, token, "mensaje").response && rows == old(rows) && nextId == old(nextId)
      ensures CheckToken(auth, token, "mensaje").Operator? && MissingRequired(body) ==>
                res == Incomplete && rows == old(rows) && nextId == old(nextId)
      ensures CheckToken(auth, token, "mensaje").Operator? && !MissingRequired(body) ==>
                old(nextId) !in old(rows) && nextId == old(nextId) + 1 &&
                rows == old(rows)[old(nextId) := NewEntrada(body, CheckToken(auth, token, "mensaje").id)] &&
                res == CreateCrash
    {
      var caller := CheckToken(auth, token, "mensaje");
      if caller.Refused? {
        return caller.response;
      }
      if MissingRequired(body) {
        return Incomplete;
      }
      rows := rows[nextId := NewEntrada(body, caller.id)];
      nextId := nextId + 1;
      // `new Entrada(...)` throws: the catch answers, the row stays
      res := CreateCrash;
    }

    /** `updateRecepcionEntrada`: sets `recepcion` and `usuario`, whatever
        the other flags say. */
    method UpdateRecepcionEntrada(auth: Auth, token: string, body: Body) returns (res: Response)
      requires Valid()
      modifies this
      ensures Valid() && nextId == old(nextId)
      ensures CheckToken(auth, token, "mensaje").Refused? ==>
                res == CheckToken(auth, token, "mensaje").response && rows == old(rows)
      ensures CheckToken(auth, token, "mensaje").Operator? && (Get(body, "id").Undef? || Get(body, "recepcion").Undef?) ==>
                res == RecepcionMissing && rows == old(rows)
      ensures CheckToken(auth, token, "mensaje").Operator? && !Get(body, "id").Undef? && !Get(body, "recepcion").Undef? ==>
                match KeyOf(Get(body, "id"))
                case StoreError =>
                  res == RecepcionCrash && rows == old(rows)
                case NoRow =>
                  res == Reply(404, false, "mensaje", NoEntry + ToJsString(Get(body, "id")) + ".") && rows == old(rows)
                case ByKey(k) =>
                  if k !in old(rows) then
                    res == Reply(404, false, "mensaje", NoEntry + ToJsString(Get(body, "id")) + ".") && rows == old(rows)
                  else
                    rows == old(rows)[k := old(rows)[k].(recepcion := Col(Get(body, "recepcion")),
                                                         usuario := Num(CheckToken(auth, token, "mensaje").id))] &&
                    res == RecepcionDone
    {
      var caller := CheckToken(auth, token, "mensaje");
      if caller.Refused? {
        return caller.response;
      }
      var id := Get(body, "id");
      var recepcion := Get(body, "recepcion");
      if id.Undef? || recepcion.Undef? {
        return RecepcionMissing;
      }
      var key := KeyOf(id);
      if key.StoreError? {
        return RecepcionCrash;
      }
      if key.NoRow? || key.key !in rows {
        return Reply(404, false, "mensaje", NoEntry + ToJsString(id) + ".");
      }
      var k := key.key;
      rows := rows[k := rows[k].(recepcion := Col(recepcion), usuario := Num(caller.id))];
      res := RecepcionDone;
    }

    /** `updatePorteriaEntrada`: sets `vigilancia`, writes `fecha` into
        `fecha_salida` and sets `usuario`. */
    method UpdatePorteriaEntrada(auth: Auth, token: string, body: Body) returns (res: Response)
      requires Valid()
      modifies this
      ensures Valid() && nextId == old(nextId)
      ensures CheckToken(auth, token, "mensaje").Refused? ==>
                res == CheckToken(auth, token, "mensaje").response && rows == old(rows)
      ensures CheckToken(auth, token, "mensaje").Operator? &&
              (Get(body, "id").Undef? || Get(body, "vigilancia").Undef? || Get(body, "fecha").Undef?) ==>
                res == PorteriaMissing && rows == old(rows)
      ensures CheckToken(auth, token, "mensaje").Operator? &&
              !Get(body, "id").Undef? && !Get(body, "vigilancia").Undef? && !Get(body, "fecha").Undef? ==>
                match KeyOf(Get(body, "id"))
                case StoreError =>
                  res == PorteriaCrash && rows == old(rows)
                case NoRow =>
                  res == Reply(404, false, "mensaje", NoEntry + ToJsString(Get(body, "id")) + ".") && rows == old(rows)
                case ByKey(k) =>
                  if k !in old(rows) then
                    res == Reply(404, false, "mensaje", NoEntry + ToJsString(Get(body, "id")) + ".") && rows == old(rows)
                  else
                    rows == old(rows)[k := old(rows)[k].(vigilancia := Col(Get(body, "vigilancia")),
                                                         fechaSalida := Col(Get(body, "fecha")),
                                                         usuario := Num(CheckToken(auth, token, "mensaje").id))] &&
                    res == PorteriaDone
    {
      var caller := CheckToken(auth, token, "mensaje");
      if caller.Refused? {
        return caller.response;
      }
      var id := Get(body, "id");
      var vigilancia := Get(body, "vigilancia");
      var fecha := Get(body, "fecha");
      if id.Undef? || vigilancia.Undef? || fecha.Undef? {
        return PorteriaMissing;
      }
      var key := KeyOf(id);
      if key.StoreError? {
        return PorteriaCrash;
      }
      if key.NoRow? || key.key !in rows {
        return Reply(404, false, "mensaje", NoEntry + ToJsString(id) + ".");
      }
      var k := key.key;
      rows := rows[k := rows[k].(vigilancia := Col(vigilancia), fechaSalida := Col(fecha), usuario := Num(caller.id))];
      res := PorteriaDone;
    }

    /** `deleteEntrada` for the path segment `param` (no token check). */
    method DeleteEntrada(param: string) returns (res: Response)
      requires Valid()
      modifies this
      ensures Valid() && nextId == old(nextId)
      ensures ParseInt(param).None? ==>
                res == BadId && rows == old(rows)
      // a number outside `integer` passes the NaN test and makes the SELECT throw
      ensures ParseInt(param).Some? && PathId(param).None? ==>
                res == DeleteCrash && rows == old(rows)
      ensures PathId(param).Some? && PathId(param).value !in old(rows) ==>
                res == Reply(404, false, "mensaje", NoEntry + IntToString(PathId(param).value) + ".") && rows == old(rows)
      ensures PathId(param).Some? && PathId(param).value in old(rows) ==>
                rows == old(rows) - {PathId(param).value} &&
                res == Response(200, map["ok" := JBool(true), "mensaje" := JStr(Deleted),
                                         "entrada" := RowJson(PathId(param).value, old(rows)[PathId(param).value])])
    {
      if ParseInt(param).None? {
        return BadId;
      }
      var id := PathId(param);
      if id.None? {
        return DeleteCrash;
      }
      var n := id.value;
      if n !in rows {
        return Reply(404, false, "mensaje", NoEntry + IntToString(n) + ".");
      }
      var snapshot := rows[n];
      rows := rows - {n};
      res := Response(200, map["ok" := JBool(true), "mensaje" := JStr(Deleted),
                               "entrada" := RowJson(n, snapshot)]);
    }

    /** `updateEntradas` for the path segment `param`: overwrites the six data
        columns (a missing one becomes NULL) and `usuario`. */
    method UpdateEntradas(param: string, auth: Auth, token: string, body: Body) returns (res: Response)
      requires Valid()
      modifies this
      ensures Valid() && nextId == old(nextId)
      ensures CheckToken(auth, token, "mensaje").Refused? ==>
                res == CheckToken(auth, token, "mensaje").response && rows == old(rows)
      ensures CheckToken(auth, token, "mensaje").Operator? && PathId(param).None? ==>
                res == UpdateCrash && rows == old(rows)
      ensures CheckToken(auth, token, "mensaje").Operator? && PathId(param).Some? && PathId(param).value !in old(rows) ==>
                res == Notice(Num(PathId(param).value), "Entrada con id " + IntToString(PathId(param).value) + " no se encuentra") &&
                rows == old(rows)
      ensures CheckToken(auth, token, "mensaje").Operator? && PathId(param).Some? && PathId(param).value in old(rows) ==>
                rows == old(rows)[PathId(param).value := old(rows)[PathId(param).value].(
                  nombreConductor := Col(Get(body, "nombre_conductor")), empresa := Col(Get(body, "empresa")),
                  matricula := Col(Get(body, "matricula")), claseCarga := Col(Get(body, "clase_carga")),
                  fechaEntrada := Col(Get(body, "fecha_entrada")), fechaSalida := Col(Get(body, "fecha_salida")),
                  usuario := Num(CheckToken(auth, token, "mensaje").id))] &&
                res == Reply(200, true, "mensaje", "Entrada " + IntToString(PathId(param).value) + " modificada satisfactoriamente")
    {
      var id := PathId(param);
      var caller := CheckToken(auth, token, "mensaje");
      if caller.Refused? {
        return caller.response;
      }
      if id.None? {
        // a NaN or out-of-range id makes the query throw
        return UpdateCrash;
      }
      var n := id.value;
      if n !in rows {
        return Notice(Num(n), "Entrada con id " + IntToString(n) + " no se encuentra");
      }
      rows := rows[n := rows[n].(
        nombreConductor := Col(Get(body, "nombre_conductor")), empresa := Col(Get(body, "empresa")),
        matricula := Col(Get(body, "matricula")), claseCarga := Col(Get(body, "clase_carga")),
        fechaEntrada := Col(Get(body, "fecha_entrada")), fechaSalida := Col(Get(body, "fecha_salida")),
        usuario := Num(caller.id))];
      res := Reply(200, true, "mensaje", "Entrada " + IntToString(n) + " modificada satisfactoriamente");
    }

    /** `getEntradaByMatricula`: the latest entry of the vehicle, the
        first row with the upper-cased plate in `fecha_entrada DESC` order.
        `toUpperCase` is the runtime's `String.prototype.toUpperCase`, whose
        full Unicode case mapping is not part of this model. */
    method GetEntradaByMatricula(matricula: string, toUpperCase: string -> string, instant: Instant) returns (res: Response)
      ensures (forall k :: k in rows ==> !SameText(rows[k].matricula, Str(toUpperCase(matricula)))) ==>
                res == Reply(404, false, "mensaje", NoPlate + matricula)
      ensures (exists k :: k in rows && SameText(rows[k].matricula, Str(toUpperCase(matricula)))) ==>
                exists k :: k in rows && SameText(rows[k].matricula, Str(toUpperCase(matricula))) &&
                  (forall j :: j in rows && SameText(rows[j].matricula, Str(toUpperCase(matricula))) ==>
                     ListedFirst(rows[k].fechaEntrada, rows[j].fechaEntrada, instant)) &&
                  res == Response(200, map["ok" := JBool(true), "entrada" := RowJson(k, rows[k])])
    {
      var plate := Str(toUpperCase(matricula));
      if forall k :: k in rows ==> !SameText(rows[k].matricula, plate) {
        return Reply(404, false, "mensaje", NoPlate + matricula);
      }
      var matching := set k | k in rows && SameText(rows[k].matricula, plate);
      var w :| w in rows && SameText(rows[w].matricula, plate);
      var first := FirstListed(rows, matching, w, instant);
      var k :| k in matching && forall j :: j in matching ==> ListedFirst(rows[k].fechaEntrada, rows[j].fechaEntrada, instant);
      res := Response(200, map["ok" := JBool(true), "entrada" := RowJson(k, rows[k])]);
    }
  }

  /** A complete request with a valid token against `setEntrada` as written:
      the table gains the row and the answer is the 500 error all the same. */
  method SetEntradaCrashExample() returns (res: Response, stored: nat)
    ensures res == CreateCrash && stored == 1
  {
    var table := new EntradasTable();
    var auth := Auth("clave", (token: string, key: string) => Some(7), (id: int) => None);
    var body: Body := map["nombre_conductor" := Str("Ana"), "firma" := Str("A."), "empresa" := Str("Transportes"),
                          "matricula" := Str("1234ABC"), "clase_carga" := Str("palets"),
                          "fecha_entrada" := Str("2025-01-15")];
    assert !MissingRequired(body) by {
      forall i | 0 <= i < |RequiredFields| ensures !IsNullish(Get(body, RequiredFields[i])) {
        assert RequiredFields[i] in body;
      }
    }
    res := table.SetEntradaAsWritten(auth, "token", body);
    assert table.rows.Keys == {1};
    stored := |table.rows|;
  }
}
