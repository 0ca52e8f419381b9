/** The two handlers mounted after every router: unknown routes get 404, and
    errors passed to `next(err)` get a status chosen from the error and a
    fixed Spanish message. */
module ErrorHandler {
  import opened Js
  import opened Http

  /** What the handler reads of an error object: its `status` property
      (`None` when absent) and its `message`. */
  datatype Failure = Failure(status: Option<int>, message: Val)

  const CorsText := "CORS no permitido para este origen."
  const GenericText := "Error inesperado. Intente más tarde."

  /** `notFoundHandler`. */
  function NotFound(): (r: Response)
    ensures r.status == 404 && r.body == map["ok" := JBool(false), "mensaje" := JStr("Ruta no encontrada")]
  {
    Reply(404, false, "mensaje", "Ruta no encontrada")
  }

  /** `err?.status || (err?.message === 'CORS not allowed' ? 403 : 500)`;
      `err` is `None` for a thrown `undefined` or `null`. */
  function StatusOf(err: Option<Failure>): (s: int)
    ensures err.Some? && err.value.status.Some? && err.value.status.value != 0 ==> s == err.value.status.value
    ensures (err.None? || err.value.status.None? || err.value.status.value == 0) ==>
              (s == 403 <==> err.Some? && err.value.message == Str("CORS not allowed"))
    ensures (err.None? || err.value.status.None? || err.value.status.value == 0) ==> s in {403, 500}
  {
    if err.Some? && err.value.status.Some? && err.value.status.value != 0 then err.value.status.value
    else if err.Some? && err.value.message == Str("CORS not allowed") then 403
    else 500
  }

  /** `globalErrorHandler(err, req, res, next)`: nothing is written once the
      headers are out; otherwise the body is `{ ok: false, mensaje }` where
      `mensaje` is the CORS text exactly when the status is 403. */
  function GlobalErrorHandler(err: Option<Failure>, headersSent: bool): (r: Option<Response>)
    ensures r.None? <==> headersSent
    ensures r.Some? ==> r.value.status == StatusOf(err)
    ensures r.Some? ==> r.value.body.Keys == {"ok", "mensaje"} && r.value.body["ok"] == JBool(false)
    ensures r.Some? ==> (r.value.body["mensaje"] == JStr(CorsText) <==> r.value.status == 403)
    ensures r.Some? ==> r.value.body["mensaje"] in {JStr(CorsText), JStr(GenericText)}
  {
    if headersSent then None
    else
      var status := StatusOf(err);
      var mensaje := if status == 403 then CorsText else GenericText;
      Some(Reply(status, false, "mensaje", mensaje))
  }

  /** An error that carries its own status keeps it, even with the CORS
      message; one without a status falls back on the message. */
  lemma StatusPrecedence()
    ensures StatusOf(Some(Failure(Some(418), Str("CORS not allowed")))) == 418
    ensures StatusOf(Some(Failure(None, Str("CORS not allowed")))) == 403
    ensures StatusOf(Some(Failure(Some(0), Str("boom")))) == 500
    ensures StatusOf(None) == 500
  {
  }
}
