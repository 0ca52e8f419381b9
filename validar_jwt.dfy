/** The `validarJWT` middleware: a request without `x-token` is answered 400,
    a server without a key 500, a token that does not verify 401; otherwise
    the decoded id is stored in `req.id` and `next()` is called. */
module ValidarJwt {
  import opened Js
  import opened Http
  import opened Jwt

  datatype GateResult = Pass(id: int) | Block(response: Response)

  const NoToken: Response := Reply(400, false, "msg", "No hay token")
  const NoKey: Response := Reply(500, false, "msg", "Configuración de servidor inválida")
  const BadToken: Response := Reply(401, false, "msg", "Token no válido")

  /** The decision the middleware takes for the header value `token` (the
      empty string when the header is missing). The checks run in order:
      presence, then the key, then verification. */
  function Gate(auth: Auth, token: string): (r: GateResult)
    ensures token == "" <==> r == Block(NoToken)
    ensures token != "" && auth.key == "" <==> r == Block(NoKey)
    ensures r.Pass? <==> token != "" && auth.key != "" && auth.verify(token, auth.key).Some?
    ensures r.Pass? ==> Some(r.id) == auth.verify(token, auth.key)
    ensures r.Block? ==> r.response in {NoToken, NoKey, BadToken}
  {
    if token == "" then Block(NoToken)
    else if auth.key == "" then Block(NoKey)
    else match auth.verify(token, auth.key)
      case None => Block(BadToken)
      case Some(n) => Pass(n)
  }

  /** The gate and the controllers' own `comprobarJWT` agree on which tokens
      verify, and on the id they carry. */
  lemma GateAgreesWithComprobar(auth: Auth, token: string)
    ensures Gate(auth, token).Pass? <==> Comprobar(auth, token).valid
    ensures Gate(auth, token).Pass? ==> Comprobar(auth, token).id == Some(Gate(auth, token).id)
  {
  }

  /** `validarJWT(req, res, next)`: on success `req.id` is the decoded id and
      `next()` is called exactly once; otherwise the answer is sent and
      `next()` is not called. */
  method ValidarJwt(ex: Exchange, auth: Auth, token: string)
    modifies ex
    ensures Gate(auth, token).Pass? ==>
              ex.id == Some(Gate(auth, token).id) && ex.nextCalls == old(ex.nextCalls) + 1 && ex.sent == old(ex.sent)
    ensures Gate(auth, token).Block? ==>
              ex.sent == Some(Gate(auth, token).response) && ex.nextCalls == old(ex.nextCalls) && ex.id == old(ex.id)
  {
    if token == "" {
      ex.sent := Some(NoToken);
      return;
    }
    if auth.key == "" {
      ex.sent := Some(NoKey);
      return;
    }
    var decoded := auth.verify(token, auth.key);
    if decoded.None? {
      ex.sent := Some(BadToken);
      return;
    }
    ex.id := Some(decoded.value);
    ex.nextCalls := ex.nextCalls + 1;
  }
}
