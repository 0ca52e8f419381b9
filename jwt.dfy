/** JSON Web Tokens as the rest of the program sees them. Signing and
    verification are not modelled: `jsonwebtoken` is an oracle that, given a
    token and the server key, either rejects the token or yields the user id
    carried in its payload. */
module Jwt {
  import opened Js

  /** `jwt.verify(token, key)`: `None` when it throws (bad signature, expired,
      malformed), otherwise the payload's `id`. The library throws 'jwt must
      be provided' on the empty token before any of this, which
      `Comprobar` states itself. */
  type Verify = (string, string) -> Option<int>

  /** `jwt.sign({ id }, key)`: `None` when signing fails. */
  type Sign = int -> Option<string>

  /** The server's token configuration: `process.env.JWT_KEY` (the empty
      string when it is unset, both being falsy) and the two library calls. */
  datatype Auth = Auth(key: string, verify: Verify, sign: Sign)

  /** What `comprobarJWT(token)` returns: `[valid, id]`. */
  datatype Verdict = Verdict(valid: bool, id: Option<int>)

  /** `comprobarJWT(token)`: `[false, null]` without a key or when
      verification throws, as it always does on the empty token that
      `token || ''` passes for a missing one; otherwise `[true, decoded.id]`. */
  function Comprobar(auth: Auth, token: string): (r: Verdict)
    ensures r.valid <==> auth.key != "" && token != "" && auth.verify(token, auth.key).Some?
    ensures r.valid ==> r.id == auth.verify(token, auth.key)
    ensures !r.valid ==> r.id == None
  {
    if auth.key == "" || token == "" then Verdict(false, None)
    else match auth.verify(token, auth.key)
      case None => Verdict(false, None)
      case Some(n) => Verdict(true, Some(n))
  }

  /** `!valid || !usuarioId`: the controllers' own rejection test, which also
      turns away a verified token whose id is 0. */
  predicate Rejected(v: Verdict)
  {
    !v.valid || v.id.None? || v.id.value == 0
  }

  /** `generarJWT(id)`: rejects without a key, otherwise signs, rejecting
      an empty token as 'Token no generado'. */
  function Generar(auth: Auth, id: int): (r: Option<string>)
    ensures auth.key == "" ==> r == None
    ensures r.Some? <==> auth.key != "" && auth.sign(id).Some? && auth.sign(id).value != ""
    ensures r.Some? ==> r == auth.sign(id)
  {
    if auth.key == "" then None
    else match auth.sign(id)
      case None => None
      case Some(t) => if t == "" then None else Some(t)
  }
}
