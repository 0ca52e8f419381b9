/** The user controller over the table `users`: login, sign-up, update,
    deletion, lookup by id and token renewal. Email addresses are kept
    unique by the checks the handlers make before they write; password
    hashing and comparison (bcrypt) are oracles. */
module Usuarios {
  import opened Js
  import opened Http
  import opened Jwt
  import opened Store

  /** One row of `users` (the id is the map key). */
  datatype Usuario = Usuario(
    name: Val,
    email: Val,
    password: Val,
    online: Val,
    userType: Val,
    codigoEmpleado: Val)

  /** bcrypt as the handlers use it: `hashSync(password, salt)` with the salt
      of this call folded into `hash`, and `compareSync(password, hash)`.
      Both throw unless their arguments are strings. */
  datatype Crypto = Crypto(hash: string -> string, compare: (string, string) -> bool)

  /** A row, or a `new Usuario(...)`, as `res.json` writes it: the seven
      properties, an undefined one left out. */
  function UserObject(id: int, u: Usuario): Object
  {
    With(With(With(With(With(With(map["id" := JNum(id)],
      "name", u.name), "email", u.email), "password", u.password), "online", u.online),
      "type", u.userType), "codigo_empleado", u.codigoEmpleado)
  }

  /** The rows whose `email` column equals `email` (`WHERE email = $1`). */
  predicate EmailOwner(rows: map<int, Usuario>, email: Val, k: int)
  {
    k in rows && SameText(rows[k].email, email)
  }

  /** No two rows share an email text (NULL emails do not clash). */
  predicate EmailsUnique(rows: map<int, Usuario>)
  {
    forall a, b :: a in rows && b in rows && a != b ==> !SameText(rows[a].email, rows[b].email)
  }

  /** Under unique emails, `WHERE email = $1` finds at most one row. */
  lemma OwnerUnique(rows: map<int, Usuario>, email: Val, a: int, b: int)
    requires EmailsUnique(rows) && EmailOwner(rows, email, a) && EmailOwner(rows, email, b)
    ensures a == b
  {
    if a != b {
      assert SameText(rows[a].email, rows[b].email);
    }
  }

  /** Writing a row whose email no other row holds keeps the emails unique. */
  lemma {:induction false} FreshEmailKeepsUnique(rows: map<int, Usuario>, k: int, u: Usuario)
    requires EmailsUnique(rows)
    requires forall j :: j in rows && j != k ==> !SameText(rows[j].email, u.email)
    ensures EmailsUnique(rows[k := u])
  {
    var r := rows[k := u];
    forall a, b | a in r && b in r && a != b ensures !SameText(r[a].email, r[b].email) {
      if a == k {
        assert !SameText(rows[b].email, u.email);
      } else if b != k {
        assert r[a] == rows[a] && r[b] == rows[b];
      }
    }
  }

  /** After an insert with a fresh, non-NULL email, that email leads to the
      new row and to no other: what the sign-up handler reads back. */
  lemma InsertedOwner(rows: map<int, Usuario>, k: int, u: Usuario, after: map<int, Usuario>)
    requires EmailsUnique(rows) && k !in rows && !IsNullish(u.email) && after == rows[k := u]
    requires forall j :: j in rows ==> !SameText(rows[j].email, u.email)
    ensures EmailOwner(after, u.email, k)
    ensures forall j :: EmailOwner(after, u.email, j) ==> j == k
  {
  }

  /** The employee codes that `WHERE codigo_empleado = $1` finds. */
  predicate HasCode(rows: map<int, Usuario>, code: Val)
  {
    exists k :: k in rows && SameText(rows[k].codigoEmpleado, code)
  }

  /** Whether a body value has an email that some row holds. */
  predicate EmailTaken(rows: map<int, Usuario>, email: Val)
  {
    exists k :: k in rows && EmailOwner(rows, email, k)
  }

  /** The 500 answers of the handlers, keyed `msg`. */
  function Failure(text: string): Response
  {
    Reply(500, false, "msg", text)
  }

  // The fixed answers and message pieces of the handlers below.
  const GetCrash := Failure("Error al obtener usuario")
  const LoginCrash := Failure("Hable con el administrador")
  const CreateCrash := Failure("Error al crear usuario")
  const UpdateCrash := Failure("Error al actualizar usuario")
  const DeleteCrash := Failure("Error al eliminar usuario")
  const RenewCrash := Failure("Error al renovar token")
  const Updated := Reply(200, true, "mensaje", "Usuario actualizado correctamente")
  const NotAuthenticated := Reply(401, false, "msg", "Usuario no autenticado")
  const RenewNoUser := Reply(404, false, "msg", "Usuario no encontrado")
  const EmailHeld := "usuario con este email "

  class UsuariosTable {
    var rows: map<int, Usuario>
    var nextId: int

    /** Ids come from the SERIAL counter, and emails are unique. */
    predicate Valid()
      reads this
    {
      nextId >= 1 && (forall k :: k in rows ==> 1 <= k < nextId) && EmailsUnique(rows)
    }

    constructor ()
      ensures Valid() && rows == map[] && nextId == 1
    {
      rows := map[];
      nextId := 1;
    }

    /** `usuarioId` for the path segment `param`: the row itself is the answer. */
    method UsuarioId(param: string) returns (res: Response)
      ensures PathId(param).None? ==> res == GetCrash
      ensures PathId(param).Some? && PathId(param).value !in rows ==>
                res == Notice(Num(PathId(param).value), "usuario con id " + IntToString(PathId(param).value) + " no se encuentra")
      ensures PathId(param).Some? && PathId(param).value in rows ==>
                res == Response(200, UserObject(PathId(param).value, rows[PathId(param).value]))
    {
      var id := PathId(param);
      if id.None? {
        // a NaN or out-of-range id makes the query throw
        return GetCrash;
      }
      var n := id.value;
      if n !in rows {
        return Notice(Num(n), "usuario con id " + IntToString(n) + " no se encuentra");
      }
      return Response(200, UserObject(n, rows[n]));
    }

    /** `login`: an unknown email is a 404, a password bcrypt rejects a 401;
        otherwise the row and a token issued for its id. */
    method Login(crypto: Crypto, auth: Auth, body: Body) returns (res: Response)
      requires Valid()
      ensures !EmailTaken(rows, Get(body, "email")) ==>
                res == Response(404, With(map["ok" := JBool(false),
                  "msg" := JStr("usuario con email " + ToJsString(Get(body, "email")) + " no se encuentra")], "email", Get(body, "email")))
      ensures forall k :: EmailOwner(rows, Get(body, "email"), k) ==>
                var password := Get(body, "password");
                var stored := rows[k].password;
                if !password.Str? || !stored.Str? then res == LoginCrash
                else if !crypto.compare(password.s, stored.s) then
                  res == Response(401, With(map["ok" := JBool(false), "msg" := JStr("la contraseña no es válida")], "email", Get(body, "email")))
                else if Generar(auth, k).None? then res == LoginCrash
                else res == Response(200, map["ok" := JBool(true), "usuario" := JObj(UserObject(k, rows[k])),
                                              "token" := JStr(Generar(auth, k).value)])
    {
      var email := Get(body, "email");
      var password := Get(body, "password");
      if !EmailTaken(rows, email) {
        return Response(404, With(map["ok" := JBool(false),
          "msg" := JStr("usuario con email " + ToJsString(email) + " no se encuentra")], "email", email));
      }
      var k :| EmailOwner(rows, email, k);
      forall j | EmailOwner(rows, email, j) ensures j == k {
        OwnerUnique(rows, email, j, k);
      }
      var stored := rows[k].password;
      if !password.Str? || !stored.Str? {
        // compareSync throws on anything but strings
        return LoginCrash;
      }
      if !crypto.compare(password.s, stored.s) {
        return Response(401, With(map["ok" := JBool(false), "msg" := JStr("la contraseña no es válida")], "email", email));
      }
      var token := Generar(auth, k);
      if token.None? {
        return LoginCrash;
      }
      res := Response(200, map["ok" := JBool(true), "usuario" := JObj(UserObject(k, rows[k])), "token" := JStr(token.value)]);
    }

    /** `createUsuario`: refuses an email some row already holds; otherwise
        stores the hash of the password (never the password), `type`
        defaulting to 'user', and answers with the new user, `online` false,
        and a token. The insert stands even when the answer is a 500 because
        the email was NULL (the read-back finds no row) or no token could be
        signed. */
    method CreateUsuario(crypto: Crypto, auth: Auth, body: Body) returns (res: Response)
      requires Valid()
      modifies this
      ensures Valid()
      ensures EmailTaken(old(rows), Get(body, "email")) ==>
                res == Response(400, With(map["ok" := JBool(false),
                  "msg" := JStr("Usuario con email: " + ToJsString(Get(body, "email")) + " ya existe no se puede insertar")],
                  "email", Get(body, "email"))) &&
                rows == old(rows) && nextId == old(nextId)
      ensures !EmailTaken(old(rows), Get(body, "email")) && !Get(body, "password").Str? ==>
                res == CreateCrash && rows == old(rows) && nextId == old(nextId)
      ensures !EmailTaken(old(rows), Get(body, "email")) && Get(body, "password").Str? ==>
                var u := Usuario(Get(body, "name"), Get(body, "email"), Str(crypto.hash(Get(body, "password").s)), Bool(false),
                                 DefaultIfUndefined(Get(body, "type"), Str("user")), Get(body, "codigo_empleado"));
                old(nextId) !in old(rows) && nextId == old(nextId) + 1 &&
                rows == old(rows)[old(nextId) := u.(name := Col(u.name), email := Col(u.email), codigoEmpleado := Col(u.codigoEmpleado))] &&
                (if IsNullish(u.email) || Generar(auth, old(nextId)).None? then res == CreateCrash
                 else res == Response(200, map["ok" := JBool(true), "usuario" := JObj(UserObject(old(nextId), u)),
                                               "token" := JStr(Generar(auth, old(nextId)).value)]))
    {
      var name := Get(body, "name");
      var email := Get(body, "email");
      var password := Get(body, "password");
      var userType := DefaultIfUndefined(Get(body, "type"), Str("user"));
      var codigo := Get(body, "codigo_empleado");
      if EmailTaken(rows, email) {
        return Response(400, With(map["ok" := JBool(false),
          "msg" := JStr("Usuario con email: " + ToJsString(email) + " ya existe no se puede insertar")], "email", email));
      }
      if !password.Str? {
        // hashSync throws on anything but a string
        return CreateCrash;
      }
      var hashed := Str(crypto.hash(password.s));
      var id := nextId;
      var row := Usuario(Col(name), Col(email), hashed, Bool(false), Col(userType), Col(codigo));
      FreshEmailKeepsUnique(rows, id, row);
      rows := rows[id := row];
      nextId := nextId + 1;
      if IsNullish(email) {
        // `WHERE email = NULL` reads nothing back, and `rows[0].id` throws
        return CreateCrash;
      }
      InsertedOwner(old(rows), id, row, rows);
      var token := Generar(auth, id);
      if token.None? {
        return CreateCrash;
      }
      var user := Usuario(name, email, hashed, Bool(false), userType, codigo);
      res := Response(200, map["ok" := JBool(true), "usuario" := JObj(UserObject(id, user)), "token" := JStr(token.value)]);
    }

    /** `updateUsuario` for the path segment `param` (no token check): a
        missing id, and an email another row holds, are answered with status
        200 and no `ok`; otherwise name, email, hashed password, type and
        employee code are overwritten. */
    method UpdateUsuario(param: string, crypto: Crypto, body: Body) returns (res: Response)
      requires Valid()
      modifies this
      ensures Valid() && nextId == old(nextId)
      ensures PathId(param).None? ==> res == UpdateCrash && rows == old(rows)
      ensures PathId(param).Some? && PathId(param).value !in old(rows) ==>
                res == Notice(Num(PathId(param).value), "usuario con id " + IntToString(PathId(param).value) + " no existe") &&
                rows == old(rows)
      ensures PathId(param).Some? && PathId(param).value in old(rows) ==>
                var n := PathId(param).value;
                var email := Get(body, "email");
                (forall j :: EmailOwner(old(rows), email, j) && j != n ==>
                   res == Notice(Num(n), EmailHeld + ToJsString(email) + " ya existe con id: " + IntToString(j)) &&
                   rows == old(rows)) &&
                ((forall j :: EmailOwner(old(rows), email, j) ==> j == n) ==>
                   if !Get(body, "password").Str? then res == UpdateCrash && rows == old(rows)
                   else
                     rows == old(rows)[n := old(rows)[n].(name := Col(Get(body, "name")), email := Col(email),
                                                          password := Str(crypto.hash(Get(body, "password").s)),
                                                          userType := Col(Get(body, "type")),
                                                          codigoEmpleado := Col(Get(body, "codigo_empleado")))] &&
                     res == Updated)
    {
      var id := PathId(param);
      var name := Get(body, "name");
      var email := Get(body, "email");
      var password := Get(body, "password");
      var userType := Get(body, "type");
      var codigo := Get(body, "codigo_empleado");
      if id.None? {
        // a NaN or out-of-range id makes the query throw
        return UpdateCrash;
      }
      var n := id.value;
      if n !in rows {
        return Notice(Num(n), "usuario con id " + IntToString(n) + " no existe");
      }
      if exists j :: j in rows && EmailOwner(rows, email, j) && j != n {
        var j :| EmailOwner(rows, email, j) && j != n;
        forall i | EmailOwner(rows, email, i) && i != n ensures i == j {
          OwnerUnique(rows, email, i, j);
        }
        return Notice(Num(n), EmailHeld + ToJsString(email) + " ya existe con id: " + IntToString(j));
      }
      if !password.Str? {
        // hashSync throws on anything but a string
        return UpdateCrash;
      }
      var row := rows[n].(name := Col(name), email := Col(email), password := Str(crypto.hash(password.s)),
                          userType := Col(userType), codigoEmpleado := Col(codigo));
      FreshEmailKeepsUnique(rows, n, row);
      rows := rows[n := row];
      res := Updated;
    }

    /** `deleteUsuario` for the path segment `param`: a missing id is
        answered with status 200 and no `ok`; otherwise the row goes and
        the others stay. */
    method DeleteUsuario(param: string) returns (res: Response)
      requires Valid()
      modifies this
      ensures Valid() && nextId == old(nextId)
      ensures PathId(param).None? ==> res == DeleteCrash && rows == old(rows)
      ensures PathId(param).Some? && PathId(param).value !in old(rows) ==>
                res == Notice(Num(PathId(param).value), "usuario con id " + IntToString(PathId(param).value) + " no se encuentra") &&
                rows == old(rows)
      ensures PathId(param).Some? && PathId(param).value in old(rows) ==>
                rows == old(rows) - {PathId(param).value} &&
                res == Reply(200, true, "mensaje", "Usuario " + IntToString(PathId(param).value) + " eliminado satisfactoriamente")
    {
      var id := PathId(param);
      if id.None? {
        // a NaN or out-of-range id makes the query throw
        return DeleteCrash;
      }
      var n := id.value;
      if n !in rows {
        return Notice(Num(n), "usuario con id " + IntToString(n) + " no se encuentra");
      }
      rows := rows - {n};
      res := Reply(200, true, "mensaje", "Usuario " + IntToString(n) + " eliminado satisfactoriamente");
    }

    /** `renewToken`: `reqId` is what the gate stored in `req.id`. A falsy
        id is a 401; the token is signed before the row is read. */
    method RenewToken(reqId: Option<int>, auth: Auth) returns (res: Response)
      ensures reqId.None? || reqId.value == 0 ==> res == NotAuthenticated
      ensures reqId.Some? && reqId.value != 0 && Generar(auth, reqId.value).None? ==> res == RenewCrash
      ensures reqId.Some? && reqId.value != 0 && Generar(auth, reqId.value).Some? && reqId.value !in rows ==>
                res == RenewNoUser
      ensures reqId.Some? && reqId.value != 0 && Generar(auth, reqId.value).Some? && reqId.value in rows ==>
                res == Response(200, map["ok" := JBool(true), "usuario" := JObj(UserObject(reqId.value, rows[reqId.value])),
                                         "token" := JStr(Generar(auth, reqId.value).value)])
    {
      if reqId.None? || reqId.value == 0 {
        return NotAuthenticated;
      }
      var id := reqId.value;
      var token := Generar(auth, id);
      if token.None? {
        return RenewCrash;
      }
      if id !in rows {
        return RenewNoUser;
      }
      res := Response(200, map["ok" := JBool(true), "usuario" := JObj(UserObject(id, rows[id])), "token" := JStr(token.value)]);
    }
  }
}
