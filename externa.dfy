/** The `Externa` record of a visitor from an outside company, and
    `Externa.fromRequest`, which reads it from a request body accepting both
    the snake_case column names and the camelCase property names. */
module ExternaModel {
  import opened Js

  /** The eleven properties, in constructor order. `new Externa(...)` stores
      each argument in the property of the same name and does nothing else,
      which is what this datatype constructor does. */
  datatype Externa = Externa(
    id: Val,
    nombrePersona: Val,
    empresaExterior: Val,
    peticionario: Val,
    telefonoPersona: Val,
    firma: Val,
    recepcion: Val,
    fechaEntrada: Val,
    fechaSalida: Val,
    nota: Val,
    usuario: Val)

  /** `Externa.fromRequest(body)`: each property is the first truthy of its
      keys, or the default written after the last `||`. */
  function FromRequest(body: Body): (e: Externa)
    // the snake_case key wins when it is truthy, the camelCase one otherwise
    ensures Truthy(Get(body, "nombre_persona")) ==> e.nombrePersona == Get(body, "nombre_persona")
    ensures !Truthy(Get(body, "nombre_persona")) ==> e.nombrePersona == Get(body, "nombrePersona")
    ensures Truthy(Get(body, "empresa_exterior")) ==> e.empresaExterior == Get(body, "empresa_exterior")
    ensures !Truthy(Get(body, "empresa_exterior")) ==> e.empresaExterior == Get(body, "empresaExterior")
    ensures Truthy(Get(body, "fecha_entrada")) ==> e.fechaEntrada == Get(body, "fecha_entrada")
    ensures !Truthy(Get(body, "fecha_entrada")) ==> e.fechaEntrada == Get(body, "fechaEntrada")
    // the exit date comes from `fecha_entrada2`, then `fechaSalida`
    ensures Truthy(Get(body, "fecha_entrada2")) ==> e.fechaSalida == Get(body, "fecha_entrada2")
    ensures !Truthy(Get(body, "fecha_entrada2")) ==> e.fechaSalida == Get(body, "fechaSalida")
    // a telephone is the first truthy of two keys, else ''
    ensures e.telefonoPersona in {Get(body, "telefono_persona"), Get(body, "telefonoPersona"), Str("")}
    ensures Truthy(e.telefonoPersona) <==> Truthy(Get(body, "telefono_persona")) || Truthy(Get(body, "telefonoPersona"))
    // the snake_case key wins, then the camelCase one, then the empty string
    ensures Truthy(Get(body, "telefono_persona")) ==> e.telefonoPersona == Get(body, "telefono_persona")
    ensures !Truthy(Get(body, "telefono_persona")) && Truthy(Get(body, "telefonoPersona")) ==>
              e.telefonoPersona == Get(body, "telefonoPersona")
    ensures !Truthy(Get(body, "telefono_persona")) && !Truthy(Get(body, "telefonoPersona")) ==>
              e.telefonoPersona == Str("")
    // single-key properties: the value when truthy, else the default
    ensures e.peticionario == (if Truthy(Get(body, "peticionario")) then Get(body, "peticionario") else Str(""))
    ensures e.id == (if Truthy(Get(body, "id")) then Get(body, "id") else Num(0))
    ensures e.firma == (if Truthy(Get(body, "firma")) then Get(body, "firma") else Str(""))
    ensures e.recepcion == (if Truthy(Get(body, "recepcion")) then Get(body, "recepcion") else Bool(false))
    ensures e.nota == (if Truthy(Get(body, "nota")) then Get(body, "nota") else Str(""))
    ensures e.usuario == (if Truthy(Get(body, "usuario")) then Get(body, "usuario") else Num(0))
  {
    Externa(
      Or(Get(body, "id"), Num(0)),
      Or(Get(body, "nombre_persona"), Get(body, "nombrePersona")),
      Or(Get(body, "empresa_exterior"), Get(body, "empresaExterior")),
      Or(Get(body, "peticionario"), Str("")),
      Or(Or(Get(body, "telefono_persona"), Get(body, "telefonoPersona")), Str("")),
      Or(Get(body, "firma"), Str("")),
      Or(Get(body, "recepcion"), Bool(false)),
      Or(Get(body, "fecha_entrada"), Get(body, "fechaEntrada")),
      Or(Get(body, "fecha_entrada2"), Get(body, "fechaSalida")),
      Or(Get(body, "nota"), Str("")),
      Or(Get(body, "usuario"), Num(0)))
  }

  /** The keys the adapter reads; no other key of the body matters. */
  const Keys: set<string> := {"id", "nombre_persona", "nombrePersona", "empresa_exterior", "empresaExterior",
    "peticionario", "telefono_persona", "telefonoPersona", "firma", "recepcion", "fecha_entrada",
    "fechaEntrada", "fecha_entrada2", "fechaSalida", "nota", "usuario"}

  /** Setting a key the adapter does not read, such as `fecha_salida`,
      `fechaEntrada2` or `peticionarioNombre`, changes nothing. */
  lemma OtherKeysIgnored(body: Body, key: string, v: Val)
    requires key !in Keys
    ensures FromRequest(body[key := v]) == FromRequest(body)
  {
    var b := body[key := v];
    forall k | k in Keys ensures Get(b, k) == Get(body, k) {
    }
  }

  lemma NoExitDateAliases(body: Body, v: Val)
    ensures FromRequest(body["fecha_salida" := v]) == FromRequest(body)
    ensures FromRequest(body["fechaEntrada2" := v]) == FromRequest(body)
  {
    OtherKeysIgnored(body, "fecha_salida", v);
    OtherKeysIgnored(body, "fechaEntrada2", v);
  }

  /** An empty body gives the defaults: id 0, empty texts, `recepcion` false,
      `usuario` 0, and the aliased properties undefined. */
  lemma EmptyBodyDefaults()
    ensures FromRequest(map[]) ==
      Externa(Num(0), Undef, Undef, Str(""), Str(""), Str(""), Bool(false), Undef, Undef, Str(""), Num(0))
  {
  }

  /** Falsy values fall through: an empty `nombre_persona` yields the
      camelCase key, and a `recepcion` of `0` becomes `false`. */
  lemma FalsyFallsThrough(body: Body)
    requires Get(body, "nombre_persona") == Str("") && Get(body, "recepcion") == Num(0)
    ensures FromRequest(body).nombrePersona == Get(body, "nombrePersona")
    ensures FromRequest(body).recepcion == Bool(false)
  {
  }
}
