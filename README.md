# Gatehouse access-control API — a Dafny model

This project models the server core of a gatehouse access-control API. The
service records:

- vehicles entering a warehouse (`entradas_vehiculos`);
- visitors from outside companies (`empresas_exteriores`);
- employees leaving the premises (`salidas_empleados`);
- turnstile passages (`salidas_tornos`);

and keeps the operators who use it (`users`).

The model covers:

- the date validator and the `validarJWT` gate that sit in front of the handlers;
- the `Externa` request adapter;
- the five controllers;
- the error handlers and the CORS origin list;
- the five route tables that put the pieces together.

Each table is a map from SERIAL id to row, held by a class whose methods are
the handlers. A handler changes the map exactly as its INSERT, UPDATE or
DELETE would, and returns the HTTP status and JSON body it sends. The one
exception is `setEntrada`: as written it stores its row and then answers 500
(see "## Findings"). The model keeps that behaviour as
`SetEntradaAsWritten`, beside the intended `SetEntrada`. A search
handler returns the SQL it would run: the literal pieces in order and the
parameter list. The model proves that these are numbered `$1..$n`
consecutively.

JavaScript values are modelled explicitly: `undefined`, `null`, strings,
integers and booleans, with truthiness, `||`, `parseInt` and string
interpolation. Time is abstract. A date string maps to an instant (or to
NaN), and "now" is a parameter. JWT signing and verification, and bcrypt,
are oracles passed in as functions. The `Js` module stands for the
JavaScript runtime the controllers call: `parseInt`, `trim`, `String(v)`,
truthiness and `||`. Its lemmas (`TrimStartShape`, `ParseIntOfIntToString`
and the like) are about that runtime, not about this program's own code.

Files and modules:

- `js.dfy` (Js), `http.dfy` (Http), `store.dfy` (Store), `query.dfy` (Query) and `jwt.dfy` (Jwt): the shared vocabulary.
- `guards.dfy` (Guards): the token check and the search-filter steps the controllers share.
- `validate_date.dfy` (ValidateDate), `validar_jwt.dfy` (ValidarJwt) and `error_handler.dfy` (ErrorHandler): the middlewares.
- `security.dfy` (Security): `parseOrigins` and the CORS origin decision.
- `externa.dfy` (ExternaModel): `Externa.fromRequest`.
- `entradas.dfy`, `externas.dfy`, `internas.dfy`, `tornos.dfy` and `usuarios.dfy`: the controllers.
- `router.dfy` (Router): first-match dispatch and the middleware chain.
- `routes.dfy` (RouteTables): the five registration tables.

Where the code and its documentation disagree, the model follows the code:

- `updateTorno` makes no check on the order of the two times. Only `setTorno` does.
- `updatePorteriaInterna` writes the body's `fechaEntrada` into the `fecha_salida` column.
- `updatePorteriaExterna` verifies the token but never refuses one.
- `PUT /api/internas/buscar_interna` validates `fechaSalida` and `fechaSalida2`, while `consultaInterna` reads `fecha_entrada` and `fecha_entrada2`.

## Model

| member | source | states |
|---|---|---|
| ValidateDate.ParseAndValidateDate | app/src/middelwares/validate-date.ts:3-30 | a falsy value gives null; an accepted value is a string matching the ISO pattern whose instant exists and is not after now; every such string is accepted with its instant |
| ValidateDate.SuffixNeedsTime | app/src/middelwares/validate-date.ts:10 | a fraction or zone is only accepted after a full `HH:MM:SS` time part |
| ValidateDate.PatternAcceptsPlainDate | app/src/middelwares/validate-date.ts:10 | `2025-01-15` matches the pattern |
| ValidateDate.PatternAcceptsFraction | app/src/middelwares/validate-date.ts:10 | `2025-01-15T10:30:00.123Z` matches the pattern |
| ValidateDate.PatternAcceptsOffset | app/src/middelwares/validate-date.ts:10 | a space separator and a `+02:00` offset match the pattern |
| ValidateDate.PieceShapes | app/src/middelwares/validate-date.ts:10 | the date, clock and zone pieces of the pattern accept their textbook examples |
| ValidateDate.FractionTail | app/src/middelwares/validate-date.ts:10 | `.123Z` is an accepted fraction and zone tail |
| ValidateDate.PatternRejectsSlashes | app/src/middelwares/validate-date.ts:10-14 | `05/01/2025` is refused |
| ValidateDate.PatternRejectsPartialTime | app/src/middelwares/validate-date.ts:10-14 | a zone straight after the date, and a time without seconds, are refused |
| ValidateDate.OnlyStringsMatch | app/src/middelwares/validate-date.ts:10-12 | only a string value can match the pattern |
| ValidateDate.InvalidCalendarDate | app/src/middelwares/validate-date.ts:16-21 | `2025-13-01` matches the pattern but is rejected when the date parser gives NaN |
| ValidateDate.FutureDate | app/src/middelwares/validate-date.ts:23-27 | a date after now is rejected |
| ValidateDate.FirstInvalidIsFirst | app/src/middelwares/validate-date.ts:34-45 | the reported field is the earliest bad one in list order; none is reported exactly when no listed field is bad |
| ValidateDate.FirstInvalidAt | app/src/middelwares/validate-date.ts:34-45 | a bad field preceded only by good ones is the one reported |
| ValidateDate.AbsentFieldsPass | app/src/middelwares/validate-date.ts:35 | absent or falsy fields are skipped, so a body without them passes |
| ValidateDate.ValidateDateMiddleware | app/src/middelwares/validate-date.ts:32-48 | the loop answers 400 naming the first bad field and does not call `next()`; with no bad field it calls `next()` exactly once; `req.id` is untouched |
| ValidarJwt.Gate | app/src/middelwares/validar-jwt.ts:11-42 | no token gives 400 'No hay token'; no key gives 500; a token that does not verify gives 401; otherwise it passes with the decoded id; each iff |
| ValidarJwt.GateAgreesWithComprobar | app/src/middelwares/validar-jwt.ts:23-35 | for every token, the empty one included, the gate and `comprobarJWT` accept the same tokens and read the same id |
| ValidarJwt.ValidarJwt | app/src/middelwares/validar-jwt.ts:11-42 | on success sets `req.id` and calls `next()` once; otherwise sends the gate's answer and leaves `req.id` and `next()` alone |
| Jwt.Comprobar | app/src/helpers/jwt.ts:27-39 | valid iff a key is set, the token is not empty (`jsonwebtoken` throws 'jwt must be provided') and it verifies; the id is the verified one, or none |
| Jwt.Generar | app/src/helpers/jwt.ts:4-25 | without a key no token is issued; with one the token is what signing the id gives, and none when signing fails or gives an empty token |
| ErrorHandler.NotFound | app/src/middelwares/error-handler.ts:4-6 | always 404 `{ok:false, mensaje:'Ruta no encontrada'}` |
| ErrorHandler.StatusOf | app/src/middelwares/error-handler.ts:9 | an error's own non-zero status wins; otherwise 403 for the CORS message, else 500 |
| ErrorHandler.GlobalErrorHandler | app/src/middelwares/error-handler.ts:8-19 | nothing is written once headers are sent; otherwise the status is `StatusOf`; the body is `{ok:false, mensaje}`, with the CORS text iff the status is 403 |
| ErrorHandler.StatusPrecedence | app/src/middelwares/error-handler.ts:9 | an explicit 418 beats the CORS message; without a status the CORS message gives 403; a status of 0 and a thrown `undefined` fall back to 500 |
| Security.Split | app/src/config/security.ts:11 | `split(',')` gives at least one piece and no piece holds a comma |
| Security.JoinSplit | app/src/config/security.ts:11 | joining the pieces with commas gives back the string |
| Security.SplitJoin | app/src/config/security.ts:11 | splitting comma-free pieces joined with commas gives back the pieces |
| Security.SplitPiece | app/src/config/security.ts:11 | a comma-free string splits into itself alone |
| Security.SplitPieceThenComma | app/src/config/security.ts:11 | a comma-free piece followed by a comma splits off as the first element |
| Security.TrimEach | app/src/config/security.ts:12 | every piece is trimmed, in place |
| Security.NonEmpty | app/src/config/security.ts:13 | `filter(Boolean)`: a string is in the result exactly when it is non-empty and in the input |
| Security.NonEmptyAppend | app/src/config/security.ts:13 | the filter keeps input order: filtering a concatenation concatenates the filtered parts |
| Security.NonEmptyKeeps | app/src/config/security.ts:13 | a list without empty strings passes the filter unchanged |
| Security.NoCommaAfterTrim | app/src/config/security.ts:12 | trimming a comma-free piece leaves it comma-free |
| Security.ParseOrigins | app/src/config/security.ts:8-14 | unset or empty gives `[]`; every entry is comma-free, and a string is an entry exactly when it is a non-empty trimmed piece of the value |
| Security.ParseOriginsFirst | app/src/config/security.ts:8-14 | entries keep the order of the value: the trimmed piece before the first comma, when not blank, comes before the entries of the rest |
| Security.EntriesAreTrimmed | app/src/config/security.ts:8-14 | every entry is its own trim and not blank |
| Security.OriginsRoundTrip | app/src/config/security.ts:8-14 | trimmed non-empty origins written with commas are read back as written, in order |
| Security.CheckOrigin | app/src/config/security.ts:16-35 | a request passes iff no origins are configured, the origin is missing or empty, or it is listed; otherwise it gets the 403 CORS error |
| Security.RejectedOriginAnswer | app/src/config/security.ts:28-30 | a rejected origin reaches the error handler as 403 'CORS no permitido para este origen.' |
| ExternaModel.FromRequest | app/src/models/externa.ts:44-59 | each property is the first truthy of its snake_case and camelCase keys, or its default (id 0, empty texts, `recepcion` false, `usuario` 0); for `telefono_persona` the snake_case key wins, then the camelCase one, then `''` |
| ExternaModel.OtherKeysIgnored | app/src/models/externa.ts:44-59 | keys the adapter does not read do not change its result |
| ExternaModel.NoExitDateAliases | app/src/models/externa.ts:54 | `fecha_salida` and `fechaEntrada2` are not read as the exit time |
| ExternaModel.EmptyBodyDefaults | app/src/models/externa.ts:44-59 | an empty body gives exactly the defaults |
| ExternaModel.FalsyFallsThrough | app/src/models/externa.ts:47-52 | an empty `nombre_persona` falls through to `nombrePersona`; a falsy `recepcion` becomes false |
| Store.KeyText | app/src/controladores/externas.ts:218 | an accepted text holds a decimal digit and only digits, signs and white space; a blank text is never accepted |
| Store.KeyTextOfPadded | app/src/controladores/externas.ts:218 | white space around a number text does not change the key it denotes |
| Store.KeyOfPadded | app/src/controladores/externas.ts:218 | a printed id with white space around it (`" 7 "`) selects the same row as the number, and throws outside the range of `integer` |
| Store.SignedDigitsOfInt | app/src/controladores/externas.ts:218 | a printed integer reads back as itself |
| Store.KeyOf | app/src/controladores/externas.ts:218 | `WHERE id = $1`: a null or undefined id finds no row; a number selects its row when it lies in the range of `integer` and makes the query throw otherwise; a selected key is always in that range |
| Store.PathId | app/src/controladores/entradas.ts:196-204 | the id `parseInt` makes of a path segment reaches `WHERE id = $1` exactly when it is a number in the range of `integer`; NaN or any other number makes the query throw |
| Store.PathIdOfPrinted | app/src/controladores/entradas.ts:196-204 | an id printed into a path is read back as itself when it lies in `integer`, and makes the query throw otherwise |
| Store.KeyOfPrintedId | app/src/controladores/externas.ts:218 | a decimal id text has the same effect as the number: its row inside the range of `integer`, a thrown query outside it |
| Store.KeyOfWord | app/src/controladores/externas.ts:218 | a non-numeric text makes the query throw |
| Store.Col | app/src/controladores/externas.ts:229-230 | an undefined parameter reaches the column as NULL, null stays NULL, and any other value is stored unchanged |
| Guards.CheckToken | app/src/controladores/entradas.ts:229-248 | empty token gives 401 'Token no proporcionado'; a rejected token gives 401 'Token inválido'; otherwise the caller is the token's non-zero id |
| Guards.BlankTest | app/src/controladores/entradas.ts:95 | blank iff falsy or all white space; a truthy non-string is flagged because `.trim()` throws on it; filled gives the trimmed text |
| Guards.PatternOf | app/src/controladores/entradas.ts:97 | a filled filter contributes exactly one `%text%` parameter |
| Guards.ClauseTexts | app/src/controladores/entradas.ts:110-112 | a filter adds at most its clause and its closing text |
| Guards.AddFilter | app/src/controladores/entradas.ts:95-112 | one optional filter keeps the `$n` numbering, adds exactly its pattern parameter and clause text, and puts the placeholder right after its own clause |
| Guards.AddParam | app/src/controladores/tornos.ts:266-267 | `query += clause + '$' + (paramIndex++)` with a push keeps the numbering, appends the value, and appends the clause immediately followed by its own placeholder |
| Entradas.OpenEntriesStayListed | app/src/controladores/entradas.ts:26-55 | a vehicle that has not left stays on the list however old its entry |
| Entradas.ClosedEntriesExpire | app/src/controladores/entradas.ts:33 | a vehicle that left drops off once its entry is more than twelve hours old |
| Entradas.SelectFilters | app/src/controladores/entradas.ts:95-113 | the four optional filters in order: the parameters are the patterns of the filled ones; the texts match |
| Entradas.SelectQuery | app/src/controladores/entradas.ts:95-119 | the whole query is numbered, with the patterns, both dates, limit and offset as parameters, in order |
| Entradas.GetEntradasSelect | app/src/controladores/entradas.ts:63-136 | a blank start date gives 400; a truthy non-string throws (500); otherwise the query is built from the trimmed filters |
| Entradas.EntradasTable.GetEntradas | app/src/controladores/entradas.ts:26-55 | lists exactly the rows that came in during the last twelve hours or have not left, so every open entry is listed |
| Entradas.EntradasTable.GetEntrada | app/src/controladores/entradas.ts:194-221 | a NaN id or one outside `integer` gives 500; a missing row gives status 200 `{id, mensaje}` without `ok`; otherwise `{ok:true, entrada}` with that row |
| Entradas.EntradasTable.SetEntrada | app/src/controladores/entradas.ts:229-298 | as intended (see Findings): token refusals (401) and a missing required field (400) leave the table unchanged; otherwise exactly one row is added at the next id, and the answer carries a row with the sent signature and entry time |
| Entradas.EntradasTable.SetEntradaAsWritten | app/src/controladores/entradas.ts:229-298 | as written: token refusals (401) and a missing required field (400) leave the table unchanged; every other request adds exactly one row at the next id and is answered 500 'Error al crear la entrada' |
| Entradas.SetEntradaCrashExample | app/src/controladores/entradas.ts:267-298 | a complete request with a valid token stores one row and still gets the 500 answer |
| Entradas.EntradasTable.UpdateRecepcionEntrada | app/src/controladores/entradas.ts:306-360 | token refusals; a missing `id` or `recepcion` gives 400; a non-numeric id 500; an unknown id 404; otherwise only that row's `recepcion` and `usuario` change, whatever its other flags |
| Entradas.EntradasTable.UpdatePorteriaEntrada | app/src/controladores/entradas.ts:368-422 | as above with `vigilancia` and `fecha`: only that row's `vigilancia`, `fecha_salida` and `usuario` change |
| Entradas.EntradasTable.DeleteEntrada | app/src/controladores/entradas.ts:430-469 | a NaN id gives 400; an id outside `integer` gives 500; an unknown id 404; otherwise exactly that row is removed and the answer carries its pre-delete contents |
| Entradas.EntradasTable.UpdateEntradas | app/src/controladores/entradas.ts:477-527 | token refusals; a NaN id or one outside `integer` gives 500; an unknown id gives status 200 `{id, mensaje}` without `ok`; otherwise the six data columns (a missing one becomes NULL) and `usuario` of that row only are overwritten |
| Entradas.EntradasTable.GetEntradaByMatricula | app/src/controladores/entradas.ts:529-566 | the plate is compared after `toUpperCase()` (a parameter); with no matching row the answer is 404; otherwise the vehicle's latest entry, the matching row `ORDER BY fecha_entrada DESC LIMIT 1` lists first: one with a NULL `fecha_entrada` if any, else none is later than it |
| Entradas.FirstListed | app/src/controladores/entradas.ts:539-542 | any non-empty set of rows has one that `ORDER BY fecha_entrada DESC` (NULLs first) lists ahead of all the others |
| Externas.Overwrite | app/src/controladores/externas.ts:418-450 | the update keeps the row's signature and records the caller as author |
| Externas.UpdateClearsReception | app/src/controladores/externas.ts:418-450 | an update whose body has no truthy `recepcion` clears the flag |
| Externas.Stamper | app/src/controladores/externas.ts:196-230 | the author recorded is the verified token's id, or NULL when the token does not verify |
| Externas.SearchFilters | app/src/controladores/externas.ts:348-366 | the four optional filters in order, with the parameters and texts they add |
| Externas.SearchQuery | app/src/controladores/externas.ts:348-372 | the whole query is numbered; its parameter count is the filled filters plus four |
| Externas.BuscarExterna | app/src/controladores/externas.ts:325-389 | a blank start gives 400; a truthy non-string filter throws; otherwise the query from the adapted body |
| Externas.SearchDefaults | app/src/controladores/externas.ts:325-346 | an empty body is refused for want of a start date |
| Externas.ExternasTable.GetExternaPorteria | app/src/controladores/externas.ts:54-72 | exactly the visitors not yet received |
| Externas.ExternasTable.GetExternasHoy | app/src/controladores/externas.ts:24-46 | exactly the visitors whose entry falls on today |
| Externas.ExternasTable.GetExterna | app/src/controladores/externas.ts:80-108 | a NaN id or one outside `integer` gives 500; a missing row gives status 200 `{id, mensaje}` without `ok`; otherwise `{ok:true, externa}` |
| Externas.ExternasTable.SetExterna | app/src/controladores/externas.ts:116-186 | token refusals (401) and an incomplete adapted body (400) leave the table unchanged; otherwise one row at the next id with the caller as author, answered 201 `{ok:true, externa: id}` |
| Externas.ExternasTable.UpdatePorteriaExterna | app/src/controladores/externas.ts:194-263 | never refuses on the token; a falsy id or a nullish `recepcion` gives 400; an unknown id 404; otherwise only the row's `recepcion`, `fecha_salida` and author change and the answer carries the row as it is afterwards |
| Externas.ExternasTable.DeleteExterna | app/src/controladores/externas.ts:271-317 | token refusals; a NaN id or one outside `integer` gives 500; an unknown id gives status 200 `{id, mensaje}` without `ok`; otherwise exactly that row is removed |
| Externas.ExternasTable.UpdateExternas | app/src/controladores/externas.ts:397-466 | token refusals; a NaN id or one outside `integer` gives 500; an unknown id gives 404 with `ok:false`; otherwise that row only is overwritten from the adapted body |
| Internas.NewSalida | app/src/controladores/internas.ts:127-180 | the inserted exit has no entry time, the caller as author, the body's code, name and exit time, and the body's reason or NULL when absent |
| Internas.RevisedTimes | app/src/controladores/internas.ts:391-415 | after an update a truthy time in the body is stored as given, and a present falsy one is never stored as an empty string |
| Internas.SearchFilters | app/src/controladores/internas.ts:310-325 | the three optional filters in order, with the parameters and texts they add |
| Internas.SearchQuery | app/src/controladores/internas.ts:310-330 | the whole query is numbered, with the patterns, both times, limit and offset |
| Internas.ConsultaInterna | app/src/controladores/internas.ts:298-365 | a blank start gives 400; a truthy non-string filter gives 500; otherwise the query |
| Internas.GetInternaCode | app/src/controladores/internas.ts:93-119 | with no user holding the code the answer is 400 echoing `codigo_empleado`; otherwise 200 `{usuario}` with a user holding it and no `ok` |
| Internas.UndefinedCodeRefused | app/src/controladores/internas.ts:93-119 | an undefined code matches no user, and the 400 then has no `codigo_empleado` key |
| Internas.InternasTable.GetInternasHoy | app/src/controladores/internas.ts:25-49 | exactly the exits that fall on today |
| Internas.InternasTable.GetInterna | app/src/controladores/internas.ts:57-85 | a NaN id or one outside `integer` gives 500; a missing row gives `{id, mensaje}` without `ok`; otherwise `{ok:true, interna}` |
| Internas.InternasTable.SetInterna | app/src/controladores/internas.ts:127-180 | token refusals answer 401 under `msg`; a falsy code, name or exit time gives 400 `{ok:false, entrada}`; neither inserts; otherwise one row at the next id, and the id answered names a row with the sent code and exit time |
| Internas.InternasTable.UpdatePorteriaInterna | app/src/controladores/internas.ts:188-236 | token refusals under `msg`; an unknown id gives 404; otherwise the body's `fechaEntrada` is written into that row's `fecha_salida` with the caller as author, and nothing else changes |
| Internas.InternasTable.DeleteInterna | app/src/controladores/internas.ts:244-290 | token refusals under `msg`; a NaN id or one outside `integer` gives 500; an unknown id gives `{id, mensaje}` without `ok`; otherwise exactly that row is removed |
| Internas.InternasTable.UpdateInternas | app/src/controladores/internas.ts:373-429 | token refusals under `msg`; a NaN id or one outside `integer` gives 500; an unknown id gives 404 'No existe registro con id N'; otherwise that row only is revised, falsy times stored as NULL |
| Tornos.Author | app/src/controladores/tornos.ts:159-168 | an accepted token has a non-zero id, the one `comprobarJWT` read |
| Tornos.AcceptedRowWellFormed | app/src/controladores/tornos.ts:172-204 | a body that passes both 400 checks gives a row with a code, at least one time, and an entry not after its exit |
| Tornos.AssignedMatchesStatement | app/src/controladores/tornos.ts:261-279 | a column the `SET` list does not name keeps its value; a named one takes the parameter sent for it; the author is the second-to-last parameter |
| Tornos.SetColumn | app/src/controladores/tornos.ts:265-276 | one optional `column = $k, ` keeps the numbering and adds its value, and the column text with its placeholder right after it, only when present |
| Tornos.UpdateStatement | app/src/controladores/tornos.ts:261-279 | the `UPDATE` is numbered; its parameters are the given columns, then the author and the id; its texts name exactly those columns |
| Tornos.CodeFilter | app/src/controladores/tornos.ts:361-364 | a truthy code adds one `%code%` parameter and the `ILIKE $k::VARCHAR` fragments in that order |
| Tornos.DateFilter | app/src/controladores/tornos.ts:366-376 | both bounds add four parameters, one bound two, none zero, with the matching texts, each placeholder right after its comparison |
| Tornos.OneBound | app/src/controladores/tornos.ts:370-375 | one bound is compared with the entry time and then the exit time, each followed by its placeholder |
| Tornos.BothBounds | app/src/controladores/tornos.ts:366-369 | both bounds give `BETWEEN $k AND $k+1` on the entry time, then on the exit time |
| Tornos.SearchQuery | app/src/controladores/tornos.ts:344-379 | the search is numbered: code, time bounds, limit and offset parameters, in that order |
| Tornos.ConsultaTorno | app/src/controladores/tornos.ts:339-396 | a start after the end gives 400, iff; otherwise the query, with limit 100 and offset 0 by default |
| Tornos.BothBoundsTwice | app/src/controladores/tornos.ts:366-369 | with both bounds the four date parameters are start, end, start, end: entry and exit time are tested against the same range |
| Tornos.HoyWindow | app/src/controladores/tornos.ts:26-35 | the two parameters span one day and share its date; without `date` the day is today |
| Tornos.GetTornoCode | app/src/controladores/tornos.ts:119-149 | with no user holding the code the answer is 404 naming the code; otherwise `{ok:true, usuario:{name}}` with only that user's name |
| Tornos.TornosTable.GetTorno | app/src/controladores/tornos.ts:77-111 | NaN id gives 400; an id outside `integer` passes that test and gives 500; a missing row gives 404; otherwise `{ok, torno: row}` |
| Tornos.TornosTable.SetTorno | app/src/controladores/tornos.ts:157-219 | the checks in order (token 401, missing data 400, entry after exit 400, unknown code 404); the table changes iff the answer is 201, and then by one well-formed row at the next id |
| Tornos.TornosTable.UpdateTorno | app/src/controladores/tornos.ts:227-295 | token 401, nothing to update 400, NaN or out-of-`integer` id 500, missing row 404; otherwise only the named row changes, as the built `UPDATE` says |
| Tornos.TornosTable.DeleteTorno | app/src/controladores/tornos.ts:303-331 | NaN or out-of-`integer` id gives 500; a missing row gives 404; otherwise exactly that row goes |
| Usuarios.OwnerUnique | app/src/controladores/usuarios.ts:140-160 | with unique emails, `WHERE email = $1` finds at most one row |
| Usuarios.FreshEmailKeepsUnique | app/src/controladores/usuarios.ts:140-186 | writing a row whose email no other row holds keeps emails unique |
| Usuarios.InsertedOwner | app/src/controladores/usuarios.ts:160-175 | after the insert, the new email leads to the new row and only to it |
| Usuarios.UsuariosTable.UsuarioId | app/src/controladores/usuarios.ts:49-72 | a NaN id or one outside `integer` gives 500; a missing row gives `{id, mensaje}` without `ok`; otherwise the user object itself |
| Usuarios.UsuariosTable.Login | app/src/controladores/usuarios.ts:80-132 | an unknown email gives 404 `{ok:false, email, msg}`; a password bcrypt rejects gives 401; otherwise `{ok:true, usuario, token}` with the token issued for the one row holding that email |
| Usuarios.UsuariosTable.CreateUsuario | app/src/controladores/usuarios.ts:140-186 | an email already held gives 400 and no change; otherwise the new row at the next id stores the hash (never the password), `type` defaults to 'user', `online` is false, and emails stay unique |
| Usuarios.UsuariosTable.UpdateUsuario | app/src/controladores/usuarios.ts:194-245 | an unknown id, or an email held by another id (named in the message), gives status 200 without `ok` and no change; otherwise name, email, hashed password, type and code of that row are overwritten, and emails stay unique |
| Usuarios.UsuariosTable.DeleteUsuario | app/src/controladores/usuarios.ts:253-283 | a NaN id or one outside `integer` gives 500; an unknown id gives `{id, mensaje}` without `ok`; otherwise exactly that row is removed |
| Usuarios.UsuariosTable.RenewToken | app/src/controladores/usuarios.ts:291-340 | a falsy `req.id` gives 401; a failed signing gives 500 whether or not the user exists; a missing user 404; otherwise `{ok:true, usuario, token}` |
| Router.FirstMatchFrom | app/src/routes/entradas.ts:40-327 | the registration chosen is the first at or after the start that fits; none fits when none is chosen |
| Router.FirstMatch | app/src/routes/entradas.ts:40-327 | the first fitting registration in order, and none iff no registration fits |
| Router.Bindings | app/src/routes/entradas.ts:91 | `req.params` binds only names that are `:name` segments of the pattern |
| Router.ErrorsEmptyIff | app/src/middelwares/validar-campos.ts:9-20 | `validarCampos` passes iff every check holds |
| Router.ErrorsKeys | app/src/middelwares/validar-campos.ts:15 | the reported errors name exactly the fields with a failing check |
| Router.ErrorsFirstMessage | app/src/middelwares/validar-campos.ts:15 | a field's entry is the message of its first failing check |
| Router.ChainReachedIffAllPass | app/src/routes/entradas.ts:155-159 | the handler is reached iff every middleware passes; otherwise the answer is the first failing one's; behind the gate the handler gets the token's id |
| Router.DispatchAllPass | app/src/routes/entradas.ts:155-159 | a request whose matched chain passes reaches that registration's handler with its path parameters |
| Router.GatedTableNeedsToken | app/src/middelwares/validar-jwt.ts:15-21 | in a table where every chain starts with the gate, no handler runs without an accepted token; without a token the answer is the gate's 400 |
| Router.HandledPassedChain | app/src/routes/tornos.ts:47-51 | a handler that runs had every middleware of its chain pass |
| RouteTables.EntradasNeedToken | app/src/routes/entradas.ts:40-327 | every entradas handler needs an accepted token; a request without one gets 400 'No hay token', never the controller's 401 |
| RouteTables.EntradasAlmacenFirst | app/src/routes/entradas.ts:54 | `GET /almacen` goes to its own handler, not `/:id` |
| RouteTables.EntradasPorteriaFirst | app/src/routes/entradas.ts:68 | `GET /porteria` goes to its own handler, not `/:id` |
| RouteTables.EntradasByMatricula | app/src/routes/entradas.ts:91 | `GET /by-matricula/x` goes to the plate lookup |
| RouteTables.EntradasIdPath | app/src/routes/entradas.ts:114 | any other single segment goes to `getEntrada` |
| RouteTables.EntradasDatesChecked | app/src/routes/entradas.ts:155-327 | the four date-checked handlers run only with valid dates in their listed fields |
| RouteTables.EntradasRecepcionRoute | app/src/routes/entradas.ts:184 | `PUT /recepcion` is matched by its own registration |
| RouteTables.RecepcionUnchecked | app/src/routes/entradas.ts:184 | `PUT /recepcion` runs with a valid token whatever the body holds |
| RouteTables.ExternasNeedToken | app/src/routes/externas.ts:52-230 | every externas handler needs an accepted token |
| RouteTables.ExternasPorteriaFirst | app/src/routes/externas.ts:125 | `PUT /porteria` wins over `PUT /:id` |
| RouteTables.ExternasBuscarFirst | app/src/routes/externas.ts:175-179 | `PUT /buscar_externa` wins over `PUT /:id` |
| RouteTables.ExternasIdPath | app/src/routes/externas.ts:210 | any other single segment goes to `updateExternas` |
| RouteTables.ExternasDeletePath | app/src/routes/externas.ts:145 | deletion lives at `/externa/:id`, and `DELETE /:id` matches nothing |
| RouteTables.ExternasDatesChecked | app/src/routes/externas.ts:52-210 | only `buscarExterna` checks dates; every other chain is the gate alone |
| RouteTables.InternasNeedToken | app/src/routes/internas.ts:51-233 | every internas handler needs an accepted token |
| RouteTables.InternasDatesChecked | app/src/routes/internas.ts:51-233 | the four date-checked handlers run only with valid dates in their listed fields |
| RouteTables.InternasBuscarRoute | app/src/routes/internas.ts:192-196 | `PUT /buscar_interna` wins over `PUT /:id` |
| RouteTables.BuscarInternaChecksOtherKeys | app/src/routes/internas.ts:192-196 | without `fechaSalida` and `fechaSalida2`, `consultaInterna` runs whatever its own `fecha_entrada` keys hold |
| RouteTables.TornosNeedToken | app/src/routes/tornos.ts:47-199 | every tornos handler needs an accepted token |
| RouteTables.TornosHoyFirst | app/src/routes/tornos.ts:65 | `GET /tornos_hoy` wins over `GET /:id` |
| RouteTables.TornosIdPath | app/src/routes/tornos.ts:85 | any other single segment goes to `getTorno` |
| RouteTables.TornosDatesChecked | app/src/routes/tornos.ts:47-199 | the three date-checked handlers run only with valid dates; `DELETE /:id` checks none |
| RouteTables.UsuariosGates | app/src/routes/usuarios.ts:37-281 | exactly login, sign-up and user update lack `validarJWT` |
| RouteTables.UsuariosUpdateRoute | app/src/routes/usuarios.ts:254-259 | `PUT /users/:id` is matched by its own registration |
| RouteTables.UpdateUsuarioWithoutToken | app/src/routes/usuarios.ts:254-259 | `PUT /users/:id` reaches `updateUsuario` with no token once its field checks pass |
| RouteTables.RenewGetsGateId | app/src/routes/usuarios.ts:210 | `renewToken` runs only behind the gate and gets the token's id |
| RouteTables.UsuariosLoginRoute | app/src/routes/usuarios.ts:122-126 | `POST /login` is matched by its own registration |
| RouteTables.LoginRejectsBadEmail | app/src/routes/usuarios.ts:122-126 | a login whose email fails `isEmail` gets 400 from `validarCampos`, with the email's message |

## Left out

- Date parsing, the server clock and time zones: a date string's instant is an abstract function, "now" is a parameter, and `getTornosHoy`'s `Date` objects are kept as the text they are built from.
- SQL semantics: `ILIKE`, `BETWEEN`, `ORDER BY`, `LIMIT`, `NOW()`, casts and joins. Queries are modelled as text and parameters; list handlers as the set of ids they select, without order or paging.
- Store failures: the catch-all 500 answers of a handler whose query throws for a reason other than a NaN id, an id outside `integer` or a non-numeric key. Examples are `setInterna`'s 'Error al crear interna' and `setTorno`'s 'Error inesperado al crear el registro.'.
- Concurrency: the gap between a handler's existence check and its write, and the connection pool. Each request is one atomic step.
- JWT signing and verification, and bcrypt hashing and comparison, are oracles. The bcrypt salt is not modelled.
- express-validator: whether a value is an email or non-empty is an oracle. Each error entry holds only its `msg`.
- Express path matching: literal segments are compared exactly, and a trailing slash is not tolerated. Case-insensitive matching and URL decoding are left out. Mount points (`app/src/index.ts`) are not modelled.
- `todosUsuarios` and `getExternaByNombreConductor`: plain listings whose answers depend only on SQL ordering and `ILIKE` semantics. Their routes are in the tables.
- `getEntradasAlmacen` and `getEntradasPorteria`: unconditional listings filtered on the `recepcion` and `vigilancia` flags and sorted by SQL. Their routes are in the tables.
- `getTornosHoy` is modelled by its parameter window only (`Tornos.HoyWindow`): the rows it returns depend on a `BETWEEN` on timestamps. Its 500 answer is a store failure.
- The `Externa` constructor only copies its arguments into fields, so the `Externa` datatype stands for it.
- `setEntrada` and `setInterna` read the new row back with a second query on its key columns (signature and entry time; employee code and exit time). The model promises only that the answer carries some row with those key values, which may be an older row with the same values rather than the one just inserted. `updatePorteriaExterna` answers with the row it updated. The database defaults for `recepcion`, `vigilancia` and `online` are taken to be false.
- Sockets, logging, Swagger, helmet, the rate limiter and the legacy `.js` files are not part of this model.
- Store.SameText: text equality stands for PostgreSQL's comparison after a parameter is cast to the column type.
- JSON values: `Val` holds only integer numbers, strings, booleans, `null` and `undefined`. Fractional numbers, arrays and objects in a request body are not modelled.
- Store.KeyText: follows PostgreSQL's classic integer input (white space, one sign, decimal digits). The `_` separators and `0x`/`0o`/`0b` prefixes accepted since PostgreSQL 16 are not modelled. The range of `integer` is checked by `Store.KeyOf` and `Store.PathId`.
- Entradas.EntradasTable.GetEntradaByMatricula: the runtime's full Unicode `toUpperCase` is a parameter; nothing is assumed about it. Among rows with the same entry instant, any one may be answered, as PostgreSQL leaves their order open. A non-NULL `fecha_entrada` without an instant cannot be stored in the `timestamp` column; the model orders such a value last.

## Findings

| source | as written | input that shows it | evidently intended | confidence | as-written member | corrected member |
|---|---|---|---|---|---|---|
| app/src/controladores/entradas.ts:6 | `const Entrada = require('../models/entrada')`, while `app/src/models/entrada.ts` has only ES exports, so `new Entrada(...)` at entradas.ts:276 throws after the INSERT and the catch answers 500 'Error al crear la entrada' with the row stored | `POST /api/entradas` with a valid token and all six required fields | the inserted row is answered with 200 `{ok: true, entrada}` | high; derived from the source text, not executed | Entradas.EntradasTable.SetEntradaAsWritten | Entradas.EntradasTable.SetEntrada |
