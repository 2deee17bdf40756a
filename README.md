# Turnero: a verified model of the ticket queue

This project models the core of a ticket ("turno") queue system in Dafny.

- **Backend** (`app.py`, Flask). A customer draws a numbered ticket for a service category (`sacar_turno`). Staff with an admin session start, complete or cancel tickets. The `/api/turnos_esperando` endpoint lists the waiting tickets. Users register, log in and log out.
- **React frontend.** Pure rules decide which action buttons a ticket row offers (`TurnoList`, `TurnoManager`). Other rules map a state to its badge and label (`helpers.ts`). The HTTP client attaches the bearer token and clears credentials on a 401 or on logout (`api.ts`).
- **Server-rendered pages' script** (`static/js/main.js`). It formats elapsed time as `M:SS`, filters table rows by a search box, and picks the auto-refresh interval.

Files:

- `wrappers.dfy` (module `Wrappers`): `Option`
- `estados.dfy` (module `Estados`): the four ticket states, their wire strings, the three actions and the moves the frontend offers
- `texto.dfy` (module `Texto`): decimal rendering of integers (Python f-strings, JS template literals) and its inverse
- `turnero.dfy` (module `Turnero`): `app.py`: tables, numbering, wait estimate, transitions, users, session, class `App` with one method per handler
- `helpers.dfy` (module `Helpers`): `frontend/src/utils/helpers.ts`
- `api.dfy` (module `Api`): `frontend/src/services/api.ts`: the `Turno` interface, the interceptors, `logout` (class `Navegador` holds `localStorage` and `location.href`)
- `turno_list.dfy` (module `TurnoList`): `frontend/src/components/turnos/TurnoList.tsx`
- `turno_manager.dfy` (module `TurnoManager`): `frontend/src/components/admin/TurnoManager.tsx`
- `main_js.dfy` (module `TurneroUtils`): `static/js/main.js`: `timeDifference`, the `data-search` handler, the `data-auto-refresh` default

## How the backend is modelled

- **Tables.** Each database table is a `seq` of rows in primary-key order. Nothing ever deletes a row, so a new row's id is the last id plus one, which is SQLite's rowid rule.
- **Session.** The Flask session is `Option<Sesion>`. `None` is the empty session that `logout` leaves behind.
- **Time.** Clocks are integer seconds. `sacar_turno` reads `datetime.now()` for the estimate and `datetime.utcnow()` for `fecha_creacion`, so the model takes both as separate parameters.
- **Password hashing.** `generate_password_hash` and `check_password_hash` are function parameters.
- **Handlers.** Each handler is a method of class `App` that changes only the table it writes. Its contract ties the new table to a pure function. The properties are proved as lemmas about those functions.

### Ticket states: what each side enforces

- **Frontend.** It offers only the moves waiting → in service → completed, and cancelling from either open state (frontend/src/components/turnos/TurnoList.tsx:51-70). These moves are `Estados.Sucesor`, and `TurnoList.Botones` proves the buttons follow them exactly.
- **Backend.** `iniciar_turno`, `completar_turno` and `cancelar_turno` check only the admin flag and that the ticket exists. They then overwrite `estado` without reading it (app.py:133-161). `TransicionDesdeCualquierEstado` and `AplicarIgnoraEstadoPrevio` state this: a completed or cancelled ticket can be started again.
- **Numbering.** A new ticket's `numero` is the category's highest number plus one, or 1 for the first (app.py:88-89). Nothing resets it, and `TransicionConservaNumeracion` shows transitions never move it.
- **Missing rows.** An unknown category or ticket id is a 404 (`get_or_404`, app.py:85 and 133).

The frontend calls `POST /api/iniciar_turno/<id>` (and likewise for completing and cancelling), plus `/api/turnos` and `/api/auth/...`. `app.py` exposes `GET /iniciar_turno/<id>` and no `/api/turnos` or `/api/auth` routes. Each side is modelled from its own code. Nothing in the model assumes that they match.

## Model

| member | source | states |
|---|---|---|
| `Estados.Desde` | frontend/src/services/api.ts:55 | only the four state strings are states, and each reads back to the string it came from |
| `Estados.DesdeNombre` | frontend/src/utils/constants.ts:3-8 | each state survives the trip to its string and back |
| `Estados.NombresDistintos` | app.py:47 | the four stored state strings are pairwise distinct |
| `Estados.TerminalSinSucesor` | frontend/src/components/turnos/TurnoList.tsx:51-70 | `completado` and `cancelado` are exactly the states from which the frontend offers no move |
| `Turnero.BuscarCategoria` | app.py:85 | `get_or_404`: returns a category with that id, or none exists |
| `Turnero.IndiceTurno` | app.py:133 | returns the position of the ticket with that id, or no ticket has it |
| `Turnero.BuscarUsuario` | app.py:175 | returns a user with that email, or none has it |
| `Turnero.CategoriasActivas` | app.py:78 | `index` lists exactly the active categories, each as often as in the table (once) |
| `Turnero.FiltrarEstado` | app.py:118-119 | `filter_by(estado=...)` returns exactly the tickets in that state, each as often as in the table (once) |
| `Turnero.InsertarPorFecha` | app.py:224 | inserting into a list sorted by `fecha_creacion` keeps it sorted and adds exactly that ticket |
| `Turnero.OrdenarPorFecha` | app.py:224 | `order_by(fecha_creacion)` gives a sorted permutation of its input |
| `Turnero.OrdenEsperaMiembros` | app.py:224 | the waiting-list query returns exactly the waiting tickets, no more and no fewer |
| `Turnero.Proyectar` | app.py:225-230 | one JSON entry per ticket in the same order: same id and number, the name of the ticket's category, and the ticket's own `hora_estimada` (null when unset) |
| `Turnero.MaxNumero` | app.py:88 | the highest number among the category's tickets, and none exactly when the category has no ticket |
| `Turnero.SiguienteNumero` | app.py:88-89 | a new number is 1 when the category has no tickets; otherwise it exceeds every number in the category and is one more than an existing number; other categories do not matter |
| `Turnero.CuentaEsperandoCardinal` | app.py:92 | the waiting count is the number of rows of that category in `esperando` |
| `Turnero.CuentaEsperando` | app.py:92 | the count is 0 exactly when no ticket of that category is waiting, and never exceeds the table size |
| `Turnero.NuevoTurno` | app.py:96-103 | the inserted row has a fresh id, and appending it keeps ids increasing and numbers increasing within each category |
| `Turnero.SiguienteIdTurno` | app.py:44 | a new primary key is positive and above every existing id |
| `Turnero.NuevoTurnoEstimacion` | app.py:92-100 | a new ticket is `esperando` with no start or end time, created at the UTC clock, with `hora_estimada` = now + (waiting tickets of the category before insertion) x `tiempo_estimado` minutes |
| `Turnero.SiguienteNumeroTrasSacar` | app.py:88-103 | drawing a ticket advances that category's counter by exactly one |
| `Turnero.SiguienteNumeroOtraCategoria` | app.py:88 | a ticket of another category does not move a category's counter |
| `Turnero.SiguienteNumeroMismosNumeros` | app.py:88-89 | the counter depends only on the categories and numbers already issued |
| `Turnero.Aplicar` | app.py:133-161 | iniciar sets `en_atencion` and `hora_inicio`; completar sets `completado` and `hora_fin`; cancelar sets `cancelado` and keeps both timestamps; id, number, category, creation and estimate are kept |
| `Turnero.AplicarIgnoraEstadoPrevio` | app.py:133-161 | the handlers never read the current state: two tickets differing only in `estado` end up identical |
| `Turnero.Transicion` | app.py:127-163 | without an admin session: 403 and no change; admin with an unknown id: 404 and no change; success exactly when admin and the id exists, and then only that row changes, and the message names its number |
| `Turnero.Mensaje` | app.py:138 | the reply is "Turno #", then the decimal `numero`, a space and the action's verb |
| `Turnero.MensajeInyectivo` | app.py:136-163 | two transition messages are equal exactly when the action and the ticket number are |
| `Turnero.TransicionDesdeCualquierEstado` | app.py:130-161 | an admin can start, complete or cancel any existing ticket in any state, including `completado` and `cancelado`; only that row changes |
| `Turnero.TransicionConservaNumeracion` | app.py:133-161 | transitions never change any category's next number (no reset) |
| `Turnero.TransicionConservaValidez` | app.py:127-163 | transitions keep ids, per-category numbering and category references valid |
| `Turnero.ActualizarConservaValidez` | app.py:44-46 | overwriting a row with the same id, category and number keeps the table invariants |
| `Turnero.SiguienteIdUsuario` | app.py:27 | a new user id is positive and above every existing id |
| `Turnero.NuevoUsuario` | app.py:200-201 | the registered row is not an admin and carries the email and the hash; with a fresh email, appending it keeps ids increasing and emails unique |
| `Turnero.Autenticar` | app.py:175-177 | login accepts the user with that email exactly when the password checks against its hash; an unknown email is refused |
| `Turnero.BuscarUsuarioNuevo` | app.py:196-203 | after registering a new email, looking it up finds the new row |
| `Turnero.RegistradoNoEsAdmin` | app.py:188-207 | a newly registered user who logs in does not get admin rights |
| `Turnero.App.constructor` | app.py:58-70 | the four default categories (15, 10, 20, 25 minutes) are seeded only into an empty category table; the tickets and users already in the database file and the client's session cookie are kept |
| `Turnero.App.SacarTurno` | app.py:81-106 | unknown category: no row added; otherwise exactly one row is appended with the next number and the estimate; table invariants kept |
| `Turnero.App.IniciarTurno` | app.py:127-138 | the ticket table afterwards and the reply are those of `Transicion` with iniciar |
| `Turnero.App.CompletarTurno` | app.py:140-151 | the ticket table afterwards and the reply are those of `Transicion` with completar |
| `Turnero.App.CancelarTurno` | app.py:153-163 | the ticket table afterwards and the reply are those of `Transicion` with cancelar |
| `Turnero.App.Cambiar` | app.py:127-163 | the shared handler body implements `Transicion` and keeps the invariants |
| `Turnero.App.PanelAdmin` | app.py:111-125 | non-admins are redirected; admins see the waiting tickets sorted by creation, exactly the in-service tickets (each once, as in the table), and all categories |
| `Turnero.App.ApiTurnosEsperando` | app.py:221-230 | the answer is the JSON projection of a creation-sorted permutation of exactly the waiting tickets |
| `Turnero.App.Login` | app.py:168-186 | valid credentials set the session to the user's id, name and admin flag, and redirect by role; otherwise the session is unchanged |
| `Turnero.App.Registro` | app.py:188-209 | a registered email adds no user; otherwise one non-admin user is appended with the hashed password |
| `Turnero.App.Logout` | app.py:211-216 | the session is emptied and no admin rights remain |
| `Helpers.EstadoBadgeClass` | frontend/src/utils/helpers.ts:23-31 | each known state gets its own colour (primary, success, info, danger); any other string gets `bg-secondary` |
| `Helpers.EstadoLabel` | frontend/src/utils/helpers.ts:33-41 | each known state gets its Spanish label; any other string is shown unchanged |
| `Helpers.ClasesDistinguenEstados` | frontend/src/utils/helpers.ts:24-30 | the four badge classes are pairwise distinct and none is the fallback |
| `Helpers.EtiquetasDistinguenEstados` | frontend/src/utils/helpers.ts:34-39 | the four labels are pairwise distinct |
| `Helpers.Formatear` | frontend/src/utils/helpers.ts:5-21 | `formatTime`/`formatDateTime` give "N/A" for null or empty input and when the date library throws; when the library succeeds the result is its text |
| `Helpers.FormatTime` | frontend/src/utils/helpers.ts:5-12 | "N/A" for null or empty input; otherwise the library's `HH:mm` text, or "N/A" when it throws |
| `Helpers.FormatDateTime` | frontend/src/utils/helpers.ts:14-21 | "N/A" for null or empty input; otherwise the library's `dd/MM/yyyy HH:mm` text, or "N/A" when it throws |
| `Api.ConBearer` | frontend/src/services/api.ts:17-20 | a stored non-empty token adds `Authorization: Bearer <token>`; without one the config is untouched |
| `Api.SinCredenciales` | frontend/src/services/api.ts:34-35 | clearing removes `token` and `user` and keeps every other key and value |
| `Api.TrasLimpiarSinBearer` | frontend/src/services/api.ts:17-36 | after a 401 or logout, the next request carries no bearer header |
| `Api.SinCredencialesIdempotente` | frontend/src/services/api.ts:107-110 | clearing the credentials twice is the same as once |
| `Api.Navegador.AlEnviar` | frontend/src/services/api.ts:16-21 | the request interceptor returns `ConBearer` of the current storage; the header set grows by `Authorization` exactly when a token is stored |
| `Api.Navegador.AlFallarEnvio` | frontend/src/services/api.ts:23-25 | a request error is rejected unchanged |
| `Api.Navegador.AlResponder` | frontend/src/services/api.ts:30 | a successful response passes through unchanged |
| `Api.Navegador.AlFallarRespuesta` | frontend/src/services/api.ts:31-39 | a 401 clears `token` and `user` and navigates to `/login`; any other error leaves storage and location alone; every error is still rejected |
| `Api.Navegador.Logout` | frontend/src/services/api.ts:107-111 | logout removes `token` and `user`, leaves other keys, and always resolves |
| `TurnoList.Botones` | frontend/src/components/turnos/TurnoList.tsx:51-78 | a button is offered exactly when its handler is wired and `Estados.Sucesor` allows the move from the ticket's state (Iniciar from `esperando`, Completar from `en_atencion`, Cancelar from either); each calls its handler with the row's id; each button appears at most once, in the order Iniciar, Completar, Cancelar |
| `TurnoList.RenderFila` | frontend/src/components/turnos/TurnoList.tsx:28-81 | a row shows the ticket's id, number, category, its state's badge and label, the estimated time exactly when set and then as `formatTime` of it, and the action block exactly when `showActions` |
| `TurnoList.Render` | frontend/src/components/turnos/TurnoList.tsx:20-35 | an empty list renders only "No hay turnos disponibles"; otherwise exactly one row per ticket, in input order |
| `TurnoList.BotonDeSuTurno` | frontend/src/components/turnos/TurnoList.tsx:49-78 | any button in a rendered list requires `showActions`, targets one of the listed tickets, and is allowed for that ticket |
| `TurnoList.BotonesConectados` | frontend/src/components/turnos/TurnoList.tsx:51-78 | a rendered list only has buttons whose handler was passed |
| `TurnoList.CancelarEnFilas` | frontend/src/components/turnos/TurnoList.tsx:49-78 | with actions shown and `onCancelar` passed, every row has an actions block offering Cancelar exactly for open tickets |
| `TurnoList.SinAccionesPorDefecto` | frontend/src/components/turnos/TurnoList.tsx:18-49 | when `showActions` is omitted, no row has actions and no button exists |
| `TurnoList.BotonesSegunEstado` | frontend/src/components/turnos/TurnoList.tsx:51-70 | `completado` and `cancelado` tickets get no button, and no row offers both Iniciar and Completar |
| `TurnoManager.Render` | frontend/src/components/admin/TurnoManager.tsx:31-55 | each panel renders its own list unfiltered, row i being `TurnoList`'s row for ticket i with that panel's handlers, or the empty message; every row shows actions and offers Cancelar exactly for open tickets; En Atención never shows Iniciar and En Espera never shows Completar |
| `TurnoManager.BotonesPorFila` | frontend/src/components/admin/TurnoManager.tsx:31-55 | both panels offer Cancelar exactly for open tickets; Iniciar is offered only in En Espera, for waiting tickets; Completar only in En Atención, for in-service tickets |
| `TurneroUtils.RestoJs` | static/js/main.js:285 | JavaScript `%`: a = q*b + r for the quotient truncated toward zero, with r in [0, b) for a non-negative dividend and in (-b, 0] for a negative one |
| `TurneroUtils.RellenarDos` | static/js/main.js:286 | `padStart(2, '0')`: at least two characters, zeros added on the left only when shorter |
| `TurneroUtils.TimeDifference` | static/js/main.js:282-287 | for a non-negative span the text ends in a colon and exactly two digits |
| `TurneroUtils.TimeDifferenceCotas` | static/js/main.js:283-285 | for diff >= 0: seconds in 0..59 and minutes*60000 + seconds*1000 <= diff < that + 1000 |
| `TurneroUtils.TimeDifferenceNegativa` | static/js/main.js:283-285 | for diff < 0: negative minutes and seconds between -60 and 0 |
| `TurneroUtils.LeerTimeDifference` | static/js/main.js:282-287 | the `M:SS` text of a non-negative span reads back as its minutes and seconds |
| `TurneroUtils.Minusculas` | static/js/main.js:164-171 | lowercasing keeps the length and lowers each character |
| `TurneroUtils.MinusculasIdempotente` | static/js/main.js:164-171 | lowering twice equals lowering once |
| `TurneroUtils.Contiene` | static/js/main.js:172 | the empty term is always contained; a term longer than the text never is |
| `TurneroUtils.ContieneSiiAparece` | static/js/main.js:172 | `includes` holds exactly when the term occurs at some position |
| `TurneroUtils.Display` | static/js/main.js:172-176 | a row is set either to shown (`''`) or to `none` |
| `TurneroUtils.DisplaySiiAparece` | static/js/main.js:164-177 | a row is shown exactly when the lowered term occurs in its lowered text |
| `TurneroUtils.BusquedaVaciaMuestraTodo` | static/js/main.js:172 | an empty search shows every row |
| `TurneroUtils.BusquedaSinMayusculas` | static/js/main.js:164-172 | the search ignores the letter case of the term |
| `TurneroUtils.AlBuscar` | static/js/main.js:163-179 | when the table exists, every row's display is set from its own text; when it does not, nothing changes |
| `TurneroUtils.ParseInt` | static/js/main.js:222 | blank input is NaN; a negative result needs a leading minus sign |
| `TurneroUtils.IntervaloAutoRefresco` | static/js/main.js:222 | never 0; 30000 when `parseInt` gives NaN or 0; otherwise the parsed value |
| `TurneroUtils.ParseIntDigitos` | static/js/main.js:222 | `parseInt` of a plain decimal digit string is its value |
| `TurneroUtils.ParseIntNatToString` | static/js/main.js:222 | `parseInt` reads back any number's decimal rendering |
| `TurneroUtils.IntervaloDeNumero` | static/js/main.js:222 | a positive number in the attribute is the interval; "0" and "" give 30000 |

## Left out

- Flask routing, templates, `flash` texts and redirects are left out. Redirects are result values. The GET branches of `login` and `registro` only render a page.
- The SQLAlchemy/SQLite layer is replaced by sequences. Transactions are not modelled, and neither is the race in which two concurrent `sacar_turno` requests read the same highest number. The model is sequential.
- Form parsing is not modelled: `categoria_id` is an integer parameter. A missing or non-numeric value and NULL columns (`tiempo_estimado`, `es_admin`, `email`) are outside the model.
- Password hashing (`generate_password_hash`, `check_password_hash`) is foreign code. It is taken as function parameters.
- Clocks and date formatting are left out: `datetime.now`, `utcnow`, `strftime`, date-fns `format` and `toLocaleTimeString`. Times are integers, and formatted dates are opaque strings. The `hora_estimada` of `/api/turnos_esperando` is kept as the integer time instead of its `HH:MM` text.
- The admin account seeding and `app.run` under `__main__` are start-up I/O. The constructor takes the rows already in the database file and the client's session cookie instead.
- React rendering, React Query caching, polling and invalidation are not modelled. Neither are the axios transport or the one-line endpoint wrappers of `api.ts`. The page components are presentation over libraries (`AdminPage`, `Home`, `App`, `Navbar`, `Login`, `LoginPage`, `Footer`, `Estadisticas`, `CategoriaCard`).
- `Helpers.EstadoBadgeClass`: JavaScript `Record` lookups also find inherited keys such as `"constructor"` or `"toString"`. The model treats those strings as unknown states, so it returns `bg-secondary` where the source returns the inherited function.
- `Helpers.EstadoLabel`: the same inherited-key lookup applies, and the source then returns the inherited function. The model returns the raw string.
- `TurneroUtils.Minusculas`: models `toLowerCase` on ASCII and Latin-1 capitals only. Other Unicode case mappings are not modelled.
- `TurneroUtils.IntervaloAutoRefresco`: `parseInt` is exact on integers. Precision loss above 2^53 is not modelled. The `setInterval`/`location.reload` timer is left out.
- `TurneroUtils.TimeDifference`: takes integer millisecond timestamps. Date-string parsing and invalid dates (NaN) are not modelled.
- The rest of `static/js/main.js` is browser-API code and is not modelled: DOM animation, Bootstrap alerts and tooltips, keyboard shortcuts, clipboard, print window, toasts, `randomColor` (`Math.random`) and the Web Audio notification (floating point).
- `Turnero.App.ApiTurnosEsperando`: rows with equal `fecha_creacion` come back in an order SQL leaves unspecified. The contract admits any creation-sorted permutation.
- `Turnero.App.PanelAdmin`: the in-service list has no `ORDER BY`. The contract states its contents and multiplicities, not its order.
- `Api.Navegador.AlFallarRespuesta`: navigation is modelled as the assignment to `location.href`. The page load it triggers is not modelled.
- Constants in `constants.ts` (icons, colours) are static data. Only the `ESTADOS_TURNO` values are used, as the state datatype.
