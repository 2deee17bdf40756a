/**
 * The Flask backend of the ticket ("turno") queue (app.py).
 *
 * The three database tables are sequences of rows in primary-key order (the
 * application never deletes a row, so a new row's id is the last id plus one,
 * which is SQLite's rowid rule). The Flask `session` cookie is an optional
 * `Sesion` record. Clocks are integer parameters counted in seconds;
 * `datetime.now()` and `datetime.utcnow()` are passed separately because the
 * source reads both. Password hashing is a function parameter.
 */
module Turnero {
  import opened Wrappers
  import opened Estados
  import Texto

  datatype Usuario = Usuario(id: int, nombre: string, email: string, passwordHash: string,
                             esAdmin: bool, fechaRegistro: int)

  datatype Categoria = Categoria(id: int, nombre: string, descripcion: string,
                                 tiempoEstimado: int, activa: bool)

  datatype Turno = Turno(id: int, numero: int, categoriaId: int, estado: Estado,
                         fechaCreacion: int, horaEstimada: Option<int>,
                         horaInicio: Option<int>, horaFin: Option<int>)

  /** What `login` stores in the session: `usuario_id`, `nombre`, `es_admin`. */
  datatype Sesion = Sesion(usuarioId: int, nombre: string, esAdmin: bool)

  const SEGUNDOS_POR_MINUTO := 60
  const HTTP_FORBIDDEN := 403
  const HTTP_NOT_FOUND := 404

  /** JSON answer of the three transition endpoints. */
  datatype Respuesta = Exito(mensaje: string) | ErrorHttp(status: int)

  /** `sacar_turno`: the flash carries the number and the estimated time; an unknown category is a 404. */
  datatype RespuestaSacar = Generado(numero: int, horaEstimada: int) | CategoriaNoEncontrada

  datatype RespuestaLogin = RedirigePanelAdmin | RedirigeIndex | CredencialesIncorrectas

  datatype RespuestaRegistro = EmailYaRegistrado | RedirigeLogin

  datatype Panel = Panel(esperando: seq<Turno>, enAtencion: seq<Turno>, categorias: seq<Categoria>)

  datatype RespuestaPanel = AccesoDenegado | MuestraPanel(panel: Panel)

  /** One element of the `/api/turnos_esperando` answer; `horaEstimada` None is JSON null. */
  datatype TurnoJson = TurnoJson(id: int, numero: int, categoria: string, horaEstimada: Option<int>)

  /** The categories seeded into an empty database. */
  function CategoriasPorDefecto(): seq<Categoria>
  {
    [ Categoria(1, "Atencion General", "Consultas generales", 15, true),
      Categoria(2, "Pagos", "Realizar pagos", 10, true),
      Categoria(3, "Reclamos", "Presentar reclamos", 20, true),
      Categoria(4, "Informes", "Solicitar informes", 25, true) ]
  }

  // ---------------------------------------------------------------------------
  // Table invariants
  // ---------------------------------------------------------------------------

  ghost predicate CategoriasValidas(cs: seq<Categoria>)
  {
    forall i, j :: 0 <= i < j < |cs| ==> cs[i].id < cs[j].id
  }

  predicate IdsTurnoCrecientes(ts: seq<Turno>)
  {
    && (forall i :: 0 <= i < |ts| ==> ts[i].id >= 1)
    && (forall i, j :: 0 <= i < j < |ts| ==> ts[i].id < ts[j].id)
  }

  /** Within one category, later tickets carry higher numbers; so numbers never repeat in a category. */
  ghost predicate NumerosCrecientes(ts: seq<Turno>)
  {
    forall i, j :: 0 <= i < j < |ts| && ts[i].categoriaId == ts[j].categoriaId ==> ts[i].numero < ts[j].numero
  }

  /** Every ticket's `categoria_id` names an existing category (the foreign key). */
  ghost predicate Referencian(ts: seq<Turno>, cs: seq<Categoria>)
  {
    forall t :: t in ts ==> BuscarCategoria(cs, t.categoriaId).Some?
  }

  ghost predicate TurnosValidos(ts: seq<Turno>, cs: seq<Categoria>)
  {
    IdsTurnoCrecientes(ts) && NumerosCrecientes(ts) && Referencian(ts, cs)
  }

  /** Ids increase with the row order and `email` is unique. */
  predicate UsuariosValidos(us: seq<Usuario>)
  {
    && (forall i :: 0 <= i < |us| ==> us[i].id >= 1)
    && (forall i, j :: 0 <= i < j < |us| ==> us[i].id < us[j].id)
    && (forall i, j :: 0 <= i < j < |us| ==> us[i].email != us[j].email)
  }

  // ---------------------------------------------------------------------------
  // Queries
  // ---------------------------------------------------------------------------

  /** `Categoria.query.get(id)`. */
  function BuscarCategoria(cs: seq<Categoria>, id: int): (r: Option<Categoria>)
    ensures r.Some? ==> r.value in cs && r.value.id == id
    ensures r.None? <==> forall i :: 0 <= i < |cs| ==> cs[i].id != id
  {
    if cs == [] then None
    else if cs[0].id == id then Some(cs[0])
    else
      var r := BuscarCategoria(cs[1..], id);
      assert forall i :: 1 <= i < |cs| ==> cs[i] == cs[1..][i - 1];
      r
  }

  /** Position of the ticket with primary key `id` (`Turno.query.get(id)`). */
  function IndiceTurno(ts: seq<Turno>, id: int): (r: Option<nat>)
    ensures r.Some? ==> r.value < |ts| && ts[r.value].id == id
    ensures r.None? <==> forall i :: 0 <= i < |ts| ==> ts[i].id != id
  {
    if ts == [] then None
    else if ts[0].id == id then Some(0)
    else
      assert forall i :: 1 <= i < |ts| ==> ts[i] == ts[1..][i - 1];
      match IndiceTurno(ts[1..], id)
      case None => None
      case Some(k) => Some(k + 1)
  }

  /** `Usuario.query.filter_by(email=email).first()`: the first row with that email. */
  function BuscarUsuario(us: seq<Usuario>, email: string): (r: Option<Usuario>)
    ensures r.Some? ==> r.value in us && r.value.email == email
    ensures r.None? <==> forall i :: 0 <= i < |us| ==> us[i].email != email
  {
    if us == [] then None
    else if us[0].email == email then Some(us[0])
    else
      assert forall i :: 1 <= i < |us| ==> us[i] == us[1..][i - 1];
      BuscarUsuario(us[1..], email)
  }

  /** The categories `index` lists: the active ones, in table order. */
  function CategoriasActivas(cs: seq<Categoria>): (r: seq<Categoria>)
    ensures |r| <= |cs|
    ensures forall c :: c in r <==> c in cs && c.activa
    ensures forall c :: multiset(r)[c] == (if c.activa then multiset(cs)[c] else 0)
  {
    if cs == [] then []
    else
      var resto := CategoriasActivas(cs[..|cs| - 1]);
      assert cs == cs[..|cs| - 1] + [cs[|cs| - 1]];
      if cs[|cs| - 1].activa then resto + [cs[|cs| - 1]] else resto
  }

  /** `Turno.query.filter_by(estado=e)`, in table order. */
  function FiltrarEstado(ts: seq<Turno>, e: Estado): (r: seq<Turno>)
    ensures |r| <= |ts|
    ensures forall t :: t in r <==> t in ts && t.estado == e
    ensures forall t :: multiset(r)[t] == (if t.estado == e then multiset(ts)[t] else 0)
  {
    if ts == [] then []
    else
      var resto := FiltrarEstado(ts[..|ts| - 1], e);
      assert ts == ts[..|ts| - 1] + [ts[|ts| - 1]];
      if ts[|ts| - 1].estado == e then resto + [ts[|ts| - 1]] else resto
  }

  predicate OrdenadaPorFecha(s: seq<Turno>)
  {
    forall i, j :: 0 <= i < j < |s| ==> s[i].fechaCreacion <= s[j].fechaCreacion
  }

  function InsertarPorFecha(t: Turno, s: seq<Turno>): (r: seq<Turno>)
    requires OrdenadaPorFecha(s)
    ensures OrdenadaPorFecha(r)
    ensures multiset(r) == multiset(s) + multiset{t}
    ensures |r| == |s| + 1 && (r[0] == t || (s != [] && r[0] == s[0]))
  {
    if s == [] || t.fechaCreacion < s[0].fechaCreacion then [t] + s
    else
      var cola := InsertarPorFecha(t, s[1..]);
      assert s == [s[0]] + s[1..];
      [s[0]] + cola
  }

  /** `order_by(Turno.fecha_creacion)`: a permutation sorted by creation time. */
  function OrdenarPorFecha(s: seq<Turno>): (r: seq<Turno>)
    ensures OrdenadaPorFecha(r)
    ensures multiset(r) == multiset(s)
  {
    if s == [] then []
    else
      assert s == s[..|s| - 1] + [s[|s| - 1]];
      InsertarPorFecha(s[|s| - 1], OrdenarPorFecha(s[..|s| - 1]))
  }

  /** `s` is an admissible answer of the waiting-list query over table `ts`. */
  ghost predicate OrdenEspera(ts: seq<Turno>, s: seq<Turno>)
  {
    OrdenadaPorFecha(s) && multiset(s) == multiset(FiltrarEstado(ts, Esperando))
  }

  /** The waiting-list query returns exactly the waiting tickets, each once as often as in the table. */
  lemma OrdenEsperaMiembros(ts: seq<Turno>, s: seq<Turno>)
    requires OrdenEspera(ts, s)
    ensures forall t :: t in s <==> t in ts && t.estado == Esperando
    ensures |s| == |FiltrarEstado(ts, Esperando)|
  {
    var f := FiltrarEstado(ts, Esperando);
    assert forall t :: t in s <==> t in multiset(s);
    assert forall t :: t in f <==> t in multiset(f);
    assert |multiset(s)| == |multiset(f)|;
  }

  function Json(cs: seq<Categoria>, t: Turno): (j: TurnoJson)
    requires BuscarCategoria(cs, t.categoriaId).Some?
  {
    TurnoJson(t.id, t.numero, BuscarCategoria(cs, t.categoriaId).value.nombre, t.horaEstimada)
  }

  /** The JSON list comprehension of `api_turnos_esperando`. */
  function Proyectar(cs: seq<Categoria>, s: seq<Turno>): (r: seq<TurnoJson>)
    requires Referencian(s, cs)
    ensures |r| == |s|
    ensures forall k :: 0 <= k < |s| ==> r[k].id == s[k].id && r[k].numero == s[k].numero
    ensures forall k :: 0 <= k < |s| ==> r[k].horaEstimada == s[k].horaEstimada
    ensures forall k :: 0 <= k < |s| ==> exists c :: c in cs && c.id == s[k].categoriaId && r[k].categoria == c.nombre
  {
    assert forall k :: 0 <= k < |s| ==> s[k] in s && BuscarCategoria(cs, s[k].categoriaId).value in cs;
    seq(|s|, k requires 0 <= k < |s| => Json(cs, s[k]))
  }

  // ---------------------------------------------------------------------------
  // Ticket numbering and wait estimate (sacar_turno)
  // ---------------------------------------------------------------------------

  /** The number of the last ticket of category `c` when ordered by number, descending. */
  function MaxNumero(ts: seq<Turno>, c: int): (r: Option<int>)
    ensures r.None? <==> forall i :: 0 <= i < |ts| ==> ts[i].categoriaId != c
    ensures r.Some? ==> forall i :: 0 <= i < |ts| && ts[i].categoriaId == c ==> ts[i].numero <= r.value
    ensures r.Some? ==> exists i :: 0 <= i < |ts| && ts[i].categoriaId == c && ts[i].numero == r.value
  {
    if ts == [] then None
    else
      var ultimo := ts[|ts| - 1];
      var previo := MaxNumero(ts[..|ts| - 1], c);
      assert forall i :: 0 <= i < |ts| - 1 ==> ts[i] == ts[..|ts| - 1][i];
      if ultimo.categoriaId != c then previo
      else match previo
        case None => Some(ultimo.numero)
        case Some(m) => Some(if ultimo.numero > m then ultimo.numero else m)
  }

  /** The number a new ticket of category `c` receives: 1 for the first, else the highest so far plus one. */
  function SiguienteNumero(ts: seq<Turno>, c: int): (n: int)
    ensures forall i :: 0 <= i < |ts| && ts[i].categoriaId == c ==> ts[i].numero < n
    ensures (forall i :: 0 <= i < |ts| ==> ts[i].categoriaId != c) ==> n == 1
    ensures (exists i :: 0 <= i < |ts| && ts[i].categoriaId == c) ==>
              exists i :: 0 <= i < |ts| && ts[i].categoriaId == c && ts[i].numero == n - 1
  {
    match MaxNumero(ts, c)
    case None => 1
    case Some(m) => m + 1
  }

  /** How many tickets of category `c` are still waiting. */
  function CuentaEsperando(ts: seq<Turno>, c: int): (k: nat)
    ensures k <= |ts|
    ensures k == 0 <==> forall i :: 0 <= i < |ts| ==> !(ts[i].categoriaId == c && ts[i].estado == Esperando)
  {
    if ts == [] then 0
    else
      assert forall i :: 0 <= i < |ts| - 1 ==> ts[i] == ts[..|ts| - 1][i];
      CuentaEsperando(ts[..|ts| - 1], c)
        + (if ts[|ts| - 1].categoriaId == c && ts[|ts| - 1].estado == Esperando then 1 else 0)
  }

  ghost function IndicesEsperando(ts: seq<Turno>, c: int): set<int>
  {
    set i | 0 <= i < |ts| && ts[i].categoriaId == c && ts[i].estado == Esperando
  }

  /** The count is the size of the set of waiting rows of that category. */
  lemma {:induction false} CuentaEsperandoCardinal(ts: seq<Turno>, c: int)
    ensures CuentaEsperando(ts, c) == |IndicesEsperando(ts, c)|
  {
    if ts != [] {
      var p := ts[..|ts| - 1];
      CuentaEsperandoCardinal(p, c);
      assert forall i :: 0 <= i < |p| ==> p[i] == ts[i];
      if ts[|ts| - 1].categoriaId == c && ts[|ts| - 1].estado == Esperando {
        assert IndicesEsperando(ts, c) == IndicesEsperando(p, c) + {|ts| - 1};
      } else {
        assert IndicesEsperando(ts, c) == IndicesEsperando(p, c);
      }
    }
  }

  /** The primary key a new row receives. */
  function SiguienteIdTurno(ts: seq<Turno>): (id: int)
    requires IdsTurnoCrecientes(ts)
    ensures id >= 1
    ensures forall i :: 0 <= i < |ts| ==> ts[i].id < id
  {
    if ts == [] then 1 else ts[|ts| - 1].id + 1
  }

  /** The row `sacar_turno` inserts for category `cat`. */
  function NuevoTurno(ts: seq<Turno>, cat: Categoria, now: int, utcNow: int): (t: Turno)
    requires IdsTurnoCrecientes(ts)
    ensures IdsTurnoCrecientes(ts + [t])
    ensures NumerosCrecientes(ts) ==> NumerosCrecientes(ts + [t])
    ensures forall i :: 0 <= i < |ts| ==> ts[i].id != t.id
  {
    Turno(SiguienteIdTurno(ts), SiguienteNumero(ts, cat.id), cat.id, Esperando, utcNow,
          Some(now + CuentaEsperando(ts, cat.id) * cat.tiempoEstimado * SEGUNDOS_POR_MINUTO),
          None, None)
  }

  /**
   * A new ticket waits, has no start or end time, and is estimated at `now`
   * plus (waiting tickets of its category before it) times the category's minutes.
   */
  lemma NuevoTurnoEstimacion(ts: seq<Turno>, cat: Categoria, now: int, utcNow: int)
    requires IdsTurnoCrecientes(ts)
    ensures var t := NuevoTurno(ts, cat, now, utcNow);
      && t.estado == Esperando && t.horaInicio.None? && t.horaFin.None?
      && t.categoriaId == cat.id && t.fechaCreacion == utcNow
      && t.horaEstimada == Some(now + |IndicesEsperando(ts, cat.id)| * cat.tiempoEstimado * SEGUNDOS_POR_MINUTO)
  {
    CuentaEsperandoCardinal(ts, cat.id);
  }

  /** Drawing a ticket in `cat` advances that category's counter by exactly one. */
  lemma {:induction false} SiguienteNumeroTrasSacar(ts: seq<Turno>, cat: Categoria, now: int, utcNow: int)
    requires IdsTurnoCrecientes(ts)
    ensures SiguienteNumero(ts + [NuevoTurno(ts, cat, now, utcNow)], cat.id) == SiguienteNumero(ts, cat.id) + 1
  {
    var t := NuevoTurno(ts, cat, now, utcNow);
    assert (ts + [t])[..|ts|] == ts;
  }

  /** Tickets of another category do not move a category's counter. */
  lemma {:induction false} SiguienteNumeroOtraCategoria(ts: seq<Turno>, t: Turno, c: int)
    requires t.categoriaId != c
    ensures SiguienteNumero(ts + [t], c) == SiguienteNumero(ts, c)
  {
    assert (ts + [t])[..|ts|] == ts;
  }

  /** Same categories and numbers row by row. */
  ghost predicate MismosNumeros(ts: seq<Turno>, us: seq<Turno>)
  {
    |ts| == |us| &&
    forall i :: 0 <= i < |ts| ==> ts[i].categoriaId == us[i].categoriaId && ts[i].numero == us[i].numero
  }

  /** The counter depends only on the categories and numbers already issued. */
  lemma SiguienteNumeroMismosNumeros(ts: seq<Turno>, us: seq<Turno>, c: int)
    requires MismosNumeros(ts, us)
    ensures SiguienteNumero(ts, c) == SiguienteNumero(us, c)
  {
    var n, m := SiguienteNumero(ts, c), SiguienteNumero(us, c);
    if exists i :: 0 <= i < |ts| && ts[i].categoriaId == c {
      var i :| 0 <= i < |ts| && ts[i].categoriaId == c && ts[i].numero == n - 1;
      assert us[i].categoriaId == c;
      var j :| 0 <= j < |us| && us[j].categoriaId == c && us[j].numero == m - 1;
      assert ts[j].categoriaId == c;
    }
  }

  // ---------------------------------------------------------------------------
  // Transitions (iniciar_turno, completar_turno, cancelar_turno)
  // ---------------------------------------------------------------------------

  function Verbo(a: Accion): string
  {
    match a
    case Iniciar => "iniciado"
    case Completar => "completado"
    case Cancelar => "cancelado"
  }

  /** The field assignments of each handler; the current `estado` is not consulted. */
  function Aplicar(a: Accion, t: Turno, now: int): (r: Turno)
    ensures r.id == t.id && r.numero == t.numero && r.categoriaId == t.categoriaId
    ensures r.fechaCreacion == t.fechaCreacion && r.horaEstimada == t.horaEstimada
    ensures r.estado == Destino(a)
    ensures r.horaInicio == (if a == Iniciar then Some(now) else t.horaInicio)
    ensures r.horaFin == (if a == Completar then Some(now) else t.horaFin)
  {
    match a
    case Iniciar => t.(estado := EnAtencion, horaInicio := Some(now))
    case Completar => t.(estado := Completado, horaFin := Some(now))
    case Cancelar => t.(estado := Cancelado)
  }

  /** There is no transition guard: two tickets differing only in `estado` end up identical. */
  lemma AplicarIgnoraEstadoPrevio(a: Accion, t: Turno, e: Estado, now: int)
    ensures Aplicar(a, t.(estado := e), now) == Aplicar(a, t, now)
  {
  }

  predicate EsAdmin(s: Option<Sesion>)
  {
    s.Some? && s.value.esAdmin
  }

  /** The JSON `message` of a successful transition: "Turno #<numero> <verbo>". */
  function Mensaje(a: Accion, numero: int): (m: string)
    ensures |m| == 8 + |Texto.IntToString(numero)| + |Verbo(a)|
    ensures m[..7] == "Turno #" && m[|m| - |Verbo(a)|..] == Verbo(a)
    ensures m[7..|m| - |Verbo(a)| - 1] == Texto.IntToString(numero) && m[|m| - |Verbo(a)| - 1] == ' '
  {
    var cifras := Texto.IntToString(numero);
    var m := "Turno #" + cifras + " " + Verbo(a);
    assert m[7..|m| - |Verbo(a)| - 1] == cifras;
    m
  }

  /** The message tells the action and the ticket number apart: no two transitions share one. */
  lemma MensajeInyectivo(a: Accion, n: int, b: Accion, m: int)
    ensures Mensaje(a, n) == Mensaje(b, m) <==> a == b && n == m
  {
    if Mensaje(a, n) == Mensaje(b, m) {
      var pn, pm := "Turno #" + Texto.IntToString(n) + " ", "Turno #" + Texto.IntToString(m) + " ";
      assert pn + Verbo(a) == pm + Verbo(b);
      VerboFinal(pn, a, pm, b);
      assert pn[7..|pn| - 1] == Texto.IntToString(n);
      assert pm[7..|pm| - 1] == Texto.IntToString(m);
      IntToStringInyectiva(n, m);
    }
  }

  /** The last eight characters already tell the three verbs apart. */
  lemma VerboFinal(p: string, a: Accion, q: string, b: Accion)
    requires p + Verbo(a) == q + Verbo(b)
    ensures a == b && p == q
  {
    var z := p + Verbo(a);
    assert z[|z| - 8..] == Verbo(a)[|Verbo(a)| - 8..];
    assert z[|z| - 8..] == Verbo(b)[|Verbo(b)| - 8..];
    assert p == z[..|z| - |Verbo(a)|];
    assert q == z[..|z| - |Verbo(b)|];
  }

  lemma IntToStringInyectiva(n: int, m: int)
    requires Texto.IntToString(n) == Texto.IntToString(m)
    ensures n == m
  {
    if n >= 0 && m >= 0 {
      Texto.NatToStringInyectiva(n, m);
    } else if n < 0 && m < 0 {
      assert Texto.IntToString(n)[1..] == Texto.NatToString(-n);
      assert Texto.IntToString(m)[1..] == Texto.NatToString(-m);
      Texto.NatToStringInyectiva(-n, -m);
    }
  }

  /** A transition handler as a function of the session and the ticket table. */
  function Transicion(s: Option<Sesion>, ts: seq<Turno>, a: Accion, id: int, now: int): (r: (Respuesta, seq<Turno>))
    ensures !EsAdmin(s) ==> r == (ErrorHttp(HTTP_FORBIDDEN), ts)
    ensures EsAdmin(s) && (forall i :: 0 <= i < |ts| ==> ts[i].id != id) ==> r == (ErrorHttp(HTTP_NOT_FOUND), ts)
    ensures r.0.Exito? <==> EsAdmin(s) && exists i :: 0 <= i < |ts| && ts[i].id == id
    ensures r.0.Exito? ==>
              exists i :: (0 <= i < |ts| && ts[i].id == id
                           && r.1 == ts[i := Aplicar(a, ts[i], now)] && r.0.mensaje == Mensaje(a, ts[i].numero))
  {
    if !EsAdmin(s) then (ErrorHttp(HTTP_FORBIDDEN), ts)
    else match IndiceTurno(ts, id)
      case None => (ErrorHttp(HTTP_NOT_FOUND), ts)
      case Some(i) => (Exito(Mensaje(a, ts[i].numero)), ts[i := Aplicar(a, ts[i], now)])
  }

  /**
   * An admin may apply any of the three actions to any existing ticket, in any
   * state, including `completado` and `cancelado`; only that row changes.
   */
  lemma {:induction false} TransicionDesdeCualquierEstado(s: Option<Sesion>, ts: seq<Turno>, a: Accion, i: nat, now: int)
    requires EsAdmin(s) && IdsTurnoCrecientes(ts) && i < |ts|
    ensures var r := Transicion(s, ts, a, ts[i].id, now);
      && r.0.Exito?
      && |r.1| == |ts|
      && r.1[i].estado == Destino(a)
      && (a == Iniciar ==> r.1[i].horaInicio == Some(now))
      && (a == Completar ==> r.1[i].horaFin == Some(now))
      && (a == Cancelar ==> r.1[i].horaInicio == ts[i].horaInicio && r.1[i].horaFin == ts[i].horaFin)
      && forall j :: 0 <= j < |ts| && j != i ==> r.1[j] == ts[j]
  {
    var k := IndiceTurno(ts, ts[i].id);
    assert k.Some? && ts[k.value].id == ts[i].id;
    assert k.value == i;
  }

  /** Transitions never change a category's next number: the counter never resets. */
  lemma TransicionConservaNumeracion(s: Option<Sesion>, ts: seq<Turno>, a: Accion, id: int, now: int, c: int)
    ensures SiguienteNumero(Transicion(s, ts, a, id, now).1, c) == SiguienteNumero(ts, c)
  {
    var r := Transicion(s, ts, a, id, now);
    assert MismosNumeros(ts, r.1);
    SiguienteNumeroMismosNumeros(ts, r.1, c);
  }

  /** Transitions keep every table invariant. */
  lemma TransicionConservaValidez(s: Option<Sesion>, ts: seq<Turno>, cs: seq<Categoria>, a: Accion, id: int, now: int)
    requires TurnosValidos(ts, cs)
    ensures TurnosValidos(Transicion(s, ts, a, id, now).1, cs)
  {
    var r := Transicion(s, ts, a, id, now);
    if r.0.Exito? {
      var i :| 0 <= i < |ts| && ts[i].id == id && r.1 == ts[i := Aplicar(a, ts[i], now)];
      ActualizarConservaValidez(ts, cs, i, Aplicar(a, ts[i], now));
    }
  }

  /** Overwriting one row keeps the invariants when its id, category and number stay. */
  lemma ActualizarConservaValidez(ts: seq<Turno>, cs: seq<Categoria>, i: nat, t: Turno)
    requires TurnosValidos(ts, cs) && i < |ts|
    requires t.id == ts[i].id && t.categoriaId == ts[i].categoriaId && t.numero == ts[i].numero
    ensures TurnosValidos(ts[i := t], cs)
  {
    var us := ts[i := t];
    assert IdsTurnoCrecientes(us);
    assert NumerosCrecientes(us);
    forall x | x in us ensures BuscarCategoria(cs, x.categoriaId).Some? {
      var k :| 0 <= k < |us| && us[k] == x;
      assert ts[k] in ts;
    }
  }

  // ---------------------------------------------------------------------------
  // Users
  // ---------------------------------------------------------------------------

  function SiguienteIdUsuario(us: seq<Usuario>): (id: int)
    requires UsuariosValidos(us)
    ensures id >= 1
    ensures forall i :: 0 <= i < |us| ==> us[i].id < id
  {
    if us == [] then 1 else us[|us| - 1].id + 1
  }

  /** The row `registro` inserts: never an administrator. */
  function NuevoUsuario(us: seq<Usuario>, nombre: string, email: string, hash: string, utcNow: int): (u: Usuario)
    requires UsuariosValidos(us)
    ensures !u.esAdmin && u.email == email && u.passwordHash == hash
    ensures (forall i :: 0 <= i < |us| ==> us[i].email != email) ==> UsuariosValidos(us + [u])
  {
    Usuario(SiguienteIdUsuario(us), nombre, email, hash, false, utcNow)
  }

  /** The user `login` accepts: the row with that email, if the password checks against its hash. */
  function Autenticar(us: seq<Usuario>, email: string, password: string,
                      checkPasswordHash: (string, string) -> bool): (r: Option<Usuario>)
    ensures r.Some? ==> r.value in us && r.value.email == email && checkPasswordHash(r.value.passwordHash, password)
    ensures (forall i :: 0 <= i < |us| ==> us[i].email != email) ==> r.None?
    ensures BuscarUsuario(us, email).Some? && checkPasswordHash(BuscarUsuario(us, email).value.passwordHash, password) ==>
              r == BuscarUsuario(us, email)
  {
    match BuscarUsuario(us, email)
    case None => None
    case Some(u) => if checkPasswordHash(u.passwordHash, password) then Some(u) else None
  }

  /** Looking up an email that was not registered before finds the row just appended. */
  lemma {:induction false} BuscarUsuarioNuevo(us: seq<Usuario>, u: Usuario)
    requires forall i :: 0 <= i < |us| ==> us[i].email != u.email
    ensures BuscarUsuario(us + [u], u.email) == Some(u)
  {
    if us != [] {
      assert (us + [u])[1..] == us[1..] + [u];
      BuscarUsuarioNuevo(us[1..], u);
    }
  }

  /** Whoever registers and then logs in gets a non-admin session. */
  lemma RegistradoNoEsAdmin(us: seq<Usuario>, nombre: string, email: string, hash: string, utcNow: int,
                            password: string, checkPasswordHash: (string, string) -> bool)
    requires UsuariosValidos(us)
    requires forall i :: 0 <= i < |us| ==> us[i].email != email
    ensures var a := Autenticar(us + [NuevoUsuario(us, nombre, email, hash, utcNow)], email, password, checkPasswordHash);
      a.Some? ==> !a.value.esAdmin
  {
    BuscarUsuarioNuevo(us, NuevoUsuario(us, nombre, email, hash, utcNow));
  }

  // ---------------------------------------------------------------------------
  // The application state and its handlers
  // ---------------------------------------------------------------------------

  class App {
    var categorias: seq<Categoria>
    var turnos: seq<Turno>
    var usuarios: seq<Usuario>
    var sesion: Option<Sesion>

    ghost predicate Valid()
      reads this
    {
      CategoriasValidas(categorias) && TurnosValidos(turnos, categorias) && UsuariosValidos(usuarios)
    }

    /**
     * Start-up over the rows already in the database file and the client's
     * session cookie: the default categories are seeded only when the
     * category table is empty; tickets, users and the session are kept.
     */
    constructor (existentes: seq<Categoria>, guardados: seq<Turno>, registrados: seq<Usuario>,
                 cookie: Option<Sesion>)
      requires CategoriasValidas(existentes) && UsuariosValidos(registrados)
      requires TurnosValidos(guardados, if existentes == [] then CategoriasPorDefecto() else existentes)
      ensures Valid()
      ensures categorias == (if existentes == [] then CategoriasPorDefecto() else existentes)
      ensures turnos == guardados && usuarios == registrados && sesion == cookie
    {
      categorias := if existentes == [] then CategoriasPorDefecto() else existentes;
      turnos := guardados;
      usuarios := registrados;
      sesion := cookie;
    }

    /** `sacar_turno`: append a waiting ticket numbered and estimated per its category. */
    method SacarTurno(categoriaId: int, now: int, utcNow: int) returns (r: RespuestaSacar)
      requires Valid()
      modifies this`turnos
      ensures Valid()
      ensures BuscarCategoria(categorias, categoriaId).None? ==>
                r == CategoriaNoEncontrada && turnos == old(turnos)
      ensures BuscarCategoria(categorias, categoriaId).Some? ==>
                var t := NuevoTurno(old(turnos), BuscarCategoria(categorias, categoriaId).value, now, utcNow);
                turnos == old(turnos) + [t] && r == Generado(t.numero, t.horaEstimada.value)
    {
      var categoria := BuscarCategoria(categorias, categoriaId);
      if categoria.None? {
        return CategoriaNoEncontrada;
      }
      var c := categoria.value;
      var nuevoNumero := match MaxNumero(turnos, categoriaId) case None => 1 case Some(m) => m + 1;
      var esperando := CuentaEsperando(turnos, categoriaId);
      var horaEstimada := now + esperando * c.tiempoEstimado * SEGUNDOS_POR_MINUTO;
      var nuevo := Turno(SiguienteIdTurno(turnos), nuevoNumero, categoriaId, Esperando, utcNow,
                         Some(horaEstimada), None, None);
      assert nuevo == NuevoTurno(turnos, c, now, utcNow);
      turnos := turnos + [nuevo];
      r := Generado(nuevoNumero, horaEstimada);
    }

    method IniciarTurno(turnoId: int, now: int) returns (r: Respuesta)
      requires Valid()
      modifies this`turnos
      ensures Valid()
      ensures (r, turnos) == Transicion(sesion, old(turnos), Iniciar, turnoId, now)
    {
      r := Cambiar(Iniciar, turnoId, now);
    }

    method CompletarTurno(turnoId: int, now: int) returns (r: Respuesta)
      requires Valid()
      modifies this`turnos
      ensures Valid()
      ensures (r, turnos) == Transicion(sesion, old(turnos), Completar, turnoId, now)
    {
      r := Cambiar(Completar, turnoId, now);
    }

    method CancelarTurno(turnoId: int) returns (r: Respuesta)
      requires Valid()
      modifies this`turnos
      ensures Valid()
      ensures (r, turnos) == Transicion(sesion, old(turnos), Cancelar, turnoId, 0)
    {
      r := Cambiar(Cancelar, turnoId, 0);
    }

    /** The body the three handlers share: admin check, lookup or 404, overwrite the row. */
    method Cambiar(a: Accion, turnoId: int, now: int) returns (r: Respuesta)
      requires Valid()
      modifies this`turnos
      ensures Valid()
      ensures (r, turnos) == Transicion(sesion, old(turnos), a, turnoId, now)
    {
      if !EsAdmin(sesion) {
        return ErrorHttp(HTTP_FORBIDDEN);
      }
      var i := IndiceTurno(turnos, turnoId);
      if i.None? {
        return ErrorHttp(HTTP_NOT_FOUND);
      }
      var turno := turnos[i.value];
      var nuevo := match a
        case Iniciar => turno.(estado := EnAtencion, horaInicio := Some(now))
        case Completar => turno.(estado := Completado, horaFin := Some(now))
        case Cancelar => turno.(estado := Cancelado);
      TransicionConservaValidez(sesion, turnos, categorias, a, turnoId, now);
      turnos := turnos[i.value := nuevo];
      r := Exito(Mensaje(a, turno.numero));
    }

    /** `panel_admin`: non-admins are sent to the login page. */
    method PanelAdmin() returns (r: RespuestaPanel)
      requires Valid()
      ensures !EsAdmin(sesion) ==> r == AccesoDenegado
      ensures EsAdmin(sesion) ==> r.MuestraPanel?
      ensures r.MuestraPanel? ==>
                && OrdenEspera(turnos, r.panel.esperando)
                && (forall t :: t in r.panel.enAtencion <==> t in turnos && t.estado == EnAtencion)
                && (forall t :: multiset(r.panel.enAtencion)[t] == (if t.estado == EnAtencion then multiset(turnos)[t] else 0))
                && r.panel.categorias == categorias
    {
      if !EsAdmin(sesion) {
        return AccesoDenegado;
      }
      var esperando := OrdenarPorFecha(FiltrarEstado(turnos, Esperando));
      var enAtencion := FiltrarEstado(turnos, EnAtencion);
      r := MuestraPanel(Panel(esperando, enAtencion, categorias));
    }

    /** `/api/turnos_esperando`: the waiting tickets by creation time, as JSON. */
    method ApiTurnosEsperando() returns (r: seq<TurnoJson>)
      requires Valid()
      ensures exists s :: OrdenEspera(turnos, s) && Referencian(s, categorias) && r == Proyectar(categorias, s)
    {
      var s := OrdenarPorFecha(FiltrarEstado(turnos, Esperando));
      OrdenEsperaMiembros(turnos, s);
      r := Proyectar(categorias, s);
    }

    /** `login` (POST): a matching user and password fill the session; otherwise nothing changes. */
    method Login(email: string, password: string, checkPasswordHash: (string, string) -> bool)
      returns (r: RespuestaLogin)
      requires Valid()
      modifies this`sesion
      ensures Valid()
      ensures var u := Autenticar(usuarios, email, password, checkPasswordHash);
        if u.Some? then
          sesion == Some(Sesion(u.value.id, u.value.nombre, u.value.esAdmin))
          && r == (if u.value.esAdmin then RedirigePanelAdmin else RedirigeIndex)
        else
          sesion == old(sesion) && r == CredencialesIncorrectas
    {
      var usuario := BuscarUsuario(usuarios, email);
      if usuario.Some? && checkPasswordHash(usuario.value.passwordHash, password) {
        var u := usuario.value;
        sesion := Some(Sesion(u.id, u.nombre, u.esAdmin));
        r := if u.esAdmin then RedirigePanelAdmin else RedirigeIndex;
      } else {
        r := CredencialesIncorrectas;
      }
    }

    /** `registro` (POST): a new email adds a non-admin user; a known email adds nothing. */
    method Registro(nombre: string, email: string, password: string,
                    generatePasswordHash: string -> string, utcNow: int)
      returns (r: RespuestaRegistro)
      requires Valid()
      modifies this`usuarios
      ensures Valid()
      ensures BuscarUsuario(old(usuarios), email).Some? ==> r == EmailYaRegistrado && usuarios == old(usuarios)
      ensures BuscarUsuario(old(usuarios), email).None? ==>
                r == RedirigeLogin
                && usuarios == old(usuarios) + [NuevoUsuario(old(usuarios), nombre, email, generatePasswordHash(password), utcNow)]
    {
      if BuscarUsuario(usuarios, email).Some? {
        return EmailYaRegistrado;
      }
      var nuevo := Usuario(SiguienteIdUsuario(usuarios), nombre, email, generatePasswordHash(password), false, utcNow);
      usuarios := usuarios + [nuevo];
      r := RedirigeLogin;
    }

    /** `logout`: the session is emptied, so no admin rights remain. */
    method Logout()
      modifies this`sesion
      ensures sesion == None && !EsAdmin(sesion)
    {
      sesion := None;
    }
  }
}
