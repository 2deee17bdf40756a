/**
 * The ticket list component (frontend/src/components/turnos/TurnoList.tsx):
 * one row per ticket, in input order, and per row the action buttons its
 * state and the wired handlers allow.
 */
module TurnoList {
  import opened Wrappers
  import opened Estados
  import Api
  import Helpers

  /** A button; clicking it calls the handler of `accion` with `turnoId`. */
  datatype Boton = Boton(accion: Accion, turnoId: int)

  /** `TurnoListProps`: which optional handlers are passed, and `showActions` (None when not passed). */
  datatype Props = Props(onIniciar: bool, onCompletar: bool, onCancelar: bool, showActions: Option<bool>)

  /** The destructuring default: an omitted `showActions` is false. */
  function MostrarAcciones(p: Props): bool
  {
    match p.showActions
    case None => false
    case Some(b) => b
  }

  /**
   * One rendered row: React key, title, badge, the estimated time when the
   * ticket has one, and the actions block (None when `showActions` is false).
   */
  datatype Fila = Fila(key: int, numero: int, categoria: string, badgeClass: string, etiqueta: string,
                       horaEstimada: Option<string>, acciones: Option<seq<Boton>>)

  const SIN_TURNOS := "No hay turnos disponibles"

  datatype Vista = Mensaje(texto: string) | Lista(filas: seq<Fila>)

  /** The position of an action's button within a row. */
  function Rango(a: Accion): nat
  {
    match a
    case Iniciar => 0
    case Completar => 1
    case Cancelar => 2
  }

  function Conectado(p: Props, a: Accion): bool
  {
    match a
    case Iniciar => p.onIniciar
    case Completar => p.onCompletar
    case Cancelar => p.onCancelar
  }

  /**
   * The buttons of one row, each at most once, in the order Iniciar,
   * Completar, Cancelar. A button is offered exactly when its handler is
   * wired and `Sucesor` allows the move from the ticket's state; every
   * button carries the row's id.
   */
  function Botones(t: Api.Turno, p: Props): (r: seq<Boton>)
    ensures forall b :: b in r ==> b.turnoId == t.id
    ensures forall a :: Boton(a, t.id) in r <==> Conectado(p, a) && Sucesor(t.estado, Destino(a))
    ensures |r| <= 2
    ensures forall i, j :: 0 <= i < j < |r| ==> Rango(r[i].accion) < Rango(r[j].accion)
  {
    (if t.estado == Esperando && p.onIniciar then [Boton(Iniciar, t.id)] else [])
    + (if t.estado == EnAtencion && p.onCompletar then [Boton(Completar, t.id)] else [])
    + (if (t.estado == Esperando || t.estado == EnAtencion) && p.onCancelar then [Boton(Cancelar, t.id)] else [])
  }

  function RenderFila(t: Api.Turno, p: Props, formatear: (string, string) -> Option<string>): (f: Fila)
    ensures f.key == t.id && f.numero == t.numero && f.categoria == t.categoria
    ensures f.badgeClass == Helpers.ClaseDe(t.estado) && f.etiqueta == Helpers.EtiquetaDe(t.estado)
    ensures f.horaEstimada.Some? <==> t.horaEstimada.Some? && t.horaEstimada.value != ""
    ensures f.horaEstimada.Some? ==> f.horaEstimada.value == Helpers.FormatTime(t.horaEstimada, formatear)
    ensures f.acciones.Some? <==> MostrarAcciones(p)
    ensures f.acciones.Some? ==> f.acciones.value == Botones(t, p)
  {
    DesdeNombre(t.estado);
    Fila(t.id, t.numero, t.categoria,
         Helpers.EstadoBadgeClass(Nombre(t.estado)), Helpers.EstadoLabel(Nombre(t.estado)),
         if t.horaEstimada.Some? && t.horaEstimada.value != "" then Some(Helpers.FormatTime(t.horaEstimada, formatear)) else None,
         if MostrarAcciones(p) then Some(Botones(t, p)) else None)
  }

  /** `TurnoList`: the empty-list message, or exactly one row per ticket in input order. */
  function Render(turnos: seq<Api.Turno>, p: Props, formatear: (string, string) -> Option<string>): (v: Vista)
    ensures turnos == [] <==> v == Mensaje(SIN_TURNOS)
    ensures v.Lista? <==> turnos != []
    ensures v.Lista? ==> |v.filas| == |turnos|
    ensures v.Lista? ==> forall i :: 0 <= i < |turnos| ==> v.filas[i] == RenderFila(turnos[i], p, formatear)
  {
    if |turnos| == 0 then Mensaje(SIN_TURNOS)
    else Lista(seq(|turnos|, i requires 0 <= i < |turnos| => RenderFila(turnos[i], p, formatear)))
  }

  /** Every button of the view, row by row. */
  function BotonesDe(v: Vista): seq<Boton>
  {
    match v
    case Mensaje(_) => []
    case Lista(filas) => Aplanar(filas)
  }

  function Aplanar(filas: seq<Fila>): (r: seq<Boton>)
    ensures forall b :: b in r <==> exists i :: 0 <= i < |filas| && filas[i].acciones.Some? && b in filas[i].acciones.value
  {
    if filas == [] then []
    else
      var resto := Aplanar(filas[1..]);
      assert forall i :: 1 <= i < |filas| ==> filas[i] == filas[1..][i - 1];
      (if filas[0].acciones.Some? then filas[0].acciones.value else []) + resto
  }

  /** A button in a rendered list belongs to one of its tickets and is allowed for that ticket. */
  lemma {:induction false} BotonDeSuTurno(turnos: seq<Api.Turno>, p: Props, formatear: (string, string) -> Option<string>, b: Boton)
    requires b in BotonesDe(Render(turnos, p, formatear))
    ensures MostrarAcciones(p)
    ensures exists i :: 0 <= i < |turnos| && turnos[i].id == b.turnoId
              && Conectado(p, b.accion) && Sucesor(turnos[i].estado, Destino(b.accion))
  {
    var v := Render(turnos, p, formatear);
    var i :| 0 <= i < |v.filas| && v.filas[i].acciones.Some? && b in v.filas[i].acciones.value;
    assert v.filas[i] == RenderFila(turnos[i], p, formatear);
    assert b == Boton(b.accion, turnos[i].id);
  }

  /** Every button of a rendered list calls a handler that was passed. */
  lemma BotonesConectados(turnos: seq<Api.Turno>, p: Props, formatear: (string, string) -> Option<string>)
    ensures forall b :: b in BotonesDe(Render(turnos, p, formatear)) ==> Conectado(p, b.accion)
  {
    forall b | b in BotonesDe(Render(turnos, p, formatear)) ensures Conectado(p, b.accion) {
      BotonDeSuTurno(turnos, p, formatear, b);
    }
  }

  /**
   * With actions shown and `onCancelar` passed, every row has an actions
   * block, and it offers Cancelar exactly when the ticket is still open.
   */
  lemma CancelarEnFilas(turnos: seq<Api.Turno>, p: Props, formatear: (string, string) -> Option<string>)
    requires p.onCancelar && MostrarAcciones(p)
    ensures var v := Render(turnos, p, formatear);
      v.Lista? ==> forall i :: 0 <= i < |turnos| ==>
        && v.filas[i].acciones.Some?
        && (Boton(Cancelar, turnos[i].id) in v.filas[i].acciones.value <==> !Terminal(turnos[i].estado))
  {
    var v := Render(turnos, p, formatear);
    if v.Lista? {
      forall i | 0 <= i < |turnos|
        ensures v.filas[i].acciones.Some?
        ensures Boton(Cancelar, turnos[i].id) in v.filas[i].acciones.value <==> !Terminal(turnos[i].estado)
      {
        assert v.filas[i] == RenderFila(turnos[i], p, formatear);
        assert Boton(Cancelar, turnos[i].id) in Botones(turnos[i], p) <==> Sucesor(turnos[i].estado, Cancelado);
      }
    }
  }

  /** Without `showActions` (its default) no row has an actions block. */
  lemma SinAccionesPorDefecto(turnos: seq<Api.Turno>, onIniciar: bool, onCompletar: bool, onCancelar: bool,
                              formatear: (string, string) -> Option<string>)
    ensures var v := Render(turnos, Props(onIniciar, onCompletar, onCancelar, None), formatear);
      (v.Lista? ==> forall i :: 0 <= i < |v.filas| ==> v.filas[i].acciones.None?) && BotonesDe(v) == []
  {
    var v := Render(turnos, Props(onIniciar, onCompletar, onCancelar, None), formatear);
    if v.Lista? {
      assert forall i :: 0 <= i < |v.filas| ==> v.filas[i].acciones.None?;
      var b := BotonesDe(v);
      if b != [] {
        assert b[0] in b;
      }
    }
  }

  /** A completed or cancelled ticket never gets a button; an open ticket never gets both Iniciar and Completar. */
  lemma BotonesSegunEstado(t: Api.Turno, p: Props)
    ensures Terminal(t.estado) ==> Botones(t, p) == []
    ensures !(Boton(Iniciar, t.id) in Botones(t, p) && Boton(Completar, t.id) in Botones(t, p))
  {
  }
}
