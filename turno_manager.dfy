/**
 * The admin panel (frontend/src/components/admin/TurnoManager.tsx): two ticket
 * lists, "En Atención" and "En Espera", each passed through unchanged with its
 * own handlers and actions enabled.
 */
module TurnoManager {
  import opened Wrappers
  import opened Estados
  import Api
  import TurnoList

  datatype Paneles = Paneles(enAtencion: TurnoList.Vista, enEspera: TurnoList.Vista)

  /** "En Atención" wires `onCompletar` and `onCancelar`. */
  const PROPS_EN_ATENCION := TurnoList.Props(false, true, true, Some(true))

  /** "En Espera" wires `onIniciar` and `onCancelar`. */
  const PROPS_EN_ESPERA := TurnoList.Props(true, false, true, Some(true))

  /**
   * The two panels. Each lists its own tickets, one row each, with actions
   * shown; "En Atención" never offers Iniciar and "En Espera" never offers
   * Completar, whatever the lists hold.
   */
  function Render(turnosEsperando: seq<Api.Turno>, turnosEnAtencion: seq<Api.Turno>,
                  formatear: (string, string) -> Option<string>): (r: Paneles)
    ensures r.enAtencion.Lista? ==> |r.enAtencion.filas| == |turnosEnAtencion|
    ensures r.enEspera.Lista? ==> |r.enEspera.filas| == |turnosEsperando|
    ensures r.enAtencion.Lista? <==> turnosEnAtencion != []
    ensures r.enEspera.Lista? <==> turnosEsperando != []
    ensures r.enAtencion.Lista? ==> forall i :: 0 <= i < |turnosEnAtencion| ==>
              r.enAtencion.filas[i] == TurnoList.RenderFila(turnosEnAtencion[i], PROPS_EN_ATENCION, formatear)
    ensures r.enEspera.Lista? ==> forall i :: 0 <= i < |turnosEsperando| ==>
              r.enEspera.filas[i] == TurnoList.RenderFila(turnosEsperando[i], PROPS_EN_ESPERA, formatear)
    ensures r.enAtencion.Lista? ==> forall i :: 0 <= i < |turnosEnAtencion| ==>
              && r.enAtencion.filas[i].acciones.Some?
              && (TurnoList.Boton(Cancelar, turnosEnAtencion[i].id) in r.enAtencion.filas[i].acciones.value
                  <==> !Terminal(turnosEnAtencion[i].estado))
    ensures r.enEspera.Lista? ==> forall i :: 0 <= i < |turnosEsperando| ==>
              && r.enEspera.filas[i].acciones.Some?
              && (TurnoList.Boton(Cancelar, turnosEsperando[i].id) in r.enEspera.filas[i].acciones.value
                  <==> !Terminal(turnosEsperando[i].estado))
    ensures forall b :: b in TurnoList.BotonesDe(r.enAtencion) ==> b.accion != Iniciar
    ensures forall b :: b in TurnoList.BotonesDe(r.enEspera) ==> b.accion != Completar
  {
    TurnoList.BotonesConectados(turnosEnAtencion, PROPS_EN_ATENCION, formatear);
    TurnoList.BotonesConectados(turnosEsperando, PROPS_EN_ESPERA, formatear);
    TurnoList.CancelarEnFilas(turnosEnAtencion, PROPS_EN_ATENCION, formatear);
    TurnoList.CancelarEnFilas(turnosEsperando, PROPS_EN_ESPERA, formatear);
    Paneles(TurnoList.Render(turnosEnAtencion, PROPS_EN_ATENCION, formatear),
            TurnoList.Render(turnosEsperando, PROPS_EN_ESPERA, formatear))
  }

  /**
   * Each row's buttons follow that ticket's own state: in either panel a
   * waiting or in-service ticket can be cancelled; a waiting ticket can be
   * started only from "En Espera", an in-service one completed only from
   * "En Atención"; a closed ticket shows nothing in either.
   */
  lemma BotonesPorFila(t: Api.Turno)
    ensures var atencion := TurnoList.Botones(t, PROPS_EN_ATENCION);
            var espera := TurnoList.Botones(t, PROPS_EN_ESPERA);
      && (TurnoList.Boton(Cancelar, t.id) in atencion <==> !Terminal(t.estado))
      && (TurnoList.Boton(Cancelar, t.id) in espera <==> !Terminal(t.estado))
      && (TurnoList.Boton(Iniciar, t.id) in espera <==> t.estado == Esperando)
      && (TurnoList.Boton(Completar, t.id) in atencion <==> t.estado == EnAtencion)
      && (t.estado == Esperando ==> atencion == [TurnoList.Boton(Cancelar, t.id)])
      && (t.estado == EnAtencion ==> espera == [TurnoList.Boton(Cancelar, t.id)])
  {
  }
}
