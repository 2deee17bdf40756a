/**
 * The four ticket states. The backend stores them in the `estado` column
 * (app.py) and the frontend types `Turno.estado` as the union of the same four
 * strings (frontend/src/services/api.ts).
 */
module Estados {
  import opened Wrappers

  datatype Estado = Esperando | EnAtencion | Completado | Cancelado

  /** The string each state is stored and transmitted as. */
  function Nombre(e: Estado): string
  {
    match e
    case Esperando => "esperando"
    case EnAtencion => "en_atencion"
    case Completado => "completado"
    case Cancelado => "cancelado"
  }

  /** Reads a state string back; any other string is not a state. */
  function Desde(s: string): (r: Option<Estado>)
    ensures r.Some? ==> Nombre(r.value) == s
  {
    if s == "esperando" then Some(Esperando)
    else if s == "en_atencion" then Some(EnAtencion)
    else if s == "completado" then Some(Completado)
    else if s == "cancelado" then Some(Cancelado)
    else None
  }

  /** Every state survives the trip to its string and back, so the names are distinct. */
  lemma DesdeNombre(e: Estado)
    ensures Desde(Nombre(e)) == Some(e)
  {
  }

  lemma NombresDistintos(e1: Estado, e2: Estado)
    ensures Nombre(e1) == Nombre(e2) <==> e1 == e2
  {
    DesdeNombre(e1);
    DesdeNombre(e2);
  }

  /** The three actions on a ticket: start serving it, complete it, cancel it. */
  datatype Accion = Iniciar | Completar | Cancelar

  /**
   * The state an action puts a ticket in: the backend handlers write it and
   * the frontend's buttons ask for it.
   */
  function Destino(a: Accion): Estado
  {
    match a
    case Iniciar => EnAtencion
    case Completar => Completado
    case Cancelar => Cancelado
  }

  /**
   * The moves the frontend's buttons offer: waiting to in service to
   * completed, and cancel from either open state. The backend handlers do
   * not check them.
   */
  predicate Sucesor(de: Estado, a: Estado)
  {
    || (de == Esperando && a == EnAtencion)
    || (de == EnAtencion && a == Completado)
    || (de == Esperando && a == Cancelado)
    || (de == EnAtencion && a == Cancelado)
  }

  /** Completed and cancelled tickets have no successor. */
  predicate Terminal(e: Estado)
  {
    e == Completado || e == Cancelado
  }

  lemma TerminalSinSucesor(e: Estado)
    ensures Terminal(e) <==> forall a: Estado :: !Sucesor(e, a)
  {
    if !Terminal(e) {
      assert Sucesor(e, Cancelado);
    }
  }
}
