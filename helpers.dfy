/**
 * Display helpers of the React frontend (frontend/src/utils/helpers.ts): the
 * badge class and label of a state string, and the null and failure branches
 * of the two date formatters.
 */
module Helpers {
  import opened Wrappers
  import opened Estados

  const NO_DISPONIBLE := "N/A"
  const CLASE_POR_DEFECTO := "bg-secondary"
  const PATRON_HORA := "HH:mm"
  const PATRON_FECHA_HORA := "dd/MM/yyyy HH:mm"

  const CLASES: map<string, string> :=
    map["esperando" := "bg-primary", "en_atencion" := "bg-success",
        "completado" := "bg-info", "cancelado" := "bg-danger"]

  const ETIQUETAS: map<string, string> :=
    map["esperando" := "En Espera", "en_atencion" := "En Atención",
        "completado" := "Completado", "cancelado" := "Cancelado"]

  /** `record[key] || fallback`: a missing key, or an empty (falsy) value, gives the fallback. */
  function BuscarO(tabla: map<string, string>, clave: string, porDefecto: string): string
  {
    if clave in tabla && tabla[clave] != "" then tabla[clave] else porDefecto
  }

  /** The badge colour each state is meant to have. */
  function ClaseDe(e: Estado): string
  {
    match e
    case Esperando => "bg-primary"
    case EnAtencion => "bg-success"
    case Completado => "bg-info"
    case Cancelado => "bg-danger"
  }

  /** The Spanish label each state is meant to have. */
  function EtiquetaDe(e: Estado): string
  {
    match e
    case Esperando => "En Espera"
    case EnAtencion => "En Atención"
    case Completado => "Completado"
    case Cancelado => "Cancelado"
  }

  /** `getEstadoBadgeClass`. */
  function EstadoBadgeClass(estado: string): (r: string)
    ensures Desde(estado).Some? ==> r == ClaseDe(Desde(estado).value)
    ensures Desde(estado).None? ==> r == CLASE_POR_DEFECTO
  {
    BuscarO(CLASES, estado, CLASE_POR_DEFECTO)
  }

  /** `getEstadoLabel`: an unknown state is shown as the raw string. */
  function EstadoLabel(estado: string): (r: string)
    ensures Desde(estado).Some? ==> r == EtiquetaDe(Desde(estado).value)
    ensures Desde(estado).None? ==> r == estado
  {
    BuscarO(ETIQUETAS, estado, estado)
  }

  /**
   * The four states have four different badge classes, none of them the
   * fallback, so the badge identifies a known state.
   */
  lemma ClasesDistinguenEstados(e1: Estado, e2: Estado)
    ensures EstadoBadgeClass(Nombre(e1)) != CLASE_POR_DEFECTO
    ensures EstadoBadgeClass(Nombre(e1)) == EstadoBadgeClass(Nombre(e2)) <==> e1 == e2
  {
    DesdeNombre(e1);
    DesdeNombre(e2);
  }

  /** The four states have four different labels. */
  lemma EtiquetasDistinguenEstados(e1: Estado, e2: Estado)
    ensures EstadoLabel(Nombre(e1)) == EstadoLabel(Nombre(e2)) <==> e1 == e2
  {
    DesdeNombre(e1);
    DesdeNombre(e2);
  }

  /**
   * The shared shape of `formatTime` and `formatDateTime`: "N/A" for a null or
   * empty string, and "N/A" when the date library throws (`formatear` returns
   * None); otherwise the library's text.
   */
  function Formatear(fecha: Option<string>, patron: string,
                     formatear: (string, string) -> Option<string>): (r: string)
    ensures fecha.None? || fecha == Some("") ==> r == NO_DISPONIBLE
    ensures fecha.Some? && fecha.value != "" && formatear(fecha.value, patron).None? ==> r == NO_DISPONIBLE
    ensures r != NO_DISPONIBLE ==> fecha.Some? && formatear(fecha.value, patron) == Some(r)
    ensures fecha.Some? && fecha.value != "" && formatear(fecha.value, patron).Some? ==>
              r == formatear(fecha.value, patron).value
  {
    if fecha.None? || fecha.value == "" then NO_DISPONIBLE
    else match formatear(fecha.value, patron)
      case None => NO_DISPONIBLE
      case Some(texto) => texto
  }

  /** `formatTime`: the library's "HH:mm" rendering, or "N/A". */
  function FormatTime(fecha: Option<string>, formatear: (string, string) -> Option<string>): (r: string)
    ensures fecha.None? || fecha == Some("") ==> r == NO_DISPONIBLE
    ensures fecha.Some? && fecha.value != "" ==>
              r == (match formatear(fecha.value, PATRON_HORA) case Some(texto) => texto case None => NO_DISPONIBLE)
  {
    Formatear(fecha, PATRON_HORA, formatear)
  }

  /** `formatDateTime`: the library's "dd/MM/yyyy HH:mm" rendering, or "N/A". */
  function FormatDateTime(fecha: Option<string>, formatear: (string, string) -> Option<string>): (r: string)
    ensures fecha.None? || fecha == Some("") ==> r == NO_DISPONIBLE
    ensures fecha.Some? && fecha.value != "" ==>
              r == (match formatear(fecha.value, PATRON_FECHA_HORA) case Some(texto) => texto case None => NO_DISPONIBLE)
  {
    Formatear(fecha, PATRON_FECHA_HORA, formatear)
  }
}
