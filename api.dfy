/**
 * The HTTP client of the React frontend (frontend/src/services/api.ts): the
 * entity types it exchanges, and its two interceptors and `logout`, which read
 * and clear the browser's `localStorage` (a string map here) and may move the
 * browser to the login page.
 */
module Api {
  import opened Wrappers
  import opened Estados

  /** The `Turno` interface; dates are the backend's strings, opaque here. */
  datatype Turno = Turno(id: int, numero: int, categoriaId: int, categoria: string, estado: Estado,
                         fechaCreacion: string, horaEstimada: Option<string>,
                         horaInicio: Option<string>, horaFin: Option<string>)

  /** The part of an axios request config the interceptors touch. */
  datatype RequestConfig = RequestConfig(metodo: string, url: string, headers: map<string, string>)

  datatype Response = Response(status: int, data: string)

  /** An axios error; `status` is `error.response?.status`, None when no response arrived. */
  datatype ApiError = ApiError(status: Option<int>)

  /** How a promise settles. */
  datatype Settled<T> = Resolved(value: T) | Rejected(error: ApiError)

  const TOKEN := "token"
  const USER := "user"
  const AUTHORIZATION := "Authorization"
  const LOGIN := "/login"
  const HTTP_UNAUTHORIZED := 401

  /** `localStorage.getItem('token')` is truthy: present and not the empty string. */
  predicate TokenGuardado(almacen: map<string, string>)
  {
    TOKEN in almacen && almacen[TOKEN] != ""
  }

  /** The config the request interceptor passes on, given the stored items. */
  function ConBearer(almacen: map<string, string>, config: RequestConfig): (r: RequestConfig)
    ensures r.metodo == config.metodo && r.url == config.url
    ensures TokenGuardado(almacen) ==> r.headers == config.headers[AUTHORIZATION := "Bearer " + almacen[TOKEN]]
    ensures !TokenGuardado(almacen) ==> r == config
  {
    if TokenGuardado(almacen) then config.(headers := config.headers[AUTHORIZATION := "Bearer " + almacen[TOKEN]])
    else config
  }

  /** Storage after removing `token` and `user`; every other key keeps its value. */
  function SinCredenciales(almacen: map<string, string>): (r: map<string, string>)
    ensures r.Keys == almacen.Keys - {TOKEN, USER}
    ensures forall k :: k in r ==> r[k] == almacen[k]
  {
    almacen - {TOKEN, USER}
  }

  /** Once credentials are cleared, requests go out without a bearer header. */
  lemma TrasLimpiarSinBearer(almacen: map<string, string>, config: RequestConfig)
    ensures !TokenGuardado(SinCredenciales(almacen))
    ensures ConBearer(SinCredenciales(almacen), config) == config
  {
  }

  /** Clearing twice is clearing once. */
  lemma SinCredencialesIdempotente(almacen: map<string, string>)
    ensures SinCredenciales(SinCredenciales(almacen)) == SinCredenciales(almacen)
  {
  }

  class Navegador {
    var localStorage: map<string, string>
    var href: string

    constructor (almacen: map<string, string>, ubicacion: string)
      ensures localStorage == almacen && href == ubicacion
    {
      localStorage := almacen;
      href := ubicacion;
    }

    /** Request interceptor: add `Authorization: Bearer <token>` when a token is stored. */
    method AlEnviar(config: RequestConfig) returns (r: RequestConfig)
      ensures r == ConBearer(localStorage, config)
      ensures r.headers.Keys == if TokenGuardado(localStorage) then config.headers.Keys + {AUTHORIZATION} else config.headers.Keys
    {
      var token := if TOKEN in localStorage then Some(localStorage[TOKEN]) else None;
      r := config;
      if token.Some? && token.value != "" {
        r := r.(headers := r.headers[AUTHORIZATION := "Bearer " + token.value]);
      }
    }

    /** Request interceptor, failure branch: the error is passed on as a rejection. */
    method AlFallarEnvio(error: ApiError) returns (r: Settled<RequestConfig>)
      ensures r.Rejected? && r.error == error
    {
      r := Rejected(error);
    }

    /** Response interceptor, success branch: the response passes through. */
    method AlResponder(respuesta: Response) returns (r: Settled<Response>)
      ensures r.Resolved? && r.value == respuesta
    {
      r := Resolved(respuesta);
    }

    /** Response interceptor, failure branch: a 401 clears the credentials and goes to the login page. */
    method AlFallarRespuesta(error: ApiError) returns (r: Settled<Response>)
      modifies this
      ensures r == Rejected(error)
      ensures error.status == Some(HTTP_UNAUTHORIZED) ==>
                localStorage == SinCredenciales(old(localStorage)) && href == LOGIN
      ensures error.status != Some(HTTP_UNAUTHORIZED) ==>
                localStorage == old(localStorage) && href == old(href)
    {
      if error.status == Some(HTTP_UNAUTHORIZED) {
        localStorage := localStorage - {TOKEN};
        localStorage := localStorage - {USER};
        href := LOGIN;
      }
      r := Rejected(error);
    }

    /** `authAPI.logout`: remove `token` and `user`; always resolves. */
    method Logout() returns (r: Settled<()>)
      modifies this`localStorage
      ensures r == Resolved(())
      ensures localStorage == SinCredenciales(old(localStorage))
    {
      localStorage := localStorage - {TOKEN};
      localStorage := localStorage - {USER};
      r := Resolved(());
    }
  }
}
