/** Session, records and page-level outcomes shared by the pages. Every page
    reads the logged-in user back from browser storage (an absent entry reads
    as an empty object) and talks to the server through an HTTP client; here
    the stored user is a value and every server response is an input. */
module Common {
  import opened Wrappers

  /** The stored user. A missing `id` is `None`; a missing `papel` is "". */
  datatype Usuario = Usuario(id: Option<int>, nome: string, papel: string)

  /** JavaScript truthiness of a numeric id: present and not 0. */
  predicate IdSet(id: Option<int>)
  {
    id.Some? && id.value != 0
  }

  /** Strict equality between an id field of a server record (absent = null)
      and the session user's id (absent = undefined): two absent ids never match. */
  predicate SameId(recordId: Option<int>, userId: Option<int>)
  {
    recordId.Some? && userId.Some? && recordId.value == userId.value
  }

  /** A page guard either lets the page load or navigates away. */
  datatype GuardOutcome = Proceed | Redirect(path: string)

  /** The path every page guard redirects to. */
  const LoginRedirect: string := "/login"

  /** A form submission either stops with an error message before any request
      or sends its payload. */
  datatype Submission<P> = Rejected(erro: string) | Sent(payload: P)

  /** The outcome of a request: success, or failure carrying the server's
      `error` field when the response had one. */
  datatype ApiOutcome = Ok | Failed(serverError: Option<string>)

  /** `err.response?.data?.error || fallback`: the server's message unless it is
      missing or empty. */
  function ErrorText(serverError: Option<string>, fallback: string): (msg: string)
    ensures serverError.Some? && serverError.value != "" ==> msg == serverError.value
    ensures serverError.None? || serverError.value == "" ==> msg == fallback
  {
    if serverError.Some? && serverError.value != "" then serverError.value else fallback
  }

  /** `response || []`: a missing list response reads as empty. A body that
      is present but not a list is kept by `||` (see `Corpo`). */
  function OrEmpty<T>(response: Option<seq<T>>): (s: seq<T>)
    ensures response.None? ==> s == []
    ensures response.Some? ==> s == response.value
  {
    response.GetOr([])
  }

  /** The body a list request delivered: a list, a falsy value (`null`,
      `undefined`, ...), or some other value that is not a list. */
  datatype Corpo<T> = Lista(itens: seq<T>) | Falsy | OutroValor

  /** What a list request produced: it threw (a network error), or it
      delivered a body. */
  datatype Resposta<T> = Falhou | Recebida(corpo: Corpo<T>)

  /** The list a body holds, `None` when it holds none. */
  function ListaDe<T>(c: Corpo<T>): (r: Option<seq<T>>)
    ensures r.Some? <==> c.Lista?
    ensures c.Lista? ==> r.value == c.itens
  {
    if c.Lista? then Some(c.itens) else None
  }

  /** The seconds-and-zone suffix the pages append to a minute-precision
      date-time field to make an ISO-8601 timestamp. */
  const IsoSeconds: string := ":00.000Z"

  /** An empty form field is sent as null. */
  function EmptyToNull(field: string): (r: Option<string>)
    ensures r.None? <==> field == ""
    ensures r.Some? ==> r.value == field
  {
    if field == "" then None else Some(field)
  }
}
