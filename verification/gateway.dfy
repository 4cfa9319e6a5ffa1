/**
 * The HTTP client of src/services/BitCraftAPI.ts reduced to what the getters
 * observe: which request they issue, and what reading `response.data.data`
 * yields once the response interceptor has run.
 *
 * A payload `data: Option<T>` is `None` for every falsy JSON value (null,
 * absent, false, 0, ""); every object or array, even an empty one, is truthy
 * and is `Some`.
 */
module Gateway {
  import opened Wrappers

  /** `response.data`: an `{success, data}` envelope, or nothing at all (null or undefined). */
  datatype Body<T> = Envelope(success: bool, data: Option<T>) | NoBody

  /** How one request ends before the interceptor: a resolved response, or a rejection (network error, non-2xx status). */
  datatype Exchange<T> = Answered(body: Body<T>) | Rejected(reason: string)

  /** A query-string value; `Omitted` is an `undefined` parameter, which the client leaves out. */
  datatype Param = Text(text: string) | Number(value: int) | Omitted

  datatype QueryParam = QueryParam(name: string, value: Param)

  /** A request as the façade issues it, relative to the configured base URL. */
  datatype Request =
    | Get(path: string, query: seq<QueryParam>)
    | Post(path: string, fields: seq<(string, string)>)

  /** The value of the named query parameter, `Omitted` when the request does not carry it. */
  function ParamOf(req: Request, name: string): Param {
    if req.Get? then Lookup(req.query, name) else Omitted
  }

  function Lookup(query: seq<QueryParam>, name: string): Param {
    if query == [] then Omitted
    else if query[0].name == name then query[0].value
    else Lookup(query[1..], name)
  }

  /**
   * The response interceptor: a resolved response passes through, and every
   * rejection is turned into a resolved `{success: true, data: null}`.
   */
  function Intercept<T>(ex: Exchange<T>): (b: Body<T>)
    ensures ex.Rejected? ==> b == Envelope(true, None)
    ensures ex.Answered? ==> b == ex.body
  {
    match ex
    case Answered(body) => body
    case Rejected(_) => Envelope(true, None)
  }

  /** What evaluating `response.data.data` does: yields the payload, or throws because `response.data` is null. */
  datatype Read<T> = Payload(data: Option<T>) | Throws

  function ReadPayload<T>(ex: Exchange<T>): Read<T> {
    match Intercept(ex)
    case Envelope(_, data) => Payload(data)
    case NoBody => Throws
  }

  /** The server answered with an envelope whose payload is truthy. */
  predicate Delivers<T>(ex: Exchange<T>) {
    ex.Answered? && ex.body.Envelope? && ex.body.data.Some?
  }

  /**
   * The shape every getter shares:
   * `try { return response.data.data || fallback } catch { return caught }`.
   * Stated against the raw exchange: live data whenever the server delivered
   * a truthy payload, whatever its `success` flag; `caught` only for an
   * answer without a body; `fallback` in every other case, rejections
   * included.
   */
  function Resolve<T>(ex: Exchange<T>, fallback: T, caught: T): (r: T)
    ensures Delivers(ex) ==> r == ex.body.data.value
    ensures ex == Answered(NoBody) ==> r == caught
    ensures !Delivers(ex) && ex != Answered(NoBody) ==> r == fallback
  {
    match ReadPayload(ex)
    case Payload(data) => data.GetOr(fallback)
    case Throws => caught
  }

  /** A rejected request never reaches a getter's `catch`: the interceptor routes it to the `||` fallback. */
  lemma RejectionReachesFallback<T>(reason: string, fallback: T, caught: T)
    ensures ReadPayload<T>(Rejected(reason)) == Payload(None)
    ensures Resolve(Rejected(reason), fallback, caught) == fallback
  {
  }
}
