/** `ExceptionHandler(error)` of frontend/src/utils/ExceptionHandler.js, as a total function
    from the shape of an axios error to the effects the handler performs, in order.
    The handler destructures `status` and `message` out of `error.response.data.error`;
    the HTTP status of the response itself is never consulted. */
module ExceptionHandler {
  import opened Wrappers

  /** What `error.response.data.error` holds: nothing (`data` or `error` undefined or null),
      a string, or an object whose `status` (a number) and `message` (a string) may be missing.
      A `status` that is not a number compares unequal to every case, like a missing one. */
  datatype ErrorField =
    | Absent
    | Plain(text: string)
    | Record(status: Option<int>, message: Option<string>)

  /** An axios response: its HTTP status and the `data.error` it carries. */
  datatype Response = Response(httpStatus: int, error: ErrorField)

  /** An axios error; `response` is missing when no reply arrived. */
  datatype AxiosError = AxiosError(response: Option<Response>)

  /** The second argument of `Toast`. */
  datatype Kind = Success | Error

  /** The value handed to `Toast` as its text: a string, the `data.error` object itself,
      or the whole response object. */
  datatype Shown =
    | Text(text: string)
    | ErrorObject(status: Option<int>, message: Option<string>)
    | WholeResponse(response: Response)

  datatype Effect =
    | ShowToast(shown: Shown, kind: Kind)
    | RemoveItem(key: string)
    | Navigate(href: string)

  /** The handler either runs to the end, producing its effects, or throws before any effect. */
  datatype Outcome = Done(effects: seq<Effect>) | Raised(exception: string)

  const NoInternet: Effect := ShowToast(Text("No Internet Connection"), Error)

  /** `handleAuthError`: the toast, `localStorage.removeItem("token")`, then the redirect. */
  const AuthErrorEffects: seq<Effect> :=
    [ShowToast(Text("Your session has expired"), Success), RemoveItem("token"), Navigate("/")]

  /** The statuses the `switch` lists. */
  const KnownStatuses: set<int> := {403, 500, 503, 422, 405, 406, 404, 444, 400, 430, 413}

  /** The right-hand operand of `msg ?? …` in each case of the `switch`. */
  function DefaultShown(status: Option<int>, response: Response): Shown {
    match status
    case Some(403) => Text("This Role is restricted to access to this request.")
    case Some(500) => Text("Internal Server Error")
    case Some(503) => Text("Service Unavailable")
    case Some(422) => Text("Cannot Process Please Try Again")
    case Some(405) => Text("Not Found")
    case Some(406) => Text("Already Exist")
    case Some(404) => Text("API Not Found")
    case Some(444) => Text("Invalid Data")
    case Some(400) => Text("Bad Request")
    case Some(430) => WholeResponse(response)
    case Some(413) => Text("Payload Too Large")
    case _ => Text("Unknown Error")
  }

  /** `handleStatusCodeError(status, msg)`; `response` is the `error.response` it closes over. */
  function StatusCodeError(status: Option<int>, msg: Option<Shown>, response: Response): (e: Effect)
    ensures e.ShowToast? && e.kind == Error
    ensures msg.Some? ==> e.shown == msg.value
  {
    ShowToast(if msg.Some? then msg.value else DefaultShown(status, response), Error)
  }

  /** `message ?? error?.response?.data?.error`. */
  function Coalesce(message: Option<string>, field: ErrorField): Option<Shown> {
    match message
    case Some(m) => Some(Text(m))
    case None =>
      match field
      case Absent => None
      case Plain(s) => Some(Text(s))
      case Record(st, msg) => Some(ErrorObject(st, msg))
  }

  /** `ExceptionHandler(error)`. Destructuring an undefined `data.error` throws a TypeError. */
  function Handle(e: AxiosError): (o: Outcome)
    ensures e.response.None? ==> o == Done([NoInternet])
    ensures o.Raised? <==> e.response.Some? && e.response.value.error.Absent?
    ensures o == Done(AuthErrorEffects) <==>
      e.response.Some? && e.response.value.error.Record? && e.response.value.error.status == Some(401)
    ensures e.response.Some? && o.Done? && o != Done(AuthErrorEffects) ==>
      |o.effects| == 1 && o.effects[0].ShowToast? && o.effects[0].kind == Error
  {
    match e.response
    case None => Done([NoInternet])
    case Some(resp) =>
      match resp.error
      case Absent => Raised("TypeError")
      case Plain(_) =>
        Done([StatusCodeError(None, Coalesce(None, resp.error), resp)])
      case Record(status, message) =>
        if status == Some(401) then Done(AuthErrorEffects)
        else Done([StatusCodeError(status, Coalesce(message, resp.error), resp)])
  }

  /** With no message, each listed status shows its fixed text, 430 the response object. */
  lemma DefaultTexts(r: Response)
    ensures StatusCodeError(Some(403), None, r) == ShowToast(Text("This Role is restricted to access to this request."), Error)
    ensures StatusCodeError(Some(500), None, r) == ShowToast(Text("Internal Server Error"), Error)
    ensures StatusCodeError(Some(503), None, r) == ShowToast(Text("Service Unavailable"), Error)
    ensures StatusCodeError(Some(422), None, r) == ShowToast(Text("Cannot Process Please Try Again"), Error)
    ensures StatusCodeError(Some(405), None, r) == ShowToast(Text("Not Found"), Error)
    ensures StatusCodeError(Some(406), None, r) == ShowToast(Text("Already Exist"), Error)
    ensures StatusCodeError(Some(404), None, r) == ShowToast(Text("API Not Found"), Error)
    ensures StatusCodeError(Some(444), None, r) == ShowToast(Text("Invalid Data"), Error)
    ensures StatusCodeError(Some(400), None, r) == ShowToast(Text("Bad Request"), Error)
    ensures StatusCodeError(Some(430), None, r) == ShowToast(WholeResponse(r), Error)
    ensures StatusCodeError(Some(413), None, r) == ShowToast(Text("Payload Too Large"), Error)
  {
  }

  /** Any status the `switch` does not list, or none at all, falls to "Unknown Error". */
  lemma UnknownStatus(status: Option<int>, r: Response)
    requires status.None? || status.value !in KnownStatuses
    ensures StatusCodeError(status, None, r) == ShowToast(Text("Unknown Error"), Error)
  {
  }

  /** The session-expiry path produces no error toast: its only toast is of kind success. */
  lemma AuthPathHasNoErrorToast(k: nat)
    requires k < |AuthErrorEffects|
    ensures AuthErrorEffects[k].ShowToast? ==> AuthErrorEffects[k].kind == Success
  {
  }

  /** A record's message is shown as it is, whatever the status other than 401. */
  lemma MessageShown(http: int, status: Option<int>, m: string)
    requires status != Some(401)
    ensures Handle(AxiosError(Some(Response(http, Record(status, Some(m)))))) == Done([ShowToast(Text(m), Error)])
  {
  }

  /** A plain string in `data.error` is shown as it is: it has no `status`, so the 401 path
      is never taken for it. */
  lemma PlainShown(http: int, s: string)
    ensures Handle(AxiosError(Some(Response(http, Plain(s))))) == Done([ShowToast(Text(s), Error)])
  {
  }

  /** Because `msg` falls back to `data.error` itself, it is never nullish once the
      destructuring succeeds: no default text of the `switch` and never the 430 response
      object can be shown; a record without a message is shown as the object. */
  lemma DefaultsUnreachable(e: AxiosError, status: Option<int>)
    requires e.response.Some? && e.response.value.error == Record(status, None) && status != Some(401)
    ensures Handle(e) == Done([ShowToast(ErrorObject(status, None), Error)])
  {
  }

  lemma NeverWholeResponse(e: AxiosError, k: nat)
    requires Handle(e).Done? && k < |Handle(e).effects|
    ensures !(Handle(e).effects[k].ShowToast? && Handle(e).effects[k].shown.WholeResponse?)
  {
  }

  /** The outcome does not depend on the response's HTTP status. */
  lemma HttpStatusIgnored(h1: int, h2: int, f: ErrorField)
    ensures Handle(AxiosError(Some(Response(h1, f)))) == Handle(AxiosError(Some(Response(h2, f))))
  {
  }
}
