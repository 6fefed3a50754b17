/** What the axios interceptor and `ExceptionHandler` do with the replies of the two
    backend handlers. The axios
    interceptor of frontend/src/utils/ApiCall.js passes every reply whose HTTP status is
    outside 2xx to `ExceptionHandler`; the backend's error replies carry `{"error": text}`. */
module EndToEnd {
  import opened Wrappers
  import opened Auth
  import opened ExceptionHandler

  /** `response.data.error` for a backend reply body. */
  function ErrorFieldOf(b: Body): ErrorField {
    match b
    case Failure(text) => Plain(text)
    case Authenticated(_, _, _, _) => Absent
  }

  /** The frontend's reaction to a reply: none for a 2xx reply, otherwise the handler's. */
  function Deliver(r: Reply): (o: Option<Outcome>)
    ensures o.None? <==> 200 <= r.code < 300
    ensures r.body.Failure? && !(200 <= r.code < 300) ==>
      o == Some(Done([ShowToast(Text(r.body.error), Error)]))
  {
    if 200 <= r.code < 300 then None
    else Some(Handle(AxiosError(Some(Response(r.code, ErrorFieldOf(r.body))))))
  }

  /** Every error reply of the backend is shown as an error toast of its own text. */
  lemma BackendErrorsShownVerbatim(r: Reply)
    requires r in {ConnectionFailed, UserExists, InvalidCredentials}
    ensures Deliver(r) == Some(Done([ShowToast(Text(r.body.error), Error)]))
  {
    PlainShown(r.code, r.body.error);
  }

  /** The backend's 401 for bad credentials does not reach the session-expiry path: the
      handler looks for 401 inside `data.error`, where the backend puts only a string. */
  lemma InvalidCredentialsIsNotSessionExpiry()
    ensures Deliver(InvalidCredentials) != Some(Done(AuthErrorEffects))
    ensures Deliver(InvalidCredentials) == Some(Done([ShowToast(Text("Invalid credentials!"), Error)]))
  {
    PlainShown(401, "Invalid credentials!");
  }

  /** Whatever login answers, the axios interceptor and `ExceptionHandler` either let it
      through or show an error toast carrying the backend's text; they never log the user out.
      What the calling component does afterwards is not part of this model. */
  method LoginAsSeen(t: UserTable, connected: bool, email: string, password: string,
                     now: int, secret: string) returns (r: Reply, seen: Option<Outcome>)
    ensures r.code == 200 ==> seen.None?
    ensures r.code != 200 ==>
      r.body.Failure? && seen == Some(Done([ShowToast(Text(r.body.error), Error)]))
  {
    r := t.Login(connected, email, password, now, secret);
    seen := Deliver(r);
    if r.code != 200 {
      BackendErrorsShownVerbatim(r);
    }
  }
}
