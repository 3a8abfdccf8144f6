/**
 * What the login and register mutations do when the server answers: the
 * session to store, the route to go to, the toast to show, and the server's
 * per-field messages to put on the form. Toasts and navigation are returned
 * as effects, in the order the handlers perform them.
 */
module AuthFlow {
  import opened Wrappers

  /** The error body the handlers receive: a message and, optionally, messages per field. */
  datatype ApiError = ApiError(message: Option<string>, errors: Option<map<string, seq<string>>>)

  datatype Effect =
    | StoreSession(token: string, user: string)
    | Navigate(to: string)
    | ToastSuccess(text: string)
    | ToastError(text: string)
    | SetFieldErrors(errors: map<string, seq<string>>)

  const MySavingsRoute := "/my-savings"
  const AdminRoute := "/admin"
  const LoginRoute := "/login"

  /** Where a signed-in user of role `role` is sent, if anywhere. */
  function Destination(role: string): (r: Option<string>)
    ensures role == "colleague" <==> r == Some("/my-savings")
    ensures role == "admin" <==> r == Some("/admin")
    ensures r.None? <==> role != "colleague" && role != "admin"
  {
    if role == "colleague" then Some(MySavingsRoute)
    else if role == "admin" then Some(AdminRoute)
    else None
  }

  function OnLoginSuccess(token: string, user: string, role: string): seq<Effect> {
    [StoreSession(token, user)]
    + (match Destination(role) case Some(route) => [Navigate(route)] case None => [])
    + [ToastSuccess("Login successful!")]
  }

  /**
   * A successful login stores the session first, navigates at most once and
   * only after that, to the role's route, and ends with the success toast.
   */
  lemma LoginSuccessOrder(token: string, user: string, role: string)
    ensures var effects := OnLoginSuccess(token, user, role);
            && effects[0] == StoreSession(token, user)
            && effects[|effects| - 1] == ToastSuccess("Login successful!")
            && (forall i :: 0 <= i < |effects| && effects[i].Navigate? ==> i > 0 && Destination(role) == Some(effects[i].to))
            && ((exists i :: 0 <= i < |effects| && effects[i].Navigate?) <==> Destination(role).Some?)
  {
    var effects := OnLoginSuccess(token, user, role);
    if Destination(role).Some? {
      assert effects[1].Navigate?;
    }
  }

  function OnRegisterSuccess(): seq<Effect> {
    [ToastSuccess("Registration successful!"), Navigate(LoginRoute)]
  }

  /**
   * A successful registration does not sign in: it stores no session, and its
   * one navigation, the last effect, goes to the login page.
   */
  lemma RegisterSuccessGoesToLogin()
    ensures forall e :: e in OnRegisterSuccess() ==> !e.StoreSession?
    ensures forall i :: 0 <= i < |OnRegisterSuccess()| && OnRegisterSuccess()[i].Navigate? ==>
              i == |OnRegisterSuccess()| - 1 && OnRegisterSuccess()[i].to == "/login"
    ensures OnRegisterSuccess()[|OnRegisterSuccess()| - 1] == Navigate("/login")
  {
  }

  function OnRegisterError(error: ApiError): seq<Effect> {
    match error.errors
    case Some(errs) => [SetFieldErrors(errs)]
    case None => []
  }

  function OnLoginError(error: ApiError): seq<Effect> {
    match error.errors
    case Some(errs) => [SetFieldErrors(errs)]
    case None => [ToastError(LoginFailureText(error.message))]
  }

  /** `error.message || 'Login failed'`. */
  function LoginFailureText(message: Option<string>): (r: string)
    ensures r != ""
    ensures message.Some? && message.value != "" ==> r == message.value
  {
    if message.Some? && message.value != "" then message.value else "Login failed"
  }

  /**
   * A failed login with per-field messages marks the form and shows no toast;
   * without them it shows exactly one error toast, never empty. A failed
   * registration without per-field messages does nothing.
   */
  lemma ErrorReactions(error: ApiError)
    ensures error.errors.Some? ==> OnLoginError(error) == OnRegisterError(error) == [SetFieldErrors(error.errors.value)]
    ensures error.errors.None? ==> |OnLoginError(error)| == 1 && OnLoginError(error)[0].ToastError? && OnLoginError(error)[0].text != ""
    ensures error.errors.None? ==> OnRegisterError(error) == []
  {
  }

  /** `messages.join(sep)`. */
  function Join(messages: seq<string>, sep: string): (r: string)
    ensures |messages| == 0 ==> r == ""
    ensures |messages| > 0 ==> |r| == TotalLength(messages) + |sep| * (|messages| - 1)
    ensures |messages| > 0 ==> messages[0] <= r
  {
    if |messages| == 0 then ""
    else if |messages| == 1 then messages[0]
    else messages[0] + sep + Join(messages[1..], sep)
  }

  function TotalLength(messages: seq<string>): nat {
    if |messages| == 0 then 0 else |messages[0]| + TotalLength(messages[1..])
  }

  /** Joining one more message appends the separator and that message. */
  lemma {:induction false} JoinSnoc(messages: seq<string>, m: string, sep: string)
    requires |messages| > 0
    ensures Join(messages + [m], sep) == Join(messages, sep) + sep + m
  {
    if |messages| > 1 {
      assert (messages + [m])[1..] == messages[1..] + [m];
      JoinSnoc(messages[1..], m, sep);
    } else {
      assert (messages + [m])[1..] == [m];
    }
  }

  const FieldSeparator := ", "

  /** The message each field ends up with: its server messages joined with ", ". */
  function FieldMessages(errors: map<string, seq<string>>): (r: map<string, string>)
    ensures r.Keys == errors.Keys
    ensures forall f :: f in errors ==> r[f] == Join(errors[f], FieldSeparator)
  {
    map f | f in errors :: Join(errors[f], FieldSeparator)
  }

  /**
   * A form whose handled fields carry their joined server messages and whose
   * other fields are as before is the old form overlaid with the server's map.
   */
  lemma OverlaidPointwise(m: map<string, string>, base: map<string, string>, errors: map<string, seq<string>>)
    requires forall f :: f in errors ==> f in m && m[f] == Join(errors[f], FieldSeparator)
    requires forall f :: f !in errors ==> (f in m <==> f in base) && (f in m ==> m[f] == base[f])
    ensures m == base + FieldMessages(errors)
  {
  }

  /** The form's error state that `setError` writes into. */
  class FormErrors {
    var messages: map<string, string>

    constructor()
      ensures messages == map[]
    {
      messages := map[];
    }

    /** `setError(field, { type: 'server', message })`. */
    method SetError(field: string, message: string)
      modifies this
      ensures messages == old(messages)[field := message]
    {
      messages := messages[field := message];
    }

    /**
     * `Object.entries(errors).forEach(([field, messages]) => setError(...))`:
     * every field of the server's map gets its joined messages, every other
     * field keeps its message.
     */
    method ApplyServerErrors(errors: map<string, seq<string>>)
      modifies this
      ensures messages == old(messages) + FieldMessages(errors)
    {
      var pending := errors.Keys;
      while pending != {}
        invariant pending <= errors.Keys
        invariant forall f :: f in errors && f !in pending ==> f in messages && messages[f] == Join(errors[f], FieldSeparator)
        invariant forall f :: (f !in errors || f in pending) ==>
                    (f in messages <==> f in old(messages)) && (f in messages ==> messages[f] == old(messages)[f])
        decreases pending
      {
        var field :| field in pending;
        SetError(field, Join(errors[field], FieldSeparator));
        pending := pending - {field};
      }
      OverlaidPointwise(messages, old(messages), errors);
    }
  }
}
