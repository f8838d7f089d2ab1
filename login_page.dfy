/** The phone-and-password sign-in form: a field check, and on success the
    token and the user written to storage before going to `/`. */
module Login {
  import opened Base
  import AppRoutes

  const MissingFields := "请填写所有字段"
  /** The catch-all message, worded as in the registration form. */
  const NetworkFailure := "注册失败，请检查网络"

  const InitialForm: Record := map["phone" := "", "password" := ""]

  /** `res.data.data`: the issued token and the signed-in user. */
  datatype LoginData = LoginData(token: string, user: Record)

  /** `!form.phone || !form.password`. */
  predicate MissingField(form: Record)
  {
    !Truthy(Get(form, "phone")) || !Truthy(Get(form, "password"))
  }

  /** The error line after a submit whose request, if sent, had `response`. */
  function SubmitError(form: Record, response: Outcome<Reply<LoginData>>): (e: string)
    ensures MissingField(form) ==> e == MissingFields
    ensures !MissingField(form) && response.Ok? && response.data.success ==> e == ""
    ensures !MissingField(form) && response.Ok? && !response.data.success ==> e == response.data.message
    ensures !MissingField(form) && response.Fail? ==> e == NetworkFailure
  {
    if MissingField(form) then MissingFields
    else match response
      case Ok(reply) => if reply.success then "" else reply.message
      case Fail(_) => NetworkFailure
  }

  /** The storage a successful sign-in leaves: the token and the user written. */
  function SignedIn(s: Storage, data: LoginData): (r: Storage)
    ensures StoredToken(r) == Some(data.token) && StoredUser(r) == Some(data.user)
    ensures forall k :: k != TokenKey && k != UserKey ==> (k in r <==> k in s) && (k in s ==> r[k] == s[k])
  {
    PutUser(PutToken(s, data.token), data.user)
  }

  /** After signing in, the `/` the page navigates to is the home page of its
      route table, and the navigation bar, once it is read from the storage the
      sign-in leaves, offers the signed-in links, each of which opens a page. */
  lemma SignInFeedsSession(s: Storage, data: LoginData)
    ensures AppRoutes.ViewOf("/") == AppRoutes.HomeView
    ensures AppRoutes.NavLinks(SignedIn(s, data)) == [AppRoutes.ActivityPath, AppRoutes.OrdersPath, AppRoutes.ProfilePath]
    ensures forall i :: 0 <= i < |AppRoutes.NavLinks(SignedIn(s, data))| ==>
              !AppRoutes.ViewOf(AppRoutes.NavLinks(SignedIn(s, data))[i]).NoView?
  {
    AppRoutes.NavLinksLead(SignedIn(s, data));
  }

  class LoginPage {
    var form: Record
    var error: string
    var storage: Storage

    constructor (stored: Storage)
      ensures form == InitialForm && error == "" && storage == stored
    {
      form := InitialForm;
      error := "";
      storage := stored;
    }

    /** `handleChange`: only the named field changes. */
    method HandleChange(name: string, value: string)
      modifies this
      ensures form == SetField(old(form), name, value)
      ensures error == old(error) && storage == old(storage)
    {
      form := form[name := value];
    }

    /** `handleSubmit`: returns the credentials sent (if any) and where it navigated. */
    method HandleSubmit(response: Outcome<Reply<LoginData>>) returns (sent: Option<Record>, navigate: Option<string>)
      modifies this
      ensures form == old(form)
      ensures error == SubmitError(form, response)
      ensures sent.Some? <==> !MissingField(form)
      ensures sent.Some? ==> sent.value == form
      ensures navigate.Some? <==> sent.Some? && response.Ok? && response.data.success
      ensures navigate.Some? ==> navigate.value == "/" && storage == SignedIn(old(storage), response.data.data)
      ensures navigate.None? ==> storage == old(storage)
    {
      error := "";
      sent, navigate := None, None;
      if !Truthy(Get(form, "phone")) || !Truthy(Get(form, "password")) {
        error := MissingFields;
        return;
      }
      sent := Some(form);
      match response {
        case Ok(reply) =>
          if reply.success {
            storage := storage[TokenKey := Text(reply.data.token)];
            storage := storage[UserKey := Json(reply.data.user)];
            navigate := Some("/");
          } else {
            error := reply.message;
          }
        case Fail(_) =>
          error := NetworkFailure;
      }
    }
  }
}
