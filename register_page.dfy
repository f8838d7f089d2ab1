/** The plain registration form: five fields, an error line, and a submit
    handler that checks the fields before it sends anything. */
module Registration {
  import opened Base
  import Auth

  const MissingFields := "请填写所有字段"
  const PasswordMismatch := "两次输入的密码不一致"
  const NetworkFailure := "注册失败，请检查网络"

  /** The fields that must all be filled in. */
  const Required: seq<string> := ["name", "phone", "password", "confirmPassword"]

  /** The fields the request carries. */
  const PayloadFields: set<string> := {"name", "phone", "password", "role"}

  /** The form on first render; the role select starts at `学生`. */
  const InitialForm: Record :=
    map["name" := "", "phone" := "", "password" := "", "confirmPassword" := "", "role" := Auth.StudentLabel]

  /** Some required field is empty (or absent, which reads as `undefined`). */
  predicate AnyEmpty(form: Record)
  {
    exists i :: 0 <= i < |Required| && !Truthy(Get(form, Required[i]))
  }

  /** `!form.name || !form.phone || !form.password || !form.confirmPassword`. */
  lemma AnyEmptyFields(form: Record)
    ensures AnyEmpty(form) <==> !Truthy(Get(form, "name")) || !Truthy(Get(form, "phone"))
                                || !Truthy(Get(form, "password")) || !Truthy(Get(form, "confirmPassword"))
  {
    if !Truthy(Get(form, "name")) { assert !Truthy(Get(form, Required[0])); }
    if !Truthy(Get(form, "phone")) { assert !Truthy(Get(form, Required[1])); }
    if !Truthy(Get(form, "password")) { assert !Truthy(Get(form, Required[2])); }
    if !Truthy(Get(form, "confirmPassword")) { assert !Truthy(Get(form, Required[3])); }
  }

  /** The checks of `handleSubmit`, in order: the first failing check's message. */
  function Check(form: Record): (e: Option<string>)
    ensures e == Some(MissingFields) <==> AnyEmpty(form)
    ensures e == Some(PasswordMismatch) <==> !AnyEmpty(form) && Get(form, "password") != Get(form, "confirmPassword")
    ensures e.None? <==> !AnyEmpty(form) && Get(form, "password") == Get(form, "confirmPassword")
  {
    AnyEmptyFields(form);
    if !Truthy(Get(form, "name")) || !Truthy(Get(form, "phone"))
       || !Truthy(Get(form, "password")) || !Truthy(Get(form, "confirmPassword"))
    then Some(MissingFields)
    else if Get(form, "password") != Get(form, "confirmPassword") then Some(PasswordMismatch)
    else None
  }

  /** `{ name, phone, password, role }`: never the confirmation. */
  function Payload(form: Record): (p: Record)
    ensures p.Keys == PayloadFields
    ensures "confirmPassword" !in p
    ensures forall k :: k in p ==> p[k] == Get(form, k)
  {
    map["name" := Get(form, "name"), "phone" := Get(form, "phone"),
        "password" := Get(form, "password"), "role" := Get(form, "role")]
  }

  /** With the initial form untouched, the request would carry role `学生`,
      which the session later reads as `student`. */
  lemma DefaultRole()
    ensures Payload(InitialForm)["role"] == Auth.StudentLabel
    ensures Auth.NormaliseRole(Payload(InitialForm)["role"]) == Auth.Student
  {
  }

  /** The error line after a submit whose request, if sent, had `response`. */
  function SubmitError(form: Record, response: Outcome<Reply<()>>): string
  {
    if Check(form).Some? then Check(form).value
    else match response
      case Ok(reply) => if reply.success then "" else reply.message
      case Fail(_) => NetworkFailure
  }

  /** When a check fails the error is its message whatever the server would say,
      and the check for empty fields wins over the mismatch. */
  lemma {:induction false} CheckedBeforeSending(form: Record, r1: Outcome<Reply<()>>, r2: Outcome<Reply<()>>)
    requires Check(form).Some?
    ensures SubmitError(form, r1) == SubmitError(form, r2) == Check(form).value != ""
    ensures AnyEmpty(form) ==> SubmitError(form, r1) == MissingFields
  {
    assert Check(form).value == MissingFields || Check(form).value == PasswordMismatch;
  }

  class RegisterPage {
    var form: Record
    var error: string

    constructor ()
      ensures form == InitialForm && error == ""
    {
      form := InitialForm;
      error := "";
    }

    /** `handleChange`: only the named field changes. */
    method HandleChange(name: string, value: string)
      modifies this
      ensures form == SetField(old(form), name, value) && error == old(error)
    {
      form := form[name := value];
    }

    /** `handleSubmit`: returns the request sent (if any) and where it navigated. */
    method HandleSubmit(response: Outcome<Reply<()>>) returns (sent: Option<Record>, navigate: Option<string>)
      modifies this
      ensures form == old(form)
      ensures error == SubmitError(form, response)
      ensures sent.Some? <==> Check(form).None?
      ensures sent.Some? ==> sent.value == Payload(form)
      ensures navigate.Some? <==> sent.Some? && response.Ok? && response.data.success
      ensures navigate.Some? ==> navigate.value == "/login"
    {
      error := "";
      sent, navigate := None, None;
      if !Truthy(Get(form, "name")) || !Truthy(Get(form, "phone"))
         || !Truthy(Get(form, "password")) || !Truthy(Get(form, "confirmPassword")) {
        error := MissingFields;
        return;
      }
      if Get(form, "password") != Get(form, "confirmPassword") {
        error := PasswordMismatch;
        return;
      }
      sent := Some(Payload(form));
      match response {
        case Ok(reply) =>
          if reply.success {
            navigate := Some("/login");
          } else {
            error := reply.message;
          }
        case Fail(_) =>
          error := NetworkFailure;
      }
    }
  }
}
