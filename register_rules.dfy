/** The validated registration form: a rule list per field, checked before the
    form may submit, and the request it then sends. */
module RegisterRules {
  import opened Base
  import Auth

  // ------------------------------------------------------ the phone pattern

  /** One position of an anchored pattern without repetition operators. */
  datatype CharClass = Exactly(c: char) | Between(lo: char, hi: char)

  predicate InClass(k: CharClass, c: char)
  {
    if k.Exactly? then c == k.c else k.lo <= c && c <= k.hi
  }

  /** The whole string matches the pattern, one character per position. */
  function Matches(p: seq<CharClass>, s: string): bool
  {
    if p == [] then s == []
    else s != [] && InClass(p[0], s[0]) && Matches(p[1..], s[1..])
  }

  /** A pattern of fixed positions matches exactly the strings of its length
      whose every character lies in its class. */
  lemma {:induction false} MatchesAt(p: seq<CharClass>, s: string)
    ensures Matches(p, s) <==> |s| == |p| && forall i :: 0 <= i < |p| ==> InClass(p[i], s[i])
  {
    if p != [] && s != [] {
      MatchesAt(p[1..], s[1..]);
      if |s| == |p| && forall i :: 0 <= i < |p| ==> InClass(p[i], s[i]) {
        forall i | 0 <= i < |p| - 1 ensures InClass(p[1..][i], s[1..][i]) {
          assert InClass(p[i + 1], s[i + 1]);
        }
      }
    }
  }

  /** `/^1[3-9]\d{9}$/`; `\d` is `[0-9]` for a pattern without the `u` flag. */
  const PhonePattern: seq<CharClass> := [Exactly('1'), Between('3', '9')] + Repeat(Between('0', '9'), 9)

  /** `k{n}`: the class repeated `n` times. */
  function Repeat(k: CharClass, n: nat): (p: seq<CharClass>)
    ensures |p| == n && forall i :: 0 <= i < n ==> p[i] == k
  {
    if n == 0 then [] else [k] + Repeat(k, n - 1)
  }

  /** A phone number is eleven digits, the first `1` and the second one of 3 to 9. */
  lemma PhonePatternMeans(s: string)
    ensures Matches(PhonePattern, s) <==>
      |s| == 11 && s[0] == '1' && '3' <= s[1] <= '9' && forall i :: 2 <= i < 11 ==> IsDigit(s[i])
  {
    MatchesAt(PhonePattern, s);
    if |s| == 11 && s[0] == '1' && '3' <= s[1] <= '9' && forall i :: 2 <= i < 11 ==> IsDigit(s[i]) {
      forall i | 0 <= i < |PhonePattern| ensures InClass(PhonePattern[i], s[i]) {
        if i >= 2 { assert IsDigit(s[i]); }
      }
    }
    if Matches(PhonePattern, s) {
      forall i | 2 <= i < 11 ensures IsDigit(s[i]) {
        assert InClass(PhonePattern[i], s[i]);
      }
    }
  }

  // ------------------------------------------------------------ the rules

  const NameRequired := "请输入您的姓名!"
  const PhoneRequired := "请输入您的手机号!"
  const PhoneFormat := "手机号格式不正确!"
  const PasswordRequired := "请输入您的密码!"
  const PasswordTooShort := "密码至少为6位!"
  const ConfirmRequired := "请再次输入您的密码!"
  const ConfirmMismatch := "两次输入的密码不匹配!"
  const RoleRequired := "请选择您的身份!"

  const MinPasswordLength := 6

  /** The values of the select's options. */
  const RoleOptions: seq<string> := [Auth.Student, Auth.Teacher]

  /** The form's values; a field never touched is `undefined`. */
  datatype Values = Values(
    name: Option<string>, phone: Option<string>, password: Option<string>,
    confirm: Option<string>, role: Option<string>)

  /** A `required` rule passes. */
  predicate Filled(v: Option<string>)
  {
    v.Some? && v.value != ""
  }

  /** The messages of a field's failing rules: `required`, and then the
      format rule, which only runs on a filled field. */
  function FieldErrors(v: Option<string>, required: string, formatOk: bool, format: string): (errs: seq<string>)
    ensures errs == [] <==> Filled(v) && formatOk
    ensures !Filled(v) ==> errs == [required]
  {
    if !Filled(v) then [required] else if !formatOk then [format] else []
  }

  /** The confirmation's own validator: an empty value passes it (the
      `required` rule rejects it), any other must equal the password. */
  predicate ConfirmValidator(value: Option<string>, password: Option<string>)
  {
    !Filled(value) || password == value
  }

  function NameErrors(vs: Values): seq<string>
  {
    FieldErrors(vs.name, NameRequired, true, "")
  }

  function PhoneErrors(vs: Values): seq<string>
  {
    FieldErrors(vs.phone, PhoneRequired, Matches(PhonePattern, vs.phone.GetOr("")), PhoneFormat)
  }

  function PasswordErrors(vs: Values): seq<string>
  {
    FieldErrors(vs.password, PasswordRequired, |vs.password.GetOr("")| >= MinPasswordLength, PasswordTooShort)
  }

  function ConfirmErrors(vs: Values): seq<string>
  {
    FieldErrors(vs.confirm, ConfirmRequired, ConfirmValidator(vs.confirm, vs.password), ConfirmMismatch)
  }

  function RoleErrors(vs: Values): seq<string>
  {
    FieldErrors(vs.role, RoleRequired, true, "")
  }

  /** Every rule of every field passes; only then does the form call `onFinish`. */
  predicate Accepted(vs: Values)
  {
    NameErrors(vs) == [] && PhoneErrors(vs) == [] && PasswordErrors(vs) == []
    && ConfirmErrors(vs) == [] && RoleErrors(vs) == []
  }

  /** What acceptance means field by field. */
  lemma AcceptedMeans(vs: Values)
    ensures Accepted(vs) <==>
      && Filled(vs.name)
      && vs.phone.Some? && |vs.phone.value| == 11 && vs.phone.value[0] == '1'
      && '3' <= vs.phone.value[1] <= '9' && (forall i :: 2 <= i < 11 ==> IsDigit(vs.phone.value[i]))
      && vs.password.Some? && |vs.password.value| >= MinPasswordLength
      && vs.confirm == vs.password
      && Filled(vs.role)
  {
    PhonePatternMeans(vs.phone.GetOr(""));
  }

  /** An empty confirmation is reported once, by `required`, not as a mismatch. */
  lemma EmptyConfirmation(vs: Values)
    requires !Filled(vs.confirm)
    ensures ConfirmErrors(vs) == [ConfirmRequired]
  {
  }

  // ----------------------------------------------------------- the request

  /** `{ name, phone, password, role }` from the form's values. */
  function Payload(vs: Values): (p: Record)
    ensures p.Keys == {"name", "phone", "password", "role"}
    ensures p["name"] == vs.name.GetOr("") && p["phone"] == vs.phone.GetOr("")
    ensures p["password"] == vs.password.GetOr("") && p["role"] == vs.role.GetOr("")
  {
    map["name" := vs.name.GetOr(""), "phone" := vs.phone.GetOr(""),
        "password" := vs.password.GetOr(""), "role" := vs.role.GetOr("")]
  }

  /** The effect of pressing submit: the request sent and the navigation. */
  datatype Submission = Submission(payload: Record, navigate: Option<string>)

  /** The form submits only when accepted; `/login` follows a successful request only. */
  function Submit(vs: Values, response: Outcome<()>): (r: Option<Submission>)
    ensures r.Some? <==> Accepted(vs)
    ensures r.Some? ==> r.value.payload == Payload(vs)
    ensures r.Some? ==> (r.value.navigate.Some? <==> response.Ok?)
    ensures r.Some? && r.value.navigate.Some? ==> r.value.navigate.value == "/login"
  {
    if !Accepted(vs) then None
    else Some(Submission(Payload(vs), if response.Ok? then Some("/login") else None))
  }

  /** A role picked from the select is sent in canonical form, so the session
      keeps it as it is. */
  lemma SelectedRoleIsCanonical(vs: Values, k: nat)
    requires k < |RoleOptions| && vs.role == Some(RoleOptions[k])
    ensures Filled(vs.role)
    ensures Payload(vs)["role"] in {Auth.Student, Auth.Teacher}
    ensures Auth.NormaliseRole(Payload(vs)["role"]) == Payload(vs)["role"]
  {
  }
}
