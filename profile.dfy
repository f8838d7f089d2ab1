/** The profile editor: a three-field form filled from the stored user, saved
    back into storage on success, and a logout that clears storage. */
module ProfilePage {
  import opened Base

  const UpdateDone := "更新成功！"
  const UpdateRefused := "更新失败"
  const LogoutRefused := "登出失败"
  const NetworkFailure := "请求失败，请检查网络。"

  /** The fields the form edits. */
  const ProfileFields: set<string> := {"name", "phone", "identity"}

  /** `JSON.parse(localStorage.getItem("user")) || {}`. */
  function UserOf(storage: Storage): Record
  {
    StoredUser(storage).GetOr(map[])
  }

  /** The form on first render: each field from the user, "" where it is missing. */
  function InitialForm(user: Record): (form: Record)
    ensures form.Keys == ProfileFields
    ensures forall k :: k in ProfileFields ==> form[k] == Get(user, k)
  {
    map["name" := OrElse(Get(user, "name"), ""), "phone" := OrElse(Get(user, "phone"), ""),
        "identity" := OrElse(Get(user, "identity"), "")]
  }

  /** `{ ...user, ...form }`: the form's fields win and every other field of the user stays. */
  function Merge(user: Record, form: Record): (updated: Record)
    ensures updated.Keys == user.Keys + form.Keys
    ensures forall k :: k in form ==> updated[k] == form[k]
    ensures forall k :: k in user && k !in form ==> updated[k] == user[k]
  {
    user + form
  }

  /** The saved profile, opened again, shows exactly the form that was saved. */
  lemma SavedFormReloads(user: Record, form: Record)
    requires form.Keys == ProfileFields
    ensures InitialForm(Merge(user, form)) == form
  {
    var reopened := InitialForm(Merge(user, form));
    assert forall k :: k in ProfileFields ==> reopened[k] == form[k];
  }

  /** Saving an unedited form changes no field the user had, and gives "" to
      the profile fields it lacked. */
  lemma UneditedSaveKeepsUser(user: Record)
    ensures forall k :: k in user ==> Merge(user, InitialForm(user))[k] == user[k]
    ensures forall k :: k in ProfileFields && k !in user ==> Merge(user, InitialForm(user))[k] == ""
  {
  }

  class Profile {
    var storage: Storage
    var form: Record
    var message: string

    constructor (stored: Storage)
      ensures storage == stored && form == InitialForm(UserOf(stored)) && message == ""
    {
      storage := stored;
      form := InitialForm(UserOf(stored));
      message := "";
    }

    /** `handleChange`: only the named field changes. */
    method HandleChange(name: string, value: string)
      modifies this
      ensures form == SetField(old(form), name, value)
      ensures storage == old(storage) && message == old(message)
    {
      form := form[name := value];
    }

    /** `handleUpdate`: the form is sent; on success the stored user becomes the
        user merged with the form, otherwise storage is left alone. */
    method HandleUpdate(response: Outcome<Reply<()>>) returns (sent: Record)
      modifies this
      ensures sent == form && form == old(form)
      ensures response.Ok? && response.data.success ==>
                storage == PutUser(old(storage), Merge(UserOf(old(storage)), form)) && message == UpdateDone
      ensures response.Ok? && !response.data.success ==>
                storage == old(storage) && message == OrElse(response.data.message, UpdateRefused)
      ensures response.Fail? ==> storage == old(storage) && message == NetworkFailure
    {
      sent := form;
      match response {
        case Ok(reply) =>
          if reply.success {
            message := UpdateDone;
            var user := UserOf(storage);
            storage := storage[UserKey := Json(user + form)];
          } else {
            message := if reply.message != "" then reply.message else UpdateRefused;
          }
        case Fail(_) =>
          message := NetworkFailure;
      }
    }

    /** `handleLogout`: on success the token and user entries are removed and
        the page goes to `/login`; otherwise storage is left alone. */
    method HandleLogout(response: Outcome<Reply<()>>) returns (navigate: Option<string>)
      modifies this
      ensures navigate.Some? <==> response.Ok? && response.data.success
      ensures navigate.Some? ==> navigate.value == "/login"
      ensures navigate.Some? ==> storage == Remove(Remove(old(storage), TokenKey), UserKey)
      ensures navigate.None? ==> storage == old(storage)
      ensures response.Ok? && !response.data.success ==> message == OrElse(response.data.message, LogoutRefused)
      ensures response.Fail? ==> message == NetworkFailure
      ensures navigate.Some? ==> message == old(message)
      ensures form == old(form)
    {
      navigate := None;
      match response {
        case Ok(reply) =>
          if reply.success {
            storage := storage - {TokenKey};
            storage := storage - {UserKey};
            navigate := Some("/login");
          } else {
            message := if reply.message != "" then reply.message else LogoutRefused;
          }
        case Fail(_) =>
          message := NetworkFailure;
      }
    }
  }

  /** After a successful logout neither a token nor a user is stored, and every
      other entry is kept. */
  lemma LogoutEmptiesSession(s: Storage)
    ensures StoredToken(Remove(Remove(s, TokenKey), UserKey)).None?
    ensures StoredUser(Remove(Remove(s, TokenKey), UserKey)).None?
    ensures forall k :: k != TokenKey && k != UserKey ==>
              (k in Remove(Remove(s, TokenKey), UserKey) <==> k in s)
  {
  }
}
