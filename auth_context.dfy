/** The authentication session kept by `AuthProvider`: the token, the signed-in
    user and the loading flag, mirrored against the token slot of storage. */
module Auth {
  import opened Base

  const Student := "student"
  const Teacher := "teacher"
  const StudentLabel := "学生"
  const TeacherLabel := "老师"

  /** The localized labels become the canonical role names; any other value is kept. */
  function NormaliseRole(role: string): (r: string)
    ensures role == StudentLabel ==> r == Student
    ensures role == TeacherLabel ==> r == Teacher
    ensures role != StudentLabel && role != TeacherLabel ==> r == role
    ensures r != StudentLabel && r != TeacherLabel
  {
    if role == StudentLabel then Student
    else if role == TeacherLabel then Teacher
    else role
  }

  /** Normalising twice is normalising once, and canonical names are left alone. */
  lemma NormaliseIdempotent(role: string)
    ensures NormaliseRole(NormaliseRole(role)) == NormaliseRole(role)
    ensures NormaliseRole(Student) == Student && NormaliseRole(Teacher) == Teacher
  {
  }

  /** A role that no longer carries a localized label. */
  predicate RoleSettled(u: Record)
  {
    Get(u, "role") != StudentLabel && Get(u, "role") != TeacherLabel
  }

  /** The fetched user with its `role` field normalised in place; nothing else changes. */
  function NormaliseUser(u: Record): (v: Record)
    ensures v.Keys == u.Keys
    ensures forall k :: k in u && k != "role" ==> v[k] == u[k]
    ensures "role" in u ==> v["role"] == NormaliseRole(u["role"])
    ensures RoleSettled(v)
  {
    if "role" in u then u["role" := NormaliseRole(u["role"])] else u
  }

  /** `if (token)`: a token is present and not "". */
  predicate HasToken(token: Option<string>)
  {
    token.Some? && Truthy(token.value)
  }

  /** The provider's state: React state plus the browser storage it writes. */
  datatype Session = Session(token: Option<string>, user: Option<Record>, isLoading: bool, storage: Storage)

  /** The state on mount: the stored token, no user, loading. */
  function Start(storage: Storage): Session
  {
    Session(StoredToken(storage), None, true, storage)
  }

  /** `fetchUserInfo` with the reply of `GET /user/info`: `Ok(None)` is a reply
      without a user object, which faults at the `.role` access and so takes the
      failure path. */
  function AfterFetch(s: Session, response: Outcome<Option<Record>>): Session
  {
    if !HasToken(s.token) then s.(isLoading := false)
    else if response.Ok? && response.data.Some? then
      s.(user := Some(NormaliseUser(response.data.value)), isLoading := false)
    else
      Session(None, None, false, Remove(s.storage, TokenKey))
  }

  /** `login(newToken)`: store the token, adopt it, then fetch the user with it. */
  function AfterLogin(s: Session, newToken: string, response: Outcome<Option<Record>>): Session
  {
    AfterFetch(s.(token := Some(newToken), storage := PutToken(s.storage, newToken)), response)
  }

  /** `logout()`: the outcome of `POST /personal/logout` does not matter. */
  function AfterLogout(s: Session): Session
  {
    s.(token := None, user := None, storage := Remove(s.storage, TokenKey))
  }

  /** The session invariant: the token in memory is the stored token, a user is
      only held together with a token, and a held user's role is canonical. */
  ghost predicate Consistent(s: Session)
  {
    && s.token == StoredToken(s.storage)
    && (s.user.Some? ==> s.token.Some?)
    && (s.user.Some? ==> RoleSettled(s.user.value))
  }

  lemma StartState(storage: Storage)
    ensures Start(storage).token == StoredToken(storage)
    ensures Start(storage).user.None? && Start(storage).isLoading
    ensures Consistent(Start(storage))
  {
  }

  /** With no token nothing is requested: the reply does not matter, the user and
      token stay as they were and loading ends. */
  lemma FetchWithoutToken(s: Session, r1: Outcome<Option<Record>>, r2: Outcome<Option<Record>>)
    requires !HasToken(s.token)
    ensures AfterFetch(s, r1) == AfterFetch(s, r2)
    ensures AfterFetch(s, r1).user == s.user && AfterFetch(s, r1).token == s.token
    ensures AfterFetch(s, r1).storage == s.storage && !AfterFetch(s, r1).isLoading
  {
  }

  /** A user in the reply becomes the session's user with its role normalised,
      even when its name or role is missing; the token is kept. */
  lemma FetchSuccess(s: Session, u: Record)
    requires HasToken(s.token)
    ensures AfterFetch(s, Ok(Some(u))).user == Some(NormaliseUser(u))
    ensures AfterFetch(s, Ok(Some(u))).token == s.token
    ensures AfterFetch(s, Ok(Some(u))).storage == s.storage
    ensures !AfterFetch(s, Ok(Some(u))).isLoading
  {
  }

  /** A failed request, or a reply without a user, signs out: the stored token
      is removed and token and user become null. */
  lemma FetchFailure(s: Session, response: Outcome<Option<Record>>)
    requires HasToken(s.token)
    requires !(response.Ok? && response.data.Some?)
    ensures AfterFetch(s, response).token.None? && AfterFetch(s, response).user.None?
    ensures StoredToken(AfterFetch(s, response).storage).None?
    ensures StoredUser(AfterFetch(s, response).storage) == StoredUser(s.storage)
    ensures !AfterFetch(s, response).isLoading
  {
  }

  /** Logout clears the stored token, token and user; other storage entries stay. */
  lemma LogoutClears(s: Session)
    ensures AfterLogout(s).token.None? && AfterLogout(s).user.None?
    ensures StoredToken(AfterLogout(s).storage).None?
    ensures StoredUser(AfterLogout(s).storage) == StoredUser(s.storage)
  {
  }

  /** A successful login with a non-empty token holds the normalised user under
      the new token, which is also what storage holds. */
  lemma LoginSuccess(s: Session, t: string, u: Record)
    requires t != ""
    ensures AfterLogin(s, t, Ok(Some(u))).token == Some(t)
    ensures StoredToken(AfterLogin(s, t, Ok(Some(u))).storage) == Some(t)
    ensures AfterLogin(s, t, Ok(Some(u))).user == Some(NormaliseUser(u))
  {
  }

  /** Every transition keeps the session invariant. */
  lemma TransitionsKeepConsistent(s: Session, t: string, response: Outcome<Option<Record>>)
    requires Consistent(s)
    ensures Consistent(AfterFetch(s, response))
    ensures Consistent(AfterLogin(s, t, response))
    ensures Consistent(AfterLogout(s))
  {
  }

  /** The provider component, with `localStorage` as a field. */
  class AuthProvider {
    var token: Option<string>
    var user: Option<Record>
    var isLoading: bool
    var storage: Storage

    function State(): Session
      reads this
    {
      Session(token, user, isLoading, storage)
    }

    constructor (stored: Storage)
      ensures State() == Start(stored)
    {
      token := StoredToken(stored);
      user := None;
      isLoading := true;
      storage := stored;
    }

    /** Returns whether `GET /user/info` was sent. */
    method FetchUserInfo(response: Outcome<Option<Record>>) returns (requested: bool)
      modifies this
      ensures requested == HasToken(old(token))
      ensures State() == AfterFetch(old(State()), response)
    {
      if token.Some? && token.value != "" {
        requested := true;
        match response {
          case Ok(Some(fetched)) =>
            var u := fetched;
            if "role" in u && u["role"] == StudentLabel {
              u := u["role" := Student];
            } else if "role" in u && u["role"] == TeacherLabel {
              u := u["role" := Teacher];
            }
            assert u == NormaliseUser(fetched);
            user := Some(u);
          case _ =>
            storage := storage - {TokenKey};
            assert storage == Remove(old(storage), TokenKey);
            token := None;
            user := None;
        }
        isLoading := false;
      } else {
        requested := false;
        isLoading := false;
      }
    }

    method Login(newToken: string, response: Outcome<Option<Record>>) returns (requested: bool)
      modifies this
      ensures requested == (newToken != "")
      ensures State() == AfterLogin(old(State()), newToken, response)
    {
      storage := storage[TokenKey := Text(newToken)];
      token := Some(newToken);
      requested := FetchUserInfo(response);
    }

    method Logout(response: Outcome<()>)
      modifies this
      ensures State() == AfterLogout(old(State()))
    {
      storage := storage - {TokenKey};
      token := None;
      user := None;
    }
  }
}
