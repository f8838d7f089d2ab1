/** Shared vocabulary of the client model: optional values, the outcome of a
    network call, JavaScript objects as string maps, browser storage, the fixed
    time-slot list and the decimal rendering of numeric ids. */
module Base {

  /** `null`/`undefined` versus a present value. */
  datatype Option<+T> = None | Some(value: T) {
    function GetOr(default: T): T
    {
      match this
      case Some(v) => v
      case None => default
    }
  }

  /** What one network call produced: the response body, or a failure carrying
      the server's error message ("" when the error had none). */
  datatype Outcome<+T> = Ok(data: T) | Fail(msg: string)

  /** A reply body of the shape `{ success, message, data }`. */
  datatype Reply<+T> = Reply(success: bool, message: string, data: T)

  /** How the `fetch`-based list views refresh a list: `if (data.success)
      setList(data.data)`, and an alert otherwise or when the call fails. */
  function AfterListFetch<T>(current: seq<T>, response: Outcome<Reply<seq<T>>>): (next: seq<T>)
    ensures response.Ok? && response.data.success ==> next == response.data.data
    ensures !(response.Ok? && response.data.success) ==> next == current
  {
    if response.Ok? && response.data.success then response.data.data else current
  }

  /** A JavaScript object whose fields hold strings; an absent key reads as `undefined`. */
  type Record = map<string, string>

  /** JavaScript truthiness of a string: only "" is falsy. */
  predicate Truthy(s: string)
  {
    s != ""
  }

  /** `r[k]`, where `undefined` is rendered as "" (both are falsy). */
  function Get(r: Record, k: string): string
  {
    if k in r then r[k] else ""
  }

  /** `a || b` on strings. */
  function OrElse(a: string, b: string): string
  {
    if Truthy(a) then a else b
  }

  /** JavaScript truthiness of a numeric id that may be missing: missing and 0 are falsy. */
  predicate IdTruthy(id: Option<int>)
  {
    id.Some? && id.value != 0
  }

  /** `user?.role === role` for a role name that is not "". */
  predicate RoleIs(user: Option<Record>, role: string)
  {
    user.Some? && "role" in user.value && user.value["role"] == role
  }

  /** `{ ...form, [name]: value }`: the named field takes the value and every
      other field keeps its old value. Shared by every `handleChange`. */
  function SetField(form: Record, name: string, value: string): (r: Record)
    ensures r.Keys == form.Keys + {name}
    ensures r[name] == value
    ensures forall k :: k in form && k != name ==> r[k] == form[k]
  {
    form[name := value]
  }

  // ---------------------------------------------------------------- storage

  const TokenKey := "token"
  const UserKey := "user"

  /** A storage entry: plain text, or the JSON serialisation of a record. */
  datatype Stored = Text(text: string) | Json(obj: Record)

  /** The client writes the token as text and the user as a JSON object. */
  ghost predicate WellFormedStorage(m: map<string, Stored>)
  {
    && (TokenKey in m ==> m[TokenKey].Text?)
    && (UserKey in m ==> m[UserKey].Json?)
  }

  /** `localStorage`, as the client uses it. */
  type Storage = m: map<string, Stored> | WellFormedStorage(m) witness map[]

  /** `localStorage.getItem('token')`. */
  function StoredToken(s: Storage): Option<string>
  {
    if TokenKey in s then Some(s[TokenKey].text) else None
  }

  /** `JSON.parse(localStorage.getItem('user'))`, `null` when there is no entry. */
  function StoredUser(s: Storage): Option<Record>
  {
    if UserKey in s then Some(s[UserKey].obj) else None
  }

  /** `localStorage.setItem('token', t)`. */
  function PutToken(s: Storage, t: string): (r: Storage)
    ensures StoredToken(r) == Some(t) && StoredUser(r) == StoredUser(s)
    ensures forall k :: k != TokenKey ==> (k in r <==> k in s) && (k in s ==> r[k] == s[k])
  {
    s[TokenKey := Text(t)]
  }

  /** `localStorage.setItem('user', JSON.stringify(u))`. */
  function PutUser(s: Storage, u: Record): (r: Storage)
    ensures StoredUser(r) == Some(u) && StoredToken(r) == StoredToken(s)
    ensures forall k :: k != UserKey ==> (k in r <==> k in s) && (k in s ==> r[k] == s[k])
  {
    s[UserKey := Json(u)]
  }

  /** `localStorage.removeItem(key)`. */
  function Remove(s: Storage, key: string): (r: Storage)
    ensures key !in r
    ensures forall k :: k != key ==> (k in r <==> k in s) && (k in s ==> r[k] == s[k])
  {
    s - {key}
  }

  // ------------------------------------------------------------ the catalog

  /** A sport offered by a venue. */
  datatype Sport = Sport(sid: int, name: string)

  /** The four bookable time slots, in display order. */
  const TimeSlots: seq<string> := ["12:00-14:00", "14:00-16:00", "16:00-18:00", "18:00-20:00"]

  // ------------------------------------------------------- decimal rendering

  predicate IsDigit(c: char)
  {
    '0' <= c <= '9'
  }

  predicate AllDigits(s: string)
  {
    forall i :: 0 <= i < |s| ==> IsDigit(s[i])
  }

  function DigitChar(d: nat): (c: char)
    requires d < 10
    ensures IsDigit(c) && c as int - '0' as int == d
  {
    ('0' as int + d) as char
  }

  /** The template-string rendering `${n}` of a non-negative integer id. */
  function NatToString(n: nat): (s: string)
    ensures |s| >= 1 && AllDigits(s)
    ensures n > 0 ==> s[0] != '0'
    decreases n
  {
    if n < 10 then [DigitChar(n)] else NatToString(n / 10) + [DigitChar(n % 10)]
  }

  /** The number a string of decimal digits denotes. */
  function DecimalValue(s: string): nat
    requires AllDigits(s)
  {
    if s == [] then 0 else DecimalValue(s[..|s| - 1]) * 10 + (s[|s| - 1] as int - '0' as int)
  }

  /** Rendering an id and reading it back gives the id. */
  lemma {:induction false} DecimalRoundTrip(n: nat)
    ensures DecimalValue(NatToString(n)) == n
  {
    var s := NatToString(n);
    if n >= 10 {
      DecimalRoundTrip(n / 10);
      assert s[..|s| - 1] == NatToString(n / 10);
    }
  }
}
