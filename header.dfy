/** The navigation menu of the page header: which items a user sees, how a role
    is labelled, and where a click leads. */
module Menu {
  import opened Base
  import Auth
  import Routing

  datatype MenuItem = MenuItem(key: string, caption: string)

  /** The items every signed-in user gets, in order. */
  const CommonItems: seq<MenuItem> :=
    [MenuItem("/home", "活动报名"), MenuItem("/orders", "活动订单"), MenuItem("/personal", "个人信息")]

  /** The extra item a teacher gets. */
  const ManagementItem := MenuItem(Routing.ManagementPath, "场馆管理")

  /** `getMenuItems()`: no user sees no menu; every user's menu starts with the
      three common items; only a teacher's has one more, the management item, at the end. */
  function Items(user: Option<Record>): (items: seq<MenuItem>)
    ensures user.None? ==> items == []
    ensures user.Some? ==> |items| >= 3 && items[..3] == CommonItems
    ensures user.Some? ==> (|items| == 4 <==> RoleIs(user, Auth.Teacher))
    ensures user.Some? && |items| == 4 ==> items[3] == ManagementItem
    ensures |items| <= 4
  {
    if user.None? then []
    else if RoleIs(user, Auth.Teacher) then CommonItems + [ManagementItem]
    else CommonItems
  }

  /** `getMenuItems()` as written: a local array with a conditional `push`. */
  method GetMenuItems(user: Option<Record>) returns (menuItems: seq<MenuItem>)
    ensures menuItems == Items(user)
  {
    if user.None? {
      return [];
    }
    menuItems := CommonItems;
    if "role" in user.value && user.value["role"] == Auth.Teacher {
      menuItems := menuItems + [ManagementItem];
    }
  }

  /** `getRoleName(role)`: the canonical names shown as localized labels, any
      other string unchanged; the label shown never disagrees with the role. */
  function RoleName(role: string): (name: string)
    ensures role == Auth.Student ==> name == Auth.StudentLabel
    ensures role == Auth.Teacher ==> name == Auth.TeacherLabel
    ensures role != Auth.Student && role != Auth.Teacher ==> name == role
    ensures Auth.NormaliseRole(name) == Auth.NormaliseRole(role)
  {
    if role == Auth.Student then Auth.StudentLabel
    else if role == Auth.Teacher then Auth.TeacherLabel
    else role
  }

  /** A localized label that the session normalised is shown as that label again. */
  lemma LabelRoundTrip(shown: string)
    requires shown == Auth.StudentLabel || shown == Auth.TeacherLabel
    ensures RoleName(Auth.NormaliseRole(shown)) == shown
  {
  }

  /** The effect of a menu click: whether `logout()` runs, and where to go. */
  datatype Click = Click(logout: bool, target: string)

  /** `handleMenuClick({ key })`. */
  function HandleMenuClick(key: string): (c: Click)
    ensures c.logout <==> key == "logout"
    ensures c.logout ==> c.target == Routing.LoginPath
    ensures !c.logout ==> c.target == key
  {
    if key == "logout" then Click(true, Routing.LoginPath) else Click(false, key)
  }

  /** For a signed-in session every menu item leads to a page the router shows,
      never to a redirect or the not-found page. */
  lemma {:induction false} MenuLeadsToPages(token: Option<string>, user: Option<Record>)
    requires Auth.HasToken(token)
    ensures forall i :: 0 <= i < |Items(user)| ==>
      var v := Routing.Resolve(token, user, false, HandleMenuClick(Items(user)[i].key).target);
      v.Show? && v.page != Routing.NotFoundPage
  {
    Routing.RouteTable();
    forall i | 0 <= i < |Items(user)|
      ensures var v := Routing.Resolve(token, user, false, HandleMenuClick(Items(user)[i].key).target);
              v.Show? && v.page != Routing.NotFoundPage
    {
      assert Items(user)[i] in CommonItems + [ManagementItem];
    }
  }

  /** A user whose role arrives as the label `老师` is a teacher once signed in:
      the menu carries the management item and the management page opens. */
  lemma TeacherLabelSignIn(s: Auth.Session, t: string, u: Record)
    requires t != "" && "role" in u && u["role"] == Auth.TeacherLabel
    ensures var after := Auth.AfterLogin(s, t, Ok(Some(u)));
      && Items(after.user) == CommonItems + [ManagementItem]
      && Routing.Resolve(after.token, after.user, after.isLoading, Routing.ManagementPath)
         == Routing.Show(Routing.VenueManagementPage)
  {
    Auth.LoginSuccess(s, t, u);
    Routing.RouteTable();
  }
}
