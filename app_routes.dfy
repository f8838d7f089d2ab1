/** `AppRoutes`, the route table the `src/index.jsx` entry mounts: a navigation
    bar chosen by the stored user and seven unguarded routes. It has no auth
    provider and no guard; pages under it read storage themselves. */
module AppRoutes {
  import opened Base
  import Routing

  /** The pages this table mounts. */
  datatype View =
    | HomeView
    | ActivityView
    | OrdersView
    | ProfileView
    | LoginView
    | RegisterView
    | VenueView(id: string)
    | NoView

  const ActivityPath := "/activity"
  const OrdersPath := "/orders"
  const ProfilePath := "/profile"

  /** The `<Routes>` table; with no `*` entry an unmatched path renders nothing. */
  function ViewOf(path: string): View
  {
    if path == "/" then HomeView
    else if path == ActivityPath then ActivityView
    else if path == OrdersPath then OrdersView
    else if path == ProfilePath then ProfileView
    else if path == Routing.LoginPath then LoginView
    else if path == "/register" then RegisterView
    else if Routing.VenueParam(path).Some? then VenueView(Routing.VenueParam(path).value)
    else NoView
  }

  /** The table as declared, and nothing for every other path. */
  lemma ViewTable()
    ensures ViewOf("/") == HomeView && ViewOf(ActivityPath) == ActivityView
    ensures ViewOf(OrdersPath) == OrdersView && ViewOf(ProfilePath) == ProfileView
    ensures ViewOf(Routing.LoginPath) == LoginView && ViewOf("/register") == RegisterView
    ensures forall p ::
              (p !in {"/", ActivityPath, OrdersPath, ProfilePath, Routing.LoginPath, "/register"}
               && Routing.VenueParam(p).None?) ==> ViewOf(p) == NoView
  {
  }

  /** Every single-segment id after `/venue/` opens the venue view with that `:id`. */
  lemma VenuePathView(id: string)
    requires id != [] && '/' !in id
    ensures ViewOf(Routing.VenuePrefix + id) == VenueView(id)
  {
    var path := Routing.VenuePrefix + id;
    assert path[..|Routing.VenuePrefix|] == Routing.VenuePrefix;
    assert path[|Routing.VenuePrefix|..] == id;
    assert path[1] == 'v';
  }

  /** The navigation bar: a stored user gets the activity, order and profile
      links, anybody else the login and register links. The user is read when
      the table is mounted. */
  function NavLinks(storage: Storage): (links: seq<string>)
    ensures StoredUser(storage).Some? ==> links == [ActivityPath, OrdersPath, ProfilePath]
    ensures StoredUser(storage).None? ==> links == [Routing.LoginPath, "/register"]
  {
    if StoredUser(storage).Some? then [ActivityPath, OrdersPath, ProfilePath]
    else [Routing.LoginPath, "/register"]
  }

  /** Every link of the bar, and the brand link to `/`, opens a page of the table. */
  lemma NavLinksLead(storage: Storage)
    ensures forall i :: 0 <= i < |NavLinks(storage)| ==> !ViewOf(NavLinks(storage)[i]).NoView?
    ensures ViewOf("/") == HomeView
  {
    ViewTable();
  }
}
