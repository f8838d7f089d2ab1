/** The teacher's venue management page: its own access check, the venue list
    with defaulted sports, the create/update form and the per-venue sport list. */
module VenueAdmin {
  import opened Base
  import Auth
  import Routing

  // --------------------------------------------------------- access check

  /** What the page's auth effect does on a render. */
  datatype Access = RedirectToLogin | FetchVenues | Wait

  /** Once the session has loaded, anyone without a token or not a teacher is
      sent to `/login`; a teacher with a token has the venues fetched (even
      while the session still loads); otherwise the page waits. */
  function AccessDecision(authLoading: bool, token: Option<string>, user: Option<Record>): (a: Access)
    ensures a == RedirectToLogin <==> !authLoading && !(Auth.HasToken(token) && RoleIs(user, Auth.Teacher))
    ensures a == FetchVenues <==> Auth.HasToken(token) && RoleIs(user, Auth.Teacher)
    ensures a == Wait <==> authLoading && !(Auth.HasToken(token) && RoleIs(user, Auth.Teacher))
  {
    if !authLoading && (!Auth.HasToken(token) || !RoleIs(user, Auth.Teacher)) then RedirectToLogin
    else if Auth.HasToken(token) && RoleIs(user, Auth.Teacher) then FetchVenues
    else Wait
  }

  /** The page's own check agrees with the router's teacher guard in front of it:
      after loading, the page redirects exactly when the guard would. */
  lemma AccessAgreesWithGuard(token: Option<string>, user: Option<Record>)
    ensures AccessDecision(false, token, user) == RedirectToLogin
            <==> Routing.TeacherRoute(token, user, Routing.VenueManagementPage).Redirect?
    ensures AccessDecision(false, token, user) == FetchVenues
            <==> Routing.Resolve(token, user, false, Routing.ManagementPath) == Routing.Show(Routing.VenueManagementPage)
  {
    Routing.RouteTable();
  }

  /** `authLoading || !user || user.role !== 'teacher' || loading`. */
  predicate ShowsLoadingView(authLoading: bool, user: Option<Record>, loading: bool)
  {
    authLoading || user.None? || !RoleIs(user, Auth.Teacher) || loading
  }

  /** The management table is only ever shown to a signed-in teacher after
      loading, and then the page's effect has fetched the venues (with a token)
      or is sending the user to `/login` (without one). */
  lemma TableOnlyForTeachers(authLoading: bool, token: Option<string>, user: Option<Record>, loading: bool)
    requires !ShowsLoadingView(authLoading, user, loading)
    ensures RoleIs(user, Auth.Teacher) && !authLoading && !loading
    ensures AccessDecision(authLoading, token, user)
            == if Auth.HasToken(token) then FetchVenues else RedirectToLogin
  {
  }

  // ----------------------------------------------------------------- venues

  /** A venue as listed: its id (possibly missing), its other fields, and its
      sports (`undefined` or `null` when the server sends none). */
  datatype Venue = Venue(vid: Option<int>, info: Record, sports: Option<seq<Sport>>)

  /** `{ ...v, sports: v.sports || [] }`: every field kept, a missing list becomes `[]`. */
  function NormaliseVenue(v: Venue): (w: Venue)
    ensures w.vid == v.vid && w.info == v.info
    ensures w.sports.Some?
    ensures v.sports.Some? ==> w.sports == v.sports
    ensures v.sports.None? ==> w.sports == Some([])
  {
    v.(sports := Some(v.sports.GetOr([])))
  }

  /** The list mapped venue by venue, in order. */
  function NormaliseVenues(vs: seq<Venue>): (ws: seq<Venue>)
    ensures |ws| == |vs|
    ensures forall i :: 0 <= i < |vs| ==> ws[i] == NormaliseVenue(vs[i])
  {
    if vs == [] then [] else [NormaliseVenue(vs[0])] + NormaliseVenues(vs[1..])
  }

  /** Every venue of a normalised list has a sports list, and normalising again
      changes nothing. */
  lemma {:induction false} NormaliseVenuesIdempotent(vs: seq<Venue>)
    ensures forall i :: 0 <= i < |NormaliseVenues(vs)| ==> NormaliseVenues(vs)[i].sports.Some?
    ensures NormaliseVenues(NormaliseVenues(vs)) == NormaliseVenues(vs)
  {
    if vs != [] {
      NormaliseVenuesIdempotent(vs[1..]);
    }
  }

  /** What the venue form sends. */
  datatype VenueRequest = UpdateVenue(vid: Option<int>, values: Record) | CreateVenue(values: Record)

  /** The venue form's `required` rules: name, address and phone. */
  predicate VenueFormAccepts(values: Record)
  {
    Truthy(Get(values, "name")) && Truthy(Get(values, "address")) && Truthy(Get(values, "phone"))
  }

  /** `onFinish`: an edited venue is updated by its `vid`, otherwise a new one is created. */
  function VenueRequestFor(editing: Option<Venue>, values: Record): (r: VenueRequest)
    ensures r.UpdateVenue? <==> editing.Some?
    ensures r.UpdateVenue? ==> r.vid == editing.value.vid
    ensures r.values == values
  {
    if editing.Some? then UpdateVenue(editing.value.vid, values) else CreateVenue(values)
  }

  /** The two delete calls: `/venue/delete/${venueId}` and `/sport/delete` with `sid`. */
  datatype DeleteRequest = DeleteVenue(venueId: Option<int>) | DeleteSport(sid: int)

  /** `{ name, venueId }` of a new sport. */
  datatype SportRequest = SportRequest(name: string, venueId: int)

  /** The page's state. */
  class VenueManagementPage {
    var venues: seq<Venue>
    var loading: bool
    var isModalVisible: bool
    var isSportModalVisible: bool
    var editingVenue: Option<Venue>
    var editingSports: seq<Sport>

    constructor ()
      ensures venues == [] && loading && !isModalVisible && !isSportModalVisible
      ensures editingVenue.None? && editingSports == []
    {
      venues := [];
      loading := true;
      isModalVisible := false;
      isSportModalVisible := false;
      editingVenue := None;
      editingSports := [];
    }

    /** `fetchVenues`: a list in the reply replaces the venues, normalised; a
        failure, or a reply without a list, keeps them. Loading ends either way. */
    method FetchVenues(response: Outcome<Option<seq<Venue>>>)
      modifies this
      ensures response.Ok? && response.data.Some? ==> venues == NormaliseVenues(response.data.value)
      ensures !(response.Ok? && response.data.Some?) ==> venues == old(venues)
      ensures !loading
      ensures isModalVisible == old(isModalVisible) && isSportModalVisible == old(isSportModalVisible)
      ensures editingVenue == old(editingVenue) && editingSports == old(editingSports)
    {
      loading := true;
      if response.Ok? && response.data.Some? {
        venues := NormaliseVenues(response.data.value);
      }
      loading := false;
    }

    /** `fetchSports(venueId)`: `/sport/list` is asked for that venue's sports;
        the reply's list (or `[]`) replaces the sports; a failure keeps them. */
    method FetchSports(venueId: Option<int>, response: Outcome<Option<seq<Sport>>>)
      returns (asked: Option<int>)
      modifies this
      ensures asked == venueId
      ensures response.Ok? ==> editingSports == response.data.GetOr([])
      ensures response.Fail? ==> editingSports == old(editingSports)
      ensures venues == old(venues) && loading == old(loading) && editingVenue == old(editingVenue)
      ensures isModalVisible == old(isModalVisible) && isSportModalVisible == old(isSportModalVisible)
    {
      asked := venueId;
      if response.Ok? {
        editingSports := response.data.GetOr([]);
      }
    }

    /** `handleEdit(venue)`: the modal opens on that venue, or on a blank form for `None`. */
    method HandleEdit(venue: Option<Venue>)
      modifies this
      ensures editingVenue == venue && isModalVisible
      ensures venues == old(venues) && loading == old(loading)
      ensures isSportModalVisible == old(isSportModalVisible) && editingSports == old(editingSports)
    {
      editingVenue := venue;
      isModalVisible := true;
    }

    /** `handleEditSports(venue)`: sports are fetched exactly when the venue has
        a truthy `vid`, and then for that `vid`; otherwise the list is cleared.
        Returns whether it fetched and the `venueId` it asked for. */
    method HandleEditSports(venue: Option<Venue>, response: Outcome<Option<seq<Sport>>>)
      returns (fetched: bool, asked: Option<int>)
      modifies this
      ensures fetched <==> venue.Some? && IdTruthy(venue.value.vid)
      ensures fetched ==> asked == venue.value.vid
      ensures !fetched ==> asked == None
      ensures fetched && response.Ok? ==> editingSports == response.data.GetOr([])
      ensures fetched && response.Fail? ==> editingSports == old(editingSports)
      ensures !fetched ==> editingSports == []
      ensures editingVenue == venue && isSportModalVisible
      ensures venues == old(venues) && loading == old(loading) && isModalVisible == old(isModalVisible)
    {
      editingVenue := venue;
      isSportModalVisible := true;
      if venue.Some? && venue.value.vid.Some? && venue.value.vid.value != 0 {
        fetched := true;
        asked := FetchSports(venue.value.vid, response);
      } else {
        fetched, asked := false, None;
        editingSports := [];
      }
    }

    /** The venue form's submit: a form failing its rules does not call
        `onFinish`; otherwise the update or create request, and after a
        successful reply the modal closes and the list is fetched with `reload`. */
    method OnFinish(values: Record, response: Outcome<()>, reload: Outcome<Option<seq<Venue>>>)
      returns (sent: Option<VenueRequest>)
      modifies this
      ensures sent.Some? <==> VenueFormAccepts(values)
      ensures sent.Some? ==> sent.value == VenueRequestFor(old(editingVenue), values)
      ensures sent.Some? && response.Ok? ==> !isModalVisible && !loading
      ensures sent.Some? && response.Ok? && reload.Ok? && reload.data.Some? ==>
                venues == NormaliseVenues(reload.data.value)
      ensures sent.Some? && response.Ok? && !(reload.Ok? && reload.data.Some?) ==> venues == old(venues)
      ensures !(sent.Some? && response.Ok?) ==>
                isModalVisible == old(isModalVisible) && venues == old(venues) && loading == old(loading)
      ensures editingVenue == old(editingVenue) && editingSports == old(editingSports)
      ensures isSportModalVisible == old(isSportModalVisible)
    {
      if !VenueFormAccepts(values) {
        return None;
      }
      if editingVenue.Some? {
        sent := Some(UpdateVenue(editingVenue.value.vid, values));
      } else {
        sent := Some(CreateVenue(values));
      }
      if response.Ok? {
        isModalVisible := false;
        FetchVenues(reload);
      }
    }

    /** `handleDelete(venueId)`: the delete request, and after success the list
        is fetched with `reload`. */
    method HandleDelete(venueId: Option<int>, response: Outcome<()>, reload: Outcome<Option<seq<Venue>>>)
      returns (sent: DeleteRequest)
      modifies this
      ensures sent == DeleteVenue(venueId)
      ensures response.Ok? ==> !loading
      ensures response.Ok? && reload.Ok? && reload.data.Some? ==> venues == NormaliseVenues(reload.data.value)
      ensures response.Ok? && !(reload.Ok? && reload.data.Some?) ==> venues == old(venues)
      ensures response.Fail? ==> venues == old(venues) && loading == old(loading)
      ensures isModalVisible == old(isModalVisible) && isSportModalVisible == old(isSportModalVisible)
      ensures editingVenue == old(editingVenue) && editingSports == old(editingSports)
    {
      sent := DeleteVenue(venueId);
      if response.Ok? {
        FetchVenues(reload);
      }
    }

    /** `onSportFinish`: without an edited venue with a truthy `vid` it only
        reports an error; otherwise `{ name, venueId: vid }` is sent and, after
        success, that venue's sports are fetched with `refetch`. */
    method OnSportFinish(name: string, response: Outcome<()>, refetch: Outcome<Option<seq<Sport>>>)
      returns (sent: Option<SportRequest>, refetched: bool, asked: Option<int>)
      modifies this
      ensures refetched <==> sent.Some? && response.Ok?
      ensures refetched ==> sent.Some? && editingVenue.Some? && asked == Some(sent.value.venueId) && asked == editingVenue.value.vid
      ensures !refetched ==> asked == None
      ensures name != "" && editingVenue.Some? && IdTruthy(editingVenue.value.vid) <==> sent.Some?
      ensures sent.Some? ==> sent.value == SportRequest(name, editingVenue.value.vid.value)
      ensures sent.Some? && response.Ok? && refetch.Ok? ==> editingSports == refetch.data.GetOr([])
      ensures !(sent.Some? && response.Ok? && refetch.Ok?) ==> editingSports == old(editingSports)
      ensures editingVenue == old(editingVenue) && venues == old(venues) && loading == old(loading)
      ensures isModalVisible == old(isModalVisible) && isSportModalVisible == old(isSportModalVisible)
    {
      if name == "" {
        return None, false, None;
      }
      if editingVenue.None? || editingVenue.value.vid.None? || editingVenue.value.vid.value == 0 {
        return None, false, None;
      }
      var vid := editingVenue.value.vid.value;
      sent, refetched, asked := Some(SportRequest(name, vid)), false, None;
      if response.Ok? {
        refetched := true;
        asked := FetchSports(Some(vid), refetch);
      }
    }

    /** `handleDeleteSport(sportId)`: the delete request for `sid`; after success the edited venue's sports are
        fetched again (a missing `vid` is sent as it is); with no edited venue
        that read faults and nothing changes. */
    method HandleDeleteSport(sportId: int, response: Outcome<()>, refetch: Outcome<Option<seq<Sport>>>)
      returns (sent: DeleteRequest, refetched: bool, asked: Option<int>)
      modifies this
      ensures sent == DeleteSport(sportId)
      ensures refetched <==> response.Ok? && editingVenue.Some?
      ensures refetched ==> asked == editingVenue.value.vid
      ensures !refetched ==> asked == None
      ensures response.Ok? && editingVenue.Some? && refetch.Ok? ==>
                editingSports == refetch.data.GetOr([])
      ensures !(response.Ok? && editingVenue.Some? && refetch.Ok?) ==>
                editingSports == old(editingSports)
      ensures editingVenue == old(editingVenue) && venues == old(venues) && loading == old(loading)
      ensures isModalVisible == old(isModalVisible) && isSportModalVisible == old(isSportModalVisible)
    {
      sent, refetched, asked := DeleteSport(sportId), false, None;
      if response.Ok? && editingVenue.Some? {
        refetched := true;
        asked := FetchSports(editingVenue.value.vid, refetch);
      }
    }
  }
}
