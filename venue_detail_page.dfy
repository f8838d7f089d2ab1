/** The venue detail page at `/venue/:vid`: booking a sport's time slot, which
    only a student may do and which locks the slot buttons while in flight, and
    the comment list with its submit handler. */
module VenuePage {
  import opened Base
  import Auth
  import Routing

  /** The auth effect: once the session has loaded, no token means `/login`. */
  function AuthRedirect(authLoading: bool, token: Option<string>): (to: Option<string>)
    ensures to.Some? <==> !authLoading && !Auth.HasToken(token)
    ensures to.Some? ==> to.value == "/login"
  {
    if !authLoading && !Auth.HasToken(token) then Some("/login") else None
  }

  /** The page's own effect repeats the router's guard in front of it: once the
      session has loaded it redirects exactly when `PrivateRoute` does, and to
      the same place. */
  lemma AuthRedirectAgreesWithGuard(token: Option<string>, user: Option<Record>, vid: string)
    requires vid != [] && '/' !in vid
    ensures AuthRedirect(false, token).Some?
            <==> Routing.PrivateRoute(token, Routing.VenueDetailPage(vid)).Redirect?
    ensures AuthRedirect(false, token).Some? ==>
              Routing.Resolve(token, user, false, Routing.VenuePrefix + vid)
                == Routing.Redirect(AuthRedirect(false, token).value)
    ensures AuthRedirect(false, token).None? ==>
              Routing.Resolve(token, user, false, Routing.VenuePrefix + vid)
                == Routing.Show(Routing.VenueDetailPage(vid))
  {
    Routing.VenueRoute(vid);
  }

  /** `disabled={user?.role !== 'student' || bookingLoading}`. */
  predicate SlotDisabled(user: Option<Record>, bookingLoading: bool)
  {
    !RoleIs(user, Auth.Student) || bookingLoading
  }

  /** `{ venueId: vid, sportId, timeSlot }`. */
  datatype BookRequest = BookRequest(venueId: string, sportId: int, timeSlot: string)

  /** A comment as listed: `item.user?.name`, `item.userId` and the text. */
  datatype PageComment = PageComment(userName: Option<string>, userId: Option<nat>, content: string)

  /** `item.user?.name || \`用户 ${item.userId}\``: the author's name when it is
      non-empty, otherwise the id after `用户 ` (`undefined` for a missing id). */
  function CommentAuthor(c: PageComment): (author: string)
    ensures author != ""
    ensures c.userName.Some? && c.userName.value != "" ==> author == c.userName.value
    ensures !(c.userName.Some? && c.userName.value != "") ==> |author| > 3 && author[..3] == "用户 "
    ensures !(c.userName.Some? && c.userName.value != "") && c.userId.Some? ==>
              |author| > 3 && author[3..] == NatToString(c.userId.value)
  {
    var shownId := if c.userId.Some? then NatToString(c.userId.value) else "undefined";
    if c.userName.Some? && c.userName.value != "" then c.userName.value else "用户 " + shownId
  }

  /** The fallback author can be read back to the comment's user id. */
  lemma AuthorNamesUser(c: PageComment)
    requires !(c.userName.Some? && c.userName.value != "") && c.userId.Some?
    ensures AllDigits(CommentAuthor(c)[3..])
    ensures DecimalValue(CommentAuthor(c)[3..]) == c.userId.value
  {
    DecimalRoundTrip(c.userId.value);
  }

  /** The page's booking and comment state. */
  class VenueDetailPage {
    const vid: string
    var bookingLoading: bool
    var commentSubmitting: bool
    var comments: seq<PageComment>

    constructor (id: string, listed: seq<PageComment>)
      ensures vid == id && !bookingLoading && !commentSubmitting && comments == listed
    {
      vid := id;
      bookingLoading := false;
      commentSubmitting := false;
      comments := listed;
    }

    /** `handleBook(sport.sid, slot)` for a slot of `timeSlots`, up to its `await`: anyone but a student is only warned;
        for a student the request goes out and `bookingLoading` is set, which
        disables every slot button until the reply arrives. A missing user
        faults at `user.role` and sends nothing. */
    method BeginBook(user: Option<Record>, sportId: int, timeSlot: string) returns (sent: Option<BookRequest>)
      requires timeSlot in TimeSlots
      modifies this
      ensures sent.Some? <==> RoleIs(user, Auth.Student)
      ensures !SlotDisabled(user, old(bookingLoading)) ==> sent.Some?
      ensures sent.Some? ==> sent.value == BookRequest(vid, sportId, timeSlot) && bookingLoading
      ensures sent.Some? ==> sent.value.timeSlot in TimeSlots
      ensures sent.None? ==> bookingLoading == old(bookingLoading)
      ensures SlotDisabled(user, bookingLoading)
      ensures commentSubmitting == old(commentSubmitting) && comments == old(comments)
    {
      if user.None? || "role" !in user.value || user.value["role"] != Auth.Student {
        return None;
      }
      bookingLoading := true;
      sent := Some(BookRequest(vid, sportId, timeSlot));
    }

    /** The `finally` of `handleBook`: whatever the reply, loading ends. */
    method FinishBook(response: Outcome<()>)
      modifies this
      ensures !bookingLoading
      ensures commentSubmitting == old(commentSubmitting) && comments == old(comments)
    {
      bookingLoading := false;
    }

    /** The comment form and `handleCommentSubmit`: an empty text is stopped by
        the form's `required` rule, a missing user by the handler; otherwise the
        reply's comment is appended after the existing ones. A sent comment's
        submitting flag ends false whatever the reply. */
    method HandleCommentSubmit(user: Option<Record>, content: string, response: Outcome<PageComment>)
      returns (sent: bool)
      modifies this
      ensures sent <==> content != "" && user.Some?
      ensures sent && response.Ok? ==> comments == old(comments) + [response.data]
      ensures !(sent && response.Ok?) ==> comments == old(comments)
      ensures sent ==> !commentSubmitting
      ensures !sent ==> commentSubmitting == old(commentSubmitting)
      ensures |comments| >= |old(comments)| && comments[..|old(comments)|] == old(comments)
      ensures bookingLoading == old(bookingLoading)
    {
      if content == "" || user.None? {
        return false;
      }
      sent := true;
      commentSubmitting := true;
      if response.Ok? {
        comments := comments + [response.data];
      }
      commentSubmitting := false;
    }
  }
}
