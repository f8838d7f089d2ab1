/** The venue detail view reached at `/venue/:id`: a sport and a time slot are
    picked together by one click, a reservation is sent for that pair, and
    comments are listed and added. */
module Booking {
  import opened Base

  const MissingChoice := "请选择运动并填写时间段"

  /** The pair picked by the slot buttons; `sport` is `None` for the initial ''. */
  datatype Selection = Selection(sport: Option<int>, slot: string)

  const NoSelection := Selection(None, "")

  /** Every slot held is one of the four offered. */
  predicate SlotOffered(sel: Selection)
  {
    sel.slot == "" || sel.slot in TimeSlots
  }

  /** A click on slot `time` of sport `sid` sets both halves at once. */
  function Select(sid: int, time: string): (sel: Selection)
    ensures sel.sport == Some(sid) && sel.slot == time
    ensures time in TimeSlots ==> SlotOffered(sel)
  {
    Selection(Some(sid), time)
  }

  /** `selectedSport === sport.sid && timeSlot`: the reserve button under sport `sid`. */
  predicate ShowsReserve(sel: Selection, sid: int)
  {
    sel.sport == Some(sid) && Truthy(sel.slot)
  }

  /** After a click, the reserve button shows under the clicked sport and no other. */
  lemma ButtonFollowsClick(sid: int, time: string, other: int)
    requires time in TimeSlots
    ensures ShowsReserve(Select(sid, time), other) <==> other == sid
  {
  }

  /** For sports with distinct ids at most one reserve button is visible. */
  lemma AtMostOneButton(sel: Selection, sports: seq<Sport>, i: nat, j: nat)
    requires i < |sports| && j < |sports|
    requires forall a, b :: 0 <= a < b < |sports| ==> sports[a].sid != sports[b].sid
    requires ShowsReserve(sel, sports[i].sid) && ShowsReserve(sel, sports[j].sid)
    ensures i == j
  {
  }

  /** `!selectedSport || !timeSlot` fails: both halves are truthy. */
  predicate ReserveAllowed(sel: Selection)
  {
    IdTruthy(sel.sport) && Truthy(sel.slot)
  }

  /** `{ venueId, sportId, timeSlot }`. */
  datatype ReserveRequest = ReserveRequest(venueId: string, sportId: int, timeSlot: string)

  /** A visible reserve button leads to a request unless the sport's id is 0,
      which the truthiness guard reads as "no sport". */
  lemma ButtonMeansAllowed(sel: Selection, sid: int)
    requires ShowsReserve(sel, sid)
    ensures ReserveAllowed(sel) <==> sid != 0
  {
  }

  datatype ReserveResult = ReserveResult(sent: Option<ReserveRequest>, next: Selection)

  /** `handleReserve`: a missing half sends nothing; otherwise the request for
      the picked pair, and only a successful reply clears the pair. */
  function Reserve(sel: Selection, vid: string, response: Outcome<Reply<()>>): (r: ReserveResult)
    ensures r.sent.None? <==> !ReserveAllowed(sel)
    ensures r.sent.Some? ==> r.sent.value == ReserveRequest(vid, sel.sport.value, sel.slot)
    ensures r.sent.Some? && response.Ok? && response.data.success ==> r.next == NoSelection
    ensures !(r.sent.Some? && response.Ok? && response.data.success) ==> r.next == sel
  {
    if !ReserveAllowed(sel) then ReserveResult(None, sel)
    else
      var req := ReserveRequest(vid, sel.sport.value, sel.slot);
      if response.Ok? && response.data.success then ReserveResult(Some(req), NoSelection)
      else ReserveResult(Some(req), sel)
  }

  /** A reservation attempt never leaves half a selection behind, and keeps the
      slot among the offered ones; after success no reserve button shows. */
  lemma ReserveKeepsSelectionWhole(sel: Selection, vid: string, response: Outcome<Reply<()>>, sid: int)
    requires SlotOffered(sel)
    ensures var next := Reserve(sel, vid, response).next;
      SlotOffered(next) && (next == sel || next == NoSelection)
    ensures Reserve(sel, vid, response).next == NoSelection ==> !ShowsReserve(NoSelection, sid)
  {
  }

  // --------------------------------------------------------------- comments

  datatype Comment = Comment(cid: int, content: string)

  /** `{ venueId, userId, content }`; a user without `uid` sends no `userId`. */
  datatype CommentRequest = CommentRequest(venueId: string, userId: Option<string>, content: string)

  /** The request `handleAddComment` sends: none when storage holds no user,
      since reading `.uid` of `null` throws before the request; the draft is
      sent as it is, even when empty. */
  function CommentRequestFor(storage: Storage, vid: string, draft: string): (req: Option<CommentRequest>)
    ensures req.None? <==> StoredUser(storage).None?
    ensures req.Some? ==> req.value.venueId == vid && req.value.content == draft
    ensures req.Some? ==> (req.value.userId.Some? <==> "uid" in StoredUser(storage).value)
    ensures req.Some? && "uid" in StoredUser(storage).value ==>
              req.value.userId == Some(StoredUser(storage).value["uid"])
  {
    match StoredUser(storage)
    case None => None
    case Some(u) => Some(CommentRequest(vid, if "uid" in u then Some(u["uid"]) else None, draft))
  }

  /** The page's state. */
  class VenueDetail {
    const vid: string
    var selection: Selection
    var newComment: string
    var comments: seq<Comment>

    predicate Valid()
      reads this
    {
      SlotOffered(selection)
    }

    constructor (id: string)
      ensures vid == id && selection == NoSelection && newComment == "" && comments == []
      ensures Valid()
    {
      vid := id;
      selection := NoSelection;
      newComment := "";
      comments := [];
    }

    /** The `onClick` of slot `time` under sport `sid`. */
    method SelectSlot(sid: int, time: string)
      requires Valid() && time in TimeSlots
      modifies this
      ensures selection == Select(sid, time) && Valid()
      ensures newComment == old(newComment) && comments == old(comments)
    {
      selection := Selection(Some(sid), time);
    }

    /** `handleReserve`: returns the request it sent. */
    method HandleReserve(response: Outcome<Reply<()>>) returns (sent: Option<ReserveRequest>)
      requires Valid()
      modifies this
      ensures sent == Reserve(old(selection), vid, response).sent
      ensures selection == Reserve(old(selection), vid, response).next && Valid()
      ensures newComment == old(newComment) && comments == old(comments)
    {
      if selection.sport.None? || selection.sport.value == 0 || selection.slot == "" {
        return None;
      }
      sent := Some(ReserveRequest(vid, selection.sport.value, selection.slot));
      if response.Ok? && response.data.success {
        selection := NoSelection;
      }
    }

    /** The textarea's `onChange`. */
    method SetNewComment(text: string)
      modifies this
      ensures newComment == text && selection == old(selection) && comments == old(comments)
    {
      newComment := text;
    }

    /** `fetchComments`: a successful reply replaces the list, anything else keeps it. */
    method FetchComments(response: Outcome<Reply<seq<Comment>>>)
      modifies this
      ensures comments == AfterListFetch(old(comments), response)
      ensures selection == old(selection) && newComment == old(newComment)
    {
      if response.Ok? && response.data.success {
        comments := response.data.data;
      }
    }

    /** `handleAddComment`: after a successful reply the draft is cleared and the
        list is fetched again with `refetch`; otherwise nothing changes. */
    method HandleAddComment(storage: Storage, response: Outcome<Reply<()>>, refetch: Outcome<Reply<seq<Comment>>>)
      returns (sent: Option<CommentRequest>)
      modifies this
      ensures sent == CommentRequestFor(storage, vid, old(newComment))
      ensures selection == old(selection)
      ensures sent.Some? && response.Ok? && response.data.success ==>
                newComment == "" && comments == AfterListFetch(old(comments), refetch)
      ensures !(sent.Some? && response.Ok? && response.data.success) ==>
                newComment == old(newComment) && comments == old(comments)
    {
      sent := CommentRequestFor(storage, vid, newComment);
      if sent.None? {
        return;
      }
      if response.Ok? && response.data.success {
        newComment := "";
        FetchComments(refetch);
      }
    }
  }
}
