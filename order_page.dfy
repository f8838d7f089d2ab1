/** The order page: a student's pending reservations and the order they become,
    a teacher's list of orders and the approve/reject decision. The decision
    itself is taken by the server; this page only sends requests. */
module Orders {
  import opened Base
  import Auth

  /** `已提交`: the status of a submitted order awaiting a decision. */
  const Submitted := "已提交"
  const Approved := "approved"

  datatype Reservation = Reservation(rid: int, venueName: string, sportName: string, timeSlot: string)

  datatype Order = Order(oid: int, studentName: string, status: string, items: seq<Reservation>)

  /** The requests this page sends. */
  datatype Request =
    | ListReservations
    | ListOrders
    | DeleteReservation(rid: int)
    | CreateOrder(reservations: seq<int>)
    | ApproveOrder(oid: int, approve: bool)

  /** `studentReservations.map(r => r.rid)`. */
  function Rids(rs: seq<Reservation>): (ids: seq<int>)
    ensures |ids| == |rs|
    ensures forall i :: 0 <= i < |rs| ==> ids[i] == rs[i].rid
  {
    if rs == [] then [] else [rs[0].rid] + Rids(rs[1..])
  }

  /** The "create order" button is disabled exactly when the list is empty. */
  predicate CreateDisabled(rs: seq<Reservation>)
  {
    |rs| == 0
  }

  /** A handler's effect: the request it sent, and whether it then reloads its list. */
  datatype Handled = Handled(sent: Option<Request>, reload: bool)

  /** `handleCreateOrder`: an empty list only warns; otherwise one request
      carrying every listed `rid`, in order, and a reload after success. */
  function HandleCreateOrder(rs: seq<Reservation>, response: Outcome<()>): (h: Handled)
    ensures h.sent.None? <==> CreateDisabled(rs)
    ensures h.sent.Some? ==> h.sent.value.CreateOrder? && |h.sent.value.reservations| == |rs|
    ensures h.sent.Some? ==> forall i :: 0 <= i < |rs| ==> h.sent.value.reservations[i] == rs[i].rid
    ensures h.reload <==> h.sent.Some? && response.Ok?
  {
    if |rs| == 0 then Handled(None, false)
    else Handled(Some(CreateOrder(Rids(rs))), response.Ok?)
  }

  /** The decision strings the two action buttons pass. */
  const Rejected := "rejected"

  /** `const isApproved = status === 'approved'`: only the exact string approves. */
  function ApproveFlag(decision: string): (approve: bool)
    ensures approve <==> decision == Approved
  {
    decision == Approved
  }

  /** `handleApproveOrder(orderId, status)`: one request, reload after success. */
  function HandleApproveOrder(oid: int, decision: string, response: Outcome<()>): (h: Handled)
    ensures h.sent == Some(ApproveOrder(oid, decision == Approved))
    ensures h.reload <==> response.Ok?
  {
    Handled(Some(ApproveOrder(oid, ApproveFlag(decision))), response.Ok?)
  }

  /** `handleDeleteReservation(reservationId)`: the request names that id, reload after success. */
  function HandleDeleteReservation(reservationId: int, response: Outcome<()>): (h: Handled)
    ensures h.sent == Some(DeleteReservation(reservationId))
    ensures h.reload <==> response.Ok?
  {
    Handled(Some(DeleteReservation(reservationId)), response.Ok?)
  }

  /** The student table's actions column: row i's delete button calls the
      handler with `record.rid` of that row. */
  function DeleteButtons(rs: seq<Reservation>, response: Outcome<()>): (hs: seq<Handled>)
    ensures |hs| == |rs|
    ensures forall i :: 0 <= i < |rs| ==> hs[i] == HandleDeleteReservation(rs[i].rid, response)
  {
    if rs == [] then [] else [HandleDeleteReservation(rs[0].rid, response)] + DeleteButtons(rs[1..], response)
  }

  /** Row i's delete button removes the reservation at position i of the rid
      list, which is also an id the "create order" request would carry. */
  lemma DeleteButtonsMatchRows(rs: seq<Reservation>, response: Outcome<()>, i: nat)
    requires i < |rs|
    ensures DeleteButtons(rs, response)[i].sent == Some(DeleteReservation(Rids(rs)[i]))
    ensures DeleteButtons(rs, response)[i].reload <==> response.Ok?
    ensures Rids(rs)[i] in HandleCreateOrder(rs, response).sent.value.reservations
  {
    assert HandleCreateOrder(rs, response).sent.value.reservations[i] == rs[i].rid;
  }

  /** A status tag: its color and its text. */
  datatype Tag = Tag(color: string, text: string)

  const ApprovedTag := Tag("success", "已通过")
  const PendingTag := Tag("processing", "待审批")
  const RejectedTag := Tag("error", "已拒绝")

  /** The status column: a total three-way map in which everything that is
      neither `approved` nor `已提交` shows as rejected. */
  function StatusTag(status: string): (t: Tag)
    ensures t == ApprovedTag <==> status == Approved
    ensures t == PendingTag <==> status == Submitted
    ensures t == RejectedTag <==> status != Approved && status != Submitted
  {
    if status == Approved then ApprovedTag
    else if status == Submitted then PendingTag
    else RejectedTag
  }

  /** The teacher table's action column shows approve and reject only for a
      submitted order, which is exactly an order whose tag reads "pending". */
  function ShowsActions(order: Order): (shown: bool)
    ensures shown <==> order.status == Submitted
    ensures shown <==> StatusTag(order.status) == PendingTag
  {
    order.status == Submitted
  }

  /** The requests the action column of one order row can send: the 通过 button
      passes `approved`, the 拒绝 button `rejected`. */
  function Actions(order: Order): (rs: seq<Request>)
    ensures rs == [] <==> !ShowsActions(order)
    ensures rs == [] <==> StatusTag(order.status) != PendingTag
    ensures rs != [] ==> rs == [ApproveOrder(order.oid, true), ApproveOrder(order.oid, false)]
  {
    if ShowsActions(order) then
      [HandleApproveOrder(order.oid, Approved, Fail("")).sent.value,
       HandleApproveOrder(order.oid, Rejected, Fail("")).sent.value]
    else []
  }

  /** The list a signed-in session loads on this page. */
  datatype Load = LoadReservations | LoadOrders | LoadNothing

  /** The effect on `[token, user]`: a student loads reservations, a teacher
      loads orders, any other role (or no session) loads neither. */
  function LoadFor(token: Option<string>, user: Option<Record>): (l: Load)
    ensures l == LoadReservations <==> Auth.HasToken(token) && RoleIs(user, Auth.Student)
    ensures l == LoadOrders <==> Auth.HasToken(token) && RoleIs(user, Auth.Teacher)
  {
    if Auth.HasToken(token) && user.Some? then
      if RoleIs(user, Auth.Student) then LoadReservations
      else if RoleIs(user, Auth.Teacher) then LoadOrders
      else LoadNothing
    else LoadNothing
  }

  /** What the page renders for given state. Given a finished load, any signed-in
      role other than student gets the teacher view; but a role that is neither
      student nor teacher starts no fetch (`LoadFor` is `LoadNothing`), so on the
      page `loading` keeps its initial `true` and the spinner stays. */
  datatype View = Spinner | Blank | StudentView(rows: seq<Reservation>, createDisabled: bool) | TeacherView(orderRows: seq<Order>)

  function Render(authLoading: bool, loading: bool, user: Option<Record>,
                  reservations: seq<Reservation>, orders: seq<Order>): (v: View)
    ensures v.Spinner? <==> authLoading || loading
    ensures !authLoading && !loading && user.None? ==> v == Blank
    ensures !authLoading && !loading && RoleIs(user, Auth.Student) ==>
              v == StudentView(reservations, CreateDisabled(reservations))
    ensures !authLoading && !loading && user.Some? && !RoleIs(user, Auth.Student) ==>
              v == TeacherView(orders)
    ensures v.StudentView? ==> (v.createDisabled <==> |reservations| == 0)
  {
    if authLoading || loading then Spinner
    else if user.None? then Blank
    else if RoleIs(user, Auth.Student) then StudentView(reservations, CreateDisabled(reservations))
    else TeacherView(orders)
  }

  /** The page's list state. */
  class OrderPage {
    var loading: bool
    var studentReservations: seq<Reservation>
    var teacherOrders: seq<Order>

    constructor ()
      ensures loading && studentReservations == [] && teacherOrders == []
    {
      loading := true;
      studentReservations := [];
      teacherOrders := [];
    }

    /** `fetchStudentReservations`: a reply replaces the list (a missing list is
        `[]`); a failure keeps it. Loading ends either way. */
    method FetchStudentReservations(response: Outcome<Option<seq<Reservation>>>)
      modifies this
      ensures !loading && teacherOrders == old(teacherOrders)
      ensures response.Ok? ==> studentReservations == response.data.GetOr([])
      ensures response.Fail? ==> studentReservations == old(studentReservations)
    {
      loading := true;
      if response.Ok? {
        studentReservations := response.data.GetOr([]);
      }
      loading := false;
    }

    /** `fetchTeacherOrders`, with the same shape. */
    method FetchTeacherOrders(response: Outcome<Option<seq<Order>>>)
      modifies this
      ensures !loading && studentReservations == old(studentReservations)
      ensures response.Ok? ==> teacherOrders == response.data.GetOr([])
      ensures response.Fail? ==> teacherOrders == old(teacherOrders)
    {
      loading := true;
      if response.Ok? {
        teacherOrders := response.data.GetOr([]);
      }
      loading := false;
    }
  }
}
