/**
 * The backend's status-update endpoint: `PATCH /orders/<id>/` with a JSON
 * body `{ status, cancelled_by }`. A status the restaurant may set is stored
 * (stamping the completion time on the first move into `completed`) and,
 * unless the change came from Kyte itself, reported to Kyte by a webhook;
 * any other status is refused with 400 and changes nothing.
 */
module OrderViews {
  import opened Wrappers
  import opened Orders

  /** The statuses a PATCH may set: everything but `pending` and `ready`. */
  const SettableStatuses: set<Status> := {Accepted, Rejected, Delayed, Cancelled, Completed}

  /** The `cancelled_by` value that marks a change Kyte made itself. */
  const Kyte: string := "kyte"

  /** The fields of the request body the endpoint reads; absent or `null` is `None`. */
  datatype PatchBody = PatchBody(status: Option<string>, cancelledBy: Option<string>)

  /** The reply: the serialized order, or 400 with an error message. */
  datatype PatchResponse = Updated(order: Order) | BadRequest(error: string)

  /** The webhook call `POST {KYTE_BACKEND_URL}/webhook/order-status?order_id=..&status=..`. */
  datatype Notification = Notification(orderId: string, status: string)

  /** What one PATCH does: the stored order afterwards, the reply, and the webhook call if any. */
  datatype PatchOutcome = PatchOutcome(order: Order, response: PatchResponse, notification: Option<Notification>)

  /** The HTTP status of a reply. */
  function HttpStatus(r: PatchResponse): (code: int)
    ensures code == 200 <==> r.Updated?
    ensures code == 400 <==> r.BadRequest?
  {
    if r.Updated? then 200 else 400
  }

  /**
   * The status a request body asks for, when it is one the endpoint accepts:
   * exactly the five names `accepted`, `rejected`, `delayed`, `cancelled`
   * and `completed`.
   */
  function AllowedStatus(requested: Option<string>): (r: Option<Status>)
    ensures r.Some? <==>
      requested.Some? && requested.value in {"accepted", "rejected", "delayed", "cancelled", "completed"}
    ensures r.Some? ==> r.value in SettableStatuses && Name(r.value) == requested.value
  {
    match requested
    case None => None
    case Some(name) =>
      match Parse(name)
      case Some(s) => if s in SettableStatuses then Some(s) else None
      case None => None
  }

  /**
   * The whole effect of one PATCH on the stored order. Only `status` and
   * `completedAt` can change; `completedAt` is set to `now` exactly when the
   * order moves into `completed` from another status; the webhook carries the
   * requested status string and is skipped only when `cancelled_by` is "kyte".
   */
  function PatchRule(o: Order, body: PatchBody, now: int): (r: PatchOutcome)
    ensures AllowedStatus(body.status).None? ==>
      r == PatchOutcome(o, BadRequest("Invalid status"), None)
    ensures AllowedStatus(body.status).Some? ==>
      && r.order.status == AllowedStatus(body.status).value
      && r.response == Updated(r.order)
      && r.order.id == o.id && r.order.createdAt == o.createdAt
      && r.order.displayNumber == o.displayNumber
    ensures r.order.completedAt ==
      if r.order.status == Completed && o.status != Completed then Some(now) else o.completedAt
    ensures r.notification.Some? <==> r.response.Updated? && body.cancelledBy != Some(Kyte)
    ensures r.notification.Some? ==> r.notification == Some(Notification(o.id, Name(r.order.status)))
  {
    match AllowedStatus(body.status)
    case None => PatchOutcome(o, BadRequest("Invalid status"), None)
    case Some(s) =>
      var stamped := if s == Completed && o.status != Completed then Some(now) else o.completedAt;
      var updated := o.(status := s, completedAt := stamped);
      var note := if body.cancelledBy != Some(Kyte) then Some(Notification(o.id, body.status.value)) else None;
      PatchOutcome(updated, Updated(updated), note)
  }

  /** A row of the orders table, as far as the endpoint touches it. */
  class OrderRow {
    const id: string
    const createdAt: int
    const displayNumber: Option<int>
    var status: Status
    var completedAt: Option<int>

    /** The row as an order record. */
    function Record(): Order
      reads this
    {
      Order(id, status, createdAt, completedAt, displayNumber)
    }

    constructor(initial: Order)
      ensures Record() == initial
    {
      id := initial.id;
      createdAt := initial.createdAt;
      displayNumber := initial.displayNumber;
      status := initial.status;
      completedAt := initial.completedAt;
    }
  }

  /**
   * `OrderDetailView.patch` on the row `get_object` found, with `now` the
   * server clock. It updates the row in place and returns the reply and the
   * webhook call it makes.
   */
  method Patch(row: OrderRow, body: PatchBody, now: int) returns (response: PatchResponse, notification: Option<Notification>)
    modifies row
    ensures PatchOutcome(row.Record(), response, notification) == PatchRule(old(row.Record()), body, now)
  {
    var newStatus := AllowedStatus(body.status);
    if newStatus.Some? {
      var oldStatus := row.status;
      row.status := newStatus.value;
      if newStatus.value == Completed && oldStatus != Completed {
        row.completedAt := Some(now);
      }
      notification := None;
      if body.cancelledBy != Some(Kyte) {
        notification := Some(Notification(row.id, body.status.value));
      }
      response := Updated(row.Record());
      return;
    }
    response := BadRequest("Invalid status");
    notification := None;
  }

  /** A completed order carries its completion time. */
  ghost predicate Stamped(o: Order) {
    o.status == Completed ==> o.completedAt.Some?
  }

  /** A sequence of PATCH requests, each with the server clock when it arrives. */
  function PatchAll(o: Order, requests: seq<(PatchBody, int)>): Order {
    if requests == [] then o
    else
      var last := requests[|requests| - 1];
      PatchRule(PatchAll(o, requests[..|requests| - 1]), last.0, last.1).order
  }

  /** Every PATCH keeps a completed order stamped, so any run of them does. */
  lemma {:induction false} PatchesKeepCompletedStamped(o: Order, requests: seq<(PatchBody, int)>)
    requires Stamped(o)
    ensures Stamped(PatchAll(o, requests))
  {
    if requests != [] {
      PatchesKeepCompletedStamped(o, requests[..|requests| - 1]);
    }
  }

  /** The last status a run of requests validly asked for, or `initial` if none did. */
  function LastAllowed(initial: Status, requests: seq<(PatchBody, int)>): Status {
    if requests == [] then initial
    else
      match AllowedStatus(requests[|requests| - 1].0.status)
      case Some(s) => s
      case None => LastAllowed(initial, requests[..|requests| - 1])
  }

  /**
   * The stored status is the last valid one requested: invalid requests are
   * ignored, and a valid one overrides whatever came before, with no
   * transition table constraining it.
   */
  lemma {:induction false} StatusIsLastAllowed(o: Order, requests: seq<(PatchBody, int)>)
    ensures PatchAll(o, requests).status == LastAllowed(o.status, requests)
    ensures PatchAll(o, requests).id == o.id
  {
    if requests != [] {
      StatusIsLastAllowed(o, requests[..|requests| - 1]);
    }
  }

  /** Completing an already completed order again keeps its first completion time. */
  lemma CompletionIsStampedOnce(o: Order, t1: int, t2: int, cancelledBy: Option<string>)
    ensures var once := PatchRule(o, PatchBody(Some("completed"), cancelledBy), t1).order;
      PatchRule(once, PatchBody(Some("completed"), cancelledBy), t2).order == once
  {
  }
}
