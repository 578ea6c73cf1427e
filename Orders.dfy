/**
 * The order record as the backend stores it and the dashboard receives it,
 * and the one collection operation every view of it is built from: keeping
 * the orders whose status is in a given set, in their original order.
 */
module Orders {
  import opened Wrappers

  /** The seven status choices of the order model, `ready` included. */
  datatype Status = Pending | Accepted | Rejected | Delayed | Cancelled | Ready | Completed

  /** Every status there is. */
  const AllStatuses: set<Status> := {Pending, Accepted, Rejected, Delayed, Cancelled, Ready, Completed}

  /** The string that stands for a status in the database and in JSON. */
  function Name(s: Status): (name: string)
    ensures Parse(name) == Some(s)
  {
    match s
    case Pending => "pending"
    case Accepted => "accepted"
    case Rejected => "rejected"
    case Delayed => "delayed"
    case Cancelled => "cancelled"
    case Ready => "ready"
    case Completed => "completed"
  }

  /** The status a string stands for, if it stands for one. */
  function Parse(name: string): (r: Option<Status>)
    ensures r.None? <==>
      name !in {"pending", "accepted", "rejected", "delayed", "cancelled", "ready", "completed"}
  {
    if name == "pending" then Some(Pending)
    else if name == "accepted" then Some(Accepted)
    else if name == "rejected" then Some(Rejected)
    else if name == "delayed" then Some(Delayed)
    else if name == "cancelled" then Some(Cancelled)
    else if name == "ready" then Some(Ready)
    else if name == "completed" then Some(Completed)
    else None
  }

  /** Parsing inverts naming: every string that parses is the name of what it parses to. */
  lemma ParseIsNameInverse(name: string)
    ensures Parse(name).Some? ==> Name(Parse(name).value) == name
  {
  }

  /**
   * The fields of an order this model looks at. Timestamps are milliseconds
   * since the epoch; `completedAt` and `displayNumber` may be absent.
   */
  datatype Order = Order(
    id: string,
    status: Status,
    createdAt: int,
    completedAt: Option<int>,
    displayNumber: Option<int>)

  /** `orders.filter(o => statuses includes o.status)`. */
  function WithStatus(orders: seq<Order>, statuses: set<Status>): (r: seq<Order>)
    ensures |r| <= |orders|
    ensures forall i :: 0 <= i < |r| ==> r[i].status in statuses
    ensures forall o :: o in r <==> o in orders && o.status in statuses
    ensures forall o :: multiset(r)[o] == if o.status in statuses then multiset(orders)[o] else 0
  {
    if orders == [] then []
    else
      var rest := WithStatus(orders[1..], statuses);
      assert orders == [orders[0]] + orders[1..];
      if orders[0].status in statuses then [orders[0]] + rest else rest
  }

  /** Filtering keeps input order: it distributes over concatenation. */
  lemma {:induction false} WithStatusAppend(s: seq<Order>, t: seq<Order>, statuses: set<Status>)
    ensures WithStatus(s + t, statuses) == WithStatus(s, statuses) + WithStatus(t, statuses)
  {
    if s == [] {
      assert s + t == t;
    } else {
      var st := s + t;
      assert st[0] == s[0] && st[1..] == s[1..] + t;
      WithStatusAppend(s[1..], t, statuses);
    }
  }

  /** Every status is one of the seven choices. */
  lemma StatusIsListed(s: Status)
    ensures s in AllStatuses
  {
    match s
    case Pending => case Accepted => case Rejected => case Delayed =>
    case Cancelled => case Ready => case Completed =>
  }

  /** One step of the filter on a non-empty sequence. */
  lemma WithStatusStep(orders: seq<Order>, statuses: set<Status>)
    requires orders != []
    ensures WithStatus(orders, statuses) ==
      (if orders[0].status in statuses then [orders[0]] else []) + WithStatus(orders[1..], statuses)
  {
  }

  /** Filtering by every status keeps everything. */
  lemma {:induction false} WithStatusAll(orders: seq<Order>, statuses: set<Status>)
    requires AllStatuses <= statuses
    ensures WithStatus(orders, statuses) == orders
  {
    if orders != [] {
      WithStatusAll(orders[1..], statuses);
      WithStatusStep(orders, statuses);
      StatusIsListed(orders[0].status);
      assert orders == [orders[0]] + orders[1..];
    }
  }

  /** Filtering twice is filtering once by the intersection. */
  lemma {:induction false} WithStatusTwice(orders: seq<Order>, a: set<Status>, b: set<Status>)
    ensures WithStatus(WithStatus(orders, a), b) == WithStatus(orders, a * b)
  {
    if orders != [] {
      WithStatusTwice(orders[1..], a, b);
    }
  }

  /** Filtering by two disjoint status sets splits the filter by their union. */
  lemma {:induction false} WithStatusSplit(orders: seq<Order>, a: set<Status>, b: set<Status>)
    requires a !! b
    ensures |WithStatus(orders, a + b)| == |WithStatus(orders, a)| + |WithStatus(orders, b)|
  {
    if orders != [] {
      WithStatusSplit(orders[1..], a, b);
    }
  }

  /** Two filters by disjoint status sets share no order. */
  lemma DisjointFilters(orders: seq<Order>, a: set<Status>, b: set<Status>)
    requires a !! b
    ensures forall o :: !(o in WithStatus(orders, a) && o in WithStatus(orders, b))
  {
  }
}
