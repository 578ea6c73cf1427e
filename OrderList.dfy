/**
 * The two-list order view: "Active Orders" (pending or accepted) and
 * "Recent Orders" (completed or cancelled). At most five recent cards are
 * drawn, while each header counts its whole list.
 */
module OrderList {
  import opened Wrappers
  import opened Orders

  const ActiveListStatuses: set<Status> := {Pending, Accepted}
  const RecentListStatuses: set<Status> := {Completed, Cancelled}

  /** How many recent cards are drawn. */
  const RecentCardLimit: nat := 5

  /** The orders of the active list, in input order. */
  function ActiveList(orders: seq<Order>): (r: seq<Order>)
    ensures forall o :: multiset(r)[o] == if o.status in {Pending, Accepted} then multiset(orders)[o] else 0
  {
    WithStatus(orders, ActiveListStatuses)
  }

  /** The orders of the recent list, in input order. */
  function RecentList(orders: seq<Order>): (r: seq<Order>)
    ensures forall o :: multiset(r)[o] == if o.status in {Completed, Cancelled} then multiset(orders)[o] else 0
  {
    WithStatus(orders, RecentListStatuses)
  }

  /** `s.slice(0, n)`: the first `n` elements, or all of them when there are fewer. */
  function Take(s: seq<Order>, n: nat): (r: seq<Order>)
    ensures |r| == if |s| < n then |s| else n
    ensures r <= s
  {
    if |s| <= n then s else s[..n]
  }

  /**
   * The recent cards drawn: the first five recent orders. Fewer than five are
   * drawn only when that is all there are.
   */
  function RenderedRecent(orders: seq<Order>): (r: seq<Order>)
    ensures r <= RecentList(orders)
    ensures |r| <= RecentCardLimit
    ensures |r| < RecentCardLimit ==> r == RecentList(orders)
  {
    Take(RecentList(orders), RecentCardLimit)
  }

  /**
   * No order is in both lists; delayed, rejected and ready orders are in
   * neither; and together the lists hold exactly the orders with one of their
   * four statuses.
   */
  lemma ListsAreDisjoint(orders: seq<Order>)
    ensures forall o :: !(o in ActiveList(orders) && o in RecentList(orders))
    ensures forall o: Order :: o.status in {Delayed, Rejected, Ready} ==>
      o !in ActiveList(orders) && o !in RecentList(orders)
    ensures |ActiveList(orders)| + |RecentList(orders)|
            == |WithStatus(orders, {Pending, Accepted, Completed, Cancelled})|
  {
    ListStatusesAreDisjoint();
    DisjointFilters(orders, ActiveListStatuses, RecentListStatuses);
    WithStatusSplit(orders, ActiveListStatuses, RecentListStatuses);
  }

  /** How many orders have a status in `statuses`. */
  function CountWithStatus(orders: seq<Order>, statuses: set<Status>): nat {
    if orders == [] then 0
    else (if orders[0].status in statuses then 1 else 0) + CountWithStatus(orders[1..], statuses)
  }

  /** A filtered list is as long as the number of orders with those statuses. */
  lemma {:induction false} FilterLengthIsCount(orders: seq<Order>, statuses: set<Status>)
    ensures |WithStatus(orders, statuses)| == CountWithStatus(orders, statuses)
  {
    if orders != [] {
      FilterLengthIsCount(orders[1..], statuses);
      WithStatusStep(orders, statuses);
    }
  }

  /** The number in the "Active Orders" header: every pending or accepted order. */
  function ActiveHeaderCount(orders: seq<Order>): (n: nat)
    ensures n == CountWithStatus(orders, {Pending, Accepted})
  {
    FilterLengthIsCount(orders, ActiveListStatuses);
    |ActiveList(orders)|
  }

  /** The number in the "Recent Orders" header: every completed or cancelled order, drawn or not. */
  function RecentHeaderCount(orders: seq<Order>): (n: nat)
    ensures n == CountWithStatus(orders, {Completed, Cancelled})
  {
    FilterLengthIsCount(orders, RecentListStatuses);
    |RecentList(orders)|
  }

  /**
   * The recent header never counts fewer orders than there are recent cards;
   * it counts exactly the cards when fewer than five are drawn, and more than
   * five only when five are drawn.
   */
  lemma RecentCountCoversDrawnCards(orders: seq<Order>)
    ensures RecentHeaderCount(orders) >= |RenderedRecent(orders)|
    ensures |RenderedRecent(orders)| < RecentCardLimit ==> RecentHeaderCount(orders) == |RenderedRecent(orders)|
    ensures RecentHeaderCount(orders) > RecentCardLimit ==> |RenderedRecent(orders)| == RecentCardLimit
  {
  }

  /** One drawn `OrderCard`: the order it shows and whether it is highlighted. */
  datatype Card = Card(order: Order, isSelected: bool)

  /**
   * `list.map(order => <OrderCard order={order} isSelected={selectedOrderId === order.id} />)`:
   * one card per order, in list order, highlighted exactly when its id is the
   * selected one (an absent selection highlights nothing).
   */
  function DrawCards(list: seq<Order>, selectedId: Option<string>): (r: seq<Card>)
    ensures |r| == |list|
    ensures forall i :: 0 <= i < |r| ==> r[i].order == list[i]
    ensures forall i :: 0 <= i < |r| ==> (r[i].isSelected <==> selectedId == Some(list[i].id))
  {
    if list == [] then []
    else [Card(list[0], selectedId == Some(list[0].id))] + DrawCards(list[1..], selectedId)
  }

  /** The cards under "Active Orders": every active order is drawn. */
  function ActiveCards(orders: seq<Order>, selectedId: Option<string>): seq<Card> {
    DrawCards(ActiveList(orders), selectedId)
  }

  /**
   * The cards under "Recent Orders": the first five recent orders, drawn and
   * highlighted as the active ones are.
   */
  function RecentCards(orders: seq<Order>, selectedId: Option<string>): (r: seq<Card>)
    ensures |r| <= RecentCardLimit && |r| <= |RecentList(orders)|
    ensures |r| < RecentCardLimit ==> |r| == RecentHeaderCount(orders)
    ensures forall i :: 0 <= i < |r| ==> r[i].order == RecentList(orders)[i]
    ensures forall i :: 0 <= i < |r| ==> (r[i].isSelected <==> selectedId == Some(r[i].order.id))
  {
    var drawn := RenderedRecent(orders);
    RecentCountCoversDrawnCards(orders);
    assert forall i :: 0 <= i < |drawn| ==> drawn[i] == RecentList(orders)[i];
    DrawCards(drawn, selectedId)
  }

  /**
   * The active list is drawn whole: its header counts exactly the cards shown,
   * and the cards show the pending and accepted orders in input order.
   */
  lemma ActiveCountIsDrawnCards(orders: seq<Order>, selectedId: Option<string>)
    ensures ActiveHeaderCount(orders) == |ActiveCards(orders, selectedId)|
    ensures ActiveHeaderCount(orders) == CountWithStatus(orders, {Pending, Accepted})
    ensures forall i :: 0 <= i < |ActiveCards(orders, selectedId)| ==>
      ActiveCards(orders, selectedId)[i].order == ActiveList(orders)[i]
  {
  }

  lemma ListStatusesAreDisjoint()
    ensures ActiveListStatuses !! RecentListStatuses
    ensures ActiveListStatuses + RecentListStatuses == {Pending, Accepted, Completed, Cancelled}
  {
  }
}
