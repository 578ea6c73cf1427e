/**
 * The three-section dashboard: incoming (pending), active (accepted or
 * delayed) and recent (completed, rejected or cancelled) orders; the recent
 * section is narrowed by a two-valued filter and sorted, most recent first,
 * by a two-valued key.
 */
module OrderSections {
  import opened Wrappers
  import opened Orders

  datatype SortBy = ByCompletedAt | ByCreatedAt
  datatype FilterBy = ShowCompleted | ShowCancelled

  /** The choices the section starts with. */
  const InitialSort: SortBy := ByCompletedAt
  const InitialFilter: FilterBy := ShowCompleted

  const IncomingStatuses: set<Status> := {Pending}
  const ActiveStatuses: set<Status> := {Accepted, Delayed}
  const RecentStatuses: set<Status> := {Completed, Rejected, Cancelled}

  /** The pending orders, in input order. */
  function IncomingOrders(orders: seq<Order>): (r: seq<Order>)
    ensures forall o :: multiset(r)[o] == if o.status == Pending then multiset(orders)[o] else 0
  {
    WithStatus(orders, IncomingStatuses)
  }

  /** The accepted and delayed orders, in input order. */
  function ActiveOrders(orders: seq<Order>): (r: seq<Order>)
    ensures forall o :: multiset(r)[o] == if o.status in {Accepted, Delayed} then multiset(orders)[o] else 0
  {
    WithStatus(orders, ActiveStatuses)
  }

  /** The completed, rejected and cancelled orders, in input order. */
  function AllRecentOrders(orders: seq<Order>): (r: seq<Order>)
    ensures forall o :: multiset(r)[o] == if o.status in {Completed, Rejected, Cancelled} then multiset(orders)[o] else 0
  {
    WithStatus(orders, RecentStatuses)
  }

  /**
   * The three sections split the orders: no order is in two of them, a
   * `ready` order is in none, and the section sizes plus the number of
   * `ready` orders add up to the number of orders.
   */
  lemma SectionsPartition(orders: seq<Order>)
    ensures forall o :: !(o in IncomingOrders(orders) && o in ActiveOrders(orders))
    ensures forall o :: !(o in IncomingOrders(orders) && o in AllRecentOrders(orders))
    ensures forall o :: !(o in ActiveOrders(orders) && o in AllRecentOrders(orders))
    ensures forall o: Order :: o.status == Ready ==>
      o !in IncomingOrders(orders) && o !in ActiveOrders(orders) && o !in AllRecentOrders(orders)
    ensures |IncomingOrders(orders)| + |ActiveOrders(orders)| + |AllRecentOrders(orders)|
            + |WithStatus(orders, {Ready})| == |orders|
  {
    SectionStatusesAreDisjoint();
    DisjointFilters(orders, IncomingStatuses, ActiveStatuses);
    DisjointFilters(orders, IncomingStatuses, RecentStatuses);
    DisjointFilters(orders, ActiveStatuses, RecentStatuses);
    WithStatusSplit(orders, IncomingStatuses, ActiveStatuses);
    WithStatusSplit(orders, IncomingStatuses + ActiveStatuses, RecentStatuses);
    WithStatusSplit(orders, IncomingStatuses + ActiveStatuses + RecentStatuses, {Ready});
    WithStatusAll(orders, IncomingStatuses + ActiveStatuses + RecentStatuses + {Ready});
  }

  /** The section status sets and `ready` are pairwise disjoint and cover every status. */
  lemma SectionStatusesAreDisjoint()
    ensures IncomingStatuses !! ActiveStatuses
    ensures IncomingStatuses !! RecentStatuses
    ensures ActiveStatuses !! RecentStatuses
    ensures IncomingStatuses + ActiveStatuses !! RecentStatuses
    ensures IncomingStatuses + ActiveStatuses + RecentStatuses !! {Ready}
    ensures AllStatuses <= IncomingStatuses + ActiveStatuses + RecentStatuses + {Ready}
  {
  }

  /** The statuses the recent filter lets through. */
  function FilterStatuses(f: FilterBy): (r: set<Status>)
    ensures r <= RecentStatuses
    ensures Completed in r <==> f == ShowCompleted
    ensures Rejected in r <==> f == ShowCancelled
    ensures Cancelled in r <==> f == ShowCancelled
  {
    match f
    case ShowCompleted => {Completed}
    case ShowCancelled => {Rejected, Cancelled}
  }

  lemma FilterNarrowsRecent(f: FilterBy)
    ensures RecentStatuses * FilterStatuses(f) == FilterStatuses(f)
  {
  }

  /**
   * The recent orders the filter keeps: with "completed" only the completed
   * ones; with "cancelled" the rejected and the cancelled ones. Filtering the
   * recent section is the same as filtering all orders by those statuses.
   */
  function FilteredRecentOrders(orders: seq<Order>, f: FilterBy): (r: seq<Order>)
    ensures r == WithStatus(orders, FilterStatuses(f))
  {
    WithStatusTwice(orders, RecentStatuses, FilterStatuses(f));
    FilterNarrowsRecent(f);
    WithStatus(AllRecentOrders(orders), FilterStatuses(f))
  }

  /** The sort key in milliseconds: completion time (0 when there is none) or creation time. */
  function SortKey(o: Order, sort: SortBy): int {
    match sort
    case ByCompletedAt => o.completedAt.GetOr(0)
    case ByCreatedAt => o.createdAt
  }

  /** Most recent first: the key never increases along the sequence. */
  ghost predicate SortedDescending(s: seq<Order>, sort: SortBy) {
    forall i, j :: 0 <= i < j < |s| ==> SortKey(s[i], sort) >= SortKey(s[j], sort)
  }

  /** Every order in `s` has a key of at most `k`. */
  ghost predicate KeysAtMost(s: seq<Order>, sort: SortBy, k: int) {
    forall y :: y in s ==> SortKey(y, sort) <= k
  }

  /** The tail of a sorted sequence is sorted and bounded by the head's key. */
  lemma SortedTail(s: seq<Order>, sort: SortBy)
    requires s != [] && SortedDescending(s, sort)
    ensures SortedDescending(s[1..], sort)
    ensures KeysAtMost(s[1..], sort, SortKey(s[0], sort))
  {
    var t := s[1..];
    forall i, j | 0 <= i < j < |t|
      ensures SortKey(t[i], sort) >= SortKey(t[j], sort)
    {
      assert t[i] == s[i + 1] && t[j] == s[j + 1];
    }
    forall y | y in t
      ensures SortKey(y, sort) <= SortKey(s[0], sort)
    {
      var j :| 0 <= j < |t| && t[j] == y;
      assert s[j + 1] == y;
    }
  }

  /** Putting an order in front of a sorted sequence whose keys it bounds keeps it sorted. */
  lemma SortedCons(y: Order, t: seq<Order>, sort: SortBy)
    requires SortedDescending(t, sort) && KeysAtMost(t, sort, SortKey(y, sort))
    ensures SortedDescending([y] + t, sort)
  {
    var r := [y] + t;
    forall i, j | 0 <= i < j < |r|
      ensures SortKey(r[i], sort) >= SortKey(r[j], sort)
    {
      assert r[j] == t[j - 1];
      assert t[j - 1] in t;
      if 0 < i {
        assert r[i] == t[i - 1];
      }
    }
  }

  /** Put `x` into a sorted sequence, before every element whose key is not larger. */
  function Insert(x: Order, s: seq<Order>, sort: SortBy): (r: seq<Order>)
    requires SortedDescending(s, sort)
    ensures SortedDescending(r, sort)
    ensures multiset(r) == multiset(s) + multiset{x}
    ensures |r| == |s| + 1
    ensures forall y :: y in r ==> y == x || y in s
    decreases |s|
  {
    if s == [] || SortKey(s[0], sort) <= SortKey(x, sort) then
      assert KeysAtMost(s, sort, SortKey(x, sort)) by {
        if s != [] {
          SortedTail(s, sort);
          assert s == [s[0]] + s[1..];
        }
      }
      SortedCons(x, s, sort);
      [x] + s
    else
      SortedTail(s, sort);
      var rest := Insert(x, s[1..], sort);
      assert KeysAtMost(rest, sort, SortKey(s[0], sort));
      SortedCons(s[0], rest, sort);
      assert s == [s[0]] + s[1..];
      [s[0]] + rest
  }

  /**
   * The stable sort with comparator `keyB - keyA`: a permutation of its
   * input in non-increasing key order.
   */
  function SortDescending(s: seq<Order>, sort: SortBy): (r: seq<Order>)
    ensures SortedDescending(r, sort)
    ensures multiset(r) == multiset(s)
    ensures |r| == |s|
  {
    if s == [] then []
    else
      assert s == [s[0]] + s[1..];
      Insert(s[0], SortDescending(s[1..], sort), sort)
  }

  /** The orders of `s` whose key is `k`, in order. */
  function WithKey(s: seq<Order>, sort: SortBy, k: int): seq<Order> {
    if s == [] then []
    else (if SortKey(s[0], sort) == k then [s[0]] else []) + WithKey(s[1..], sort, k)
  }

  /** One step of `WithKey` on a sequence written as head and tail. */
  lemma WithKeyCons(y: Order, t: seq<Order>, sort: SortBy, k: int)
    ensures WithKey([y] + t, sort, k) == (if SortKey(y, sort) == k then [y] else []) + WithKey(t, sort, k)
  {
    var r := [y] + t;
    assert r[0] == y && r[1..] == t;
  }

  /** `Insert` puts `x` in front when the head's key is not larger. */
  lemma InsertAtFront(x: Order, s: seq<Order>, sort: SortBy)
    requires SortedDescending(s, sort)
    requires s == [] || SortKey(s[0], sort) <= SortKey(x, sort)
    ensures Insert(x, s, sort) == [x] + s
  {
  }

  /** `Insert` keeps the head in front when its key is larger. */
  lemma InsertBehind(x: Order, s: seq<Order>, sort: SortBy)
    requires SortedDescending(s, sort)
    requires s != [] && SortKey(s[0], sort) > SortKey(x, sort)
    ensures SortedDescending(s[1..], sort)
    ensures Insert(x, s, sort) == [s[0]] + Insert(x, s[1..], sort)
  {
    SortedTail(s, sort);
  }

  lemma {:induction false} InsertKeepsTies(x: Order, s: seq<Order>, sort: SortBy, k: int)
    requires SortedDescending(s, sort)
    ensures WithKey(Insert(x, s, sort), sort, k) == (if SortKey(x, sort) == k then [x] else []) + WithKey(s, sort, k)
    decreases |s|
  {
    if s == [] || SortKey(s[0], sort) <= SortKey(x, sort) {
      InsertAtFront(x, s, sort);
      WithKeyCons(x, s, sort, k);
    } else {
      InsertBehind(x, s, sort);
      InsertKeepsTies(x, s[1..], sort, k);
      TiesBehindHead(x, s, Insert(x, s[1..], sort), sort, k);
    }
  }

  /** The tie-list step of `InsertKeepsTies` when the head stays in front. */
  lemma TiesBehindHead(x: Order, s: seq<Order>, rest: seq<Order>, sort: SortBy, k: int)
    requires s != [] && SortKey(s[0], sort) > SortKey(x, sort)
    requires WithKey(rest, sort, k) == (if SortKey(x, sort) == k then [x] else []) + WithKey(s[1..], sort, k)
    ensures WithKey([s[0]] + rest, sort, k) == (if SortKey(x, sort) == k then [x] else []) + WithKey(s, sort, k)
  {
    WithKeyCons(s[0], rest, sort, k);
    WithKeyCons(s[0], s[1..], sort, k);
    assert s == [s[0]] + s[1..];
    if SortKey(x, sort) == k {
      assert WithKey(s, sort, k) == WithKey(s[1..], sort, k);
    }
  }

  /** The sort is stable: orders with equal keys keep their input order. */
  lemma {:induction false} SortIsStable(s: seq<Order>, sort: SortBy, k: int)
    ensures WithKey(SortDescending(s, sort), sort, k) == WithKey(s, sort, k)
  {
    if s != [] {
      SortIsStable(s[1..], sort, k);
      InsertKeepsTies(s[0], SortDescending(s[1..], sort), sort, k);
      WithKeyCons(s[0], s[1..], sort, k);
      assert s == [s[0]] + s[1..];
    }
  }

  /** The recent section as shown: the filtered recent orders, most recent first. */
  function SortedRecentOrders(orders: seq<Order>, f: FilterBy, sort: SortBy): (r: seq<Order>)
    ensures SortedDescending(r, sort)
    ensures multiset(r) == multiset(FilteredRecentOrders(orders, f))
  {
    SortDescending(FilteredRecentOrders(orders, f), sort)
  }

  /** The count in the recent header is the length of the filtered list, which is the length of the list shown. */
  lemma RecentCountIsShownLength(orders: seq<Order>, f: FilterBy, sort: SortBy)
    ensures |SortedRecentOrders(orders, f, sort)| == |FilteredRecentOrders(orders, f)|
  {
    assert |multiset(SortedRecentOrders(orders, f, sort))| == |multiset(FilteredRecentOrders(orders, f))|;
  }

  /**
   * On first render the recent section shows exactly the completed orders,
   * latest completion first.
   */
  lemma FirstRenderShowsCompleted(orders: seq<Order>)
    ensures var shown := SortedRecentOrders(orders, InitialFilter, InitialSort);
      && (forall o :: multiset(shown)[o] == if o.status == Completed then multiset(orders)[o] else 0)
      && (forall i, j :: 0 <= i < j < |shown| ==> shown[i].completedAt.GetOr(0) >= shown[j].completedAt.GetOr(0))
  {
    var shown := SortedRecentOrders(orders, InitialFilter, InitialSort);
    assert FilterStatuses(InitialFilter) == {Completed};
    forall i, j | 0 <= i < j < |shown|
      ensures shown[i].completedAt.GetOr(0) >= shown[j].completedAt.GetOr(0)
    {
      assert SortKey(shown[i], InitialSort) >= SortKey(shown[j], InitialSort);
    }
  }

  /** The sort toggle swaps the key. */
  function ToggleSort(prev: SortBy): (r: SortBy)
    ensures r != prev
  {
    if prev == ByCompletedAt then ByCreatedAt else ByCompletedAt
  }

  /** The filter toggle swaps the filter. */
  function ToggleFilter(prev: FilterBy): (r: FilterBy)
    ensures r != prev
  {
    if prev == ShowCompleted then ShowCancelled else ShowCompleted
  }

  /** Toggling twice changes nothing. */
  lemma TogglesAreInvolutions(s: SortBy, f: FilterBy)
    ensures ToggleSort(ToggleSort(s)) == s
    ensures ToggleFilter(ToggleFilter(f)) == f
  {
  }
}
