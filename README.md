# Restaurant order dashboard: adaptive polling and order lifecycle

This project models, in Dafny, the core of a restaurant's order dashboard.
The dashboard is a React client polling a Django backend.

- **Conditional-request transport** (`OrderTransport`, orderTransport.ts). It keeps the
  latest `ETag` and the latest `Last-Modified` that any changed response advertised,
  each separately (RFC 9110, sections 8.8.3 and 8.8.2). It sends them back as `If-None-Match` and
  `If-Modified-Since` (sections 13.1.2 and 13.1.3). Each reply is classified as
  `304 Not Modified` (section 15.4.5), `200`, or an error it throws. The transport
  runs its own multiplicative backoff between `baseInterval` and `maxInterval`.
- **Polling hook** (`SmartPollingHook`, useSmartPolling.ts). A state machine over
  `data`, `isLoading`, `status`, the interval, the unchanged counter, the mounted
  flag and the pending timer. Its own backoff factor is a fixed 1.5.
- **Order lifecycle around the poller**:
  - the order record and the seven status choices (`Orders`);
  - the three dashboard sections with the recent filter and the stable
    most-recent-first sort (`OrderSections`);
  - the two-list view with its five-card cut (`OrderList`);
  - the action buttons and the status timeline of the detail panel (`OrderDetail`);
  - the short order label (`OrderUtils`);
  - the backend `PATCH` rule: accepted statuses, completion stamping and webhook
    suppression (`OrderViews`).

Each imperative part is a class whose methods are tied to a pure function:

- `SmartPollingTransport.FetchOrders` against `Receive`;
- `SmartPolling.Settle` against `Apply`;
- `Patch` against `PatchRule`.

The properties are proved about those functions over whole runs: bounds on the
interval, what the counters count, where the validators and the data come from,
and the closed form of the backoff schedule.

Modelling choices:

- Timestamps are integers (milliseconds).
- Intervals are exact `real` numbers.
- The HTTP call is a function parameter `send`.
- The server clock is a parameter `now`.
- `encodeURIComponent` is a parameter `encode`.

## Model

| member | source | states |
|---|---|---|
| Orders.Name | backend/orders/models.py:5-13 | the wire name of every status parses back to that status |
| Orders.Parse | backend/orders/models.py:5-13 | a string stands for a status exactly when it is one of the seven choice names |
| Orders.ParseIsNameInverse | backend/orders/models.py:5-13 | every string that parses is the name of the status it parses to |
| Orders.WithStatus | frontend/src/components/OrderSections.tsx:46-59 | the filter keeps exactly the orders whose status is in the set, each as often as in the input, and no longer than the input |
| Orders.WithStatusAppend | frontend/src/components/OrderSections.tsx:46-59 | filtering distributes over concatenation, so input order is kept |
| Orders.WithStatusAll | frontend/src/components/OrderSections.tsx:46-59 | a filter that lets every status through returns its input unchanged |
| Orders.WithStatusTwice | frontend/src/components/OrderSections.tsx:54-70 | filtering a filtered list is filtering once by the intersection of the two status sets |
| Orders.WithStatusSplit | frontend/src/components/OrderSections.tsx:46-59 | for disjoint status sets the filtered lengths add up to the length filtered by the union |
| Orders.DisjointFilters | frontend/src/components/OrderSections.tsx:46-59 | filters by disjoint status sets share no order |
| OrderTransport.OrdersUrl | frontend/src/utils/orderTransport.ts:38-40 | the URL always starts with `/orders/`; it carries `since=encode(since)` exactly when `since` is a non-empty string, and is `/orders/` otherwise |
| OrderTransport.ConditionalHeaders | frontend/src/utils/orderTransport.ts:27-35 | `If-None-Match` / `If-Modified-Since` are present exactly when the stored validator is set and non-empty, and carry that validator; the transport adds no other header |
| OrderTransport.HeaderValue | frontend/src/utils/orderTransport.ts:59-62 | the lower-case spelling wins when non-empty, otherwise the capitalised one; the result is never empty and is absent only when neither spelling has a non-empty value |
| OrderTransport.Refreshed | frontend/src/utils/orderTransport.ts:59-65 | each validator is replaced only by a value the response advertises; a missing or empty header keeps the old value; non-empty validators stay non-empty |
| OrderTransport.BackedOff | frontend/src/utils/orderTransport.ts:82-85 | the backed-off interval never exceeds the maximum, and for a sane configuration and a current interval in [base, max] never drops below that interval or the base |
| OrderTransport.Receive | frontend/src/utils/orderTransport.ts:42-75 | 304: not-modified with no data, counter + 1, interval backed off, validators kept. 200: the body, counter 0, base interval, validators refreshed. Any other status or no response: throws and changes nothing. Validator non-emptiness and interval bounds are preserved |
| OrderTransport.IntervalStaysInBounds | frontend/src/utils/orderTransport.ts:78-95 | if base ≤ max, multiplier ≥ 1 and base ≥ 0, the interval stays in [base, max] after any sequence of replies |
| OrderTransport.ValidatorsAreLatestAdvertised | frontend/src/utils/orderTransport.ts:55-69 | after any sequence of replies each validator is the value advertised by the latest 200 that carried that header, or its initial value |
| OrderTransport.CounterCountsNotModifiedSinceChange | frontend/src/utils/orderTransport.ts:78-95 | `consecutiveNoChanges` is the number of 304s since the latest 200; failures neither count nor reset it |
| OrderTransport.ConditionalRequestScenario | frontend/src/utils/orderTransport.ts:26-69 | a fresh transport sends no conditional header; after a 200 with `ETag: "abc"` it sends `If-None-Match: "abc"`; a 304 leaves the next request's headers unchanged |
| OrderTransport.SmartPollingTransport.constructor | frontend/src/utils/orderTransport.ts:14-24 | a new transport starts at the base interval with no validators and a zero counter |
| OrderTransport.SmartPollingTransport.FetchOrders | frontend/src/utils/orderTransport.ts:26-76 | the request sent has the URL of `OrdersUrl` and the headers of `ConditionalHeaders` of the stored validators; the new fields and the outcome are exactly `Receive` of the reply |
| OrderTransport.SmartPollingTransport.OnNoChange | frontend/src/utils/orderTransport.ts:78-90 | the counter goes up by one, the interval becomes `min(interval × multiplier, max)`, and the validators are untouched |
| OrderTransport.SmartPollingTransport.OnDataChanged | frontend/src/utils/orderTransport.ts:92-95 | the counter goes back to 0 and the interval to the base |
| OrderTransport.SmartPollingTransport.GetNextInterval | frontend/src/utils/orderTransport.ts:97-99 | returns the current interval, which lies in [base, max] for a sane configuration |
| OrderTransport.SmartPollingTransport.GetStats | frontend/src/utils/orderTransport.ts:101-108 | `hasETag` / `hasLastModified` hold exactly when the next request will carry that conditional header; the interval and counter are the current ones |
| SmartPollingHook.Grown | frontend/src/hooks/useSmartPolling.ts:39-42 | the grown interval never exceeds the maximum and never drops below a non-negative in-range interval |
| SmartPollingHook.Apply | frontend/src/hooks/useSmartPolling.ts:31-61 | loading ends on every outcome. Not modified: counter + 1, interval × 1.5 capped, `polling`, data kept. Changed: the new data, `connected`, counter 0, base interval. Thrown: `error`, with data, interval and counter kept. Interval bounds are preserved |
| SmartPollingHook.IntervalStaysInBounds | frontend/src/hooks/useSmartPolling.ts:36-52 | for 0 ≤ base ≤ max the interval stays in [base, max] after any sequence of outcomes |
| SmartPollingHook.FailuresDoNotAffectBackoff | frontend/src/hooks/useSmartPolling.ts:55-61 | removing every thrown fetch from a history leaves the interval, the unchanged counter and the data as they were |
| SmartPollingHook.DataIsLatestChange | frontend/src/hooks/useSmartPolling.ts:45-61 | the data shown is that of the latest changed result, or the initial data if there was none; failures never blank it |
| SmartPollingHook.UnchangedRunBacksOff | frontend/src/hooks/useSmartPolling.ts:36-44 | `k` not-modified results in a row grow the interval `k` times, add `k` to the counter and keep the data |
| SmartPollingHook.BackoffClosedForm | frontend/src/hooks/useSmartPolling.ts:39-42 | after `k` unchanged results the interval is `min(start × 1.5^k, max)` |
| SmartPollingHook.BackoffStaysAtMax | frontend/src/hooks/useSmartPolling.ts:39-42 | once the backoff reaches the maximum it stays there |
| SmartPollingHook.DefaultBackoffSchedule | frontend/src/hooks/useSmartPolling.ts:15-42 | with the defaults 2000/30000: 3000, 4500, 6750 after one, two, three unchanged results; below 30000 for fewer than seven; exactly 30000 from the seventh on |
| SmartPollingHook.SmartPolling.constructor | frontend/src/hooks/useSmartPolling.ts:13-26 | the first render: no data, loading, `polling`, the base interval (defaults 2000 and 30000), counter 0, mounted, no timer |
| SmartPollingHook.SmartPolling.Mount | frontend/src/hooks/useSmartPolling.ts:80-83 | marks the hook mounted and dispatches a poll immediately |
| SmartPollingHook.SmartPolling.Poll | frontend/src/hooks/useSmartPolling.ts:28-32 | a fetch is dispatched exactly when mounted |
| SmartPollingHook.SmartPolling.Settle | frontend/src/hooks/useSmartPolling.ts:32-66 | while mounted the state becomes `Apply` of the outcome and the next poll is scheduled after the current interval; after unmount nothing changes and nothing is scheduled |
| SmartPollingHook.SmartPolling.TimerFires | frontend/src/hooks/useSmartPolling.ts:63-66 | the pending timer is consumed and a poll is dispatched; the visible state is unchanged |
| SmartPollingHook.SmartPolling.Refresh | frontend/src/hooks/useSmartPolling.ts:69-78 | the pending timer is cleared; interval and shown interval go back to the base and the counter to 0; data, status and loading are kept; a poll is dispatched if mounted |
| SmartPollingHook.SmartPolling.Unmount | frontend/src/hooks/useSmartPolling.ts:84-89 | marks the hook unmounted and clears the pending timer; the state is kept |
| OrderSections.IncomingOrders | frontend/src/components/OrderSections.tsx:46 | exactly the pending orders, with their multiplicities |
| OrderSections.ActiveOrders | frontend/src/components/OrderSections.tsx:49-51 | exactly the accepted and delayed orders, with their multiplicities |
| OrderSections.AllRecentOrders | frontend/src/components/OrderSections.tsx:54-59 | exactly the completed, rejected and cancelled orders, with their multiplicities |
| OrderSections.SectionsPartition | frontend/src/components/OrderSections.tsx:46-59 | the three sections are pairwise disjoint; a `ready` order is in none; section sizes plus the `ready` count equal the number of orders |
| OrderSections.FilterStatuses | frontend/src/components/OrderSections.tsx:62-69 | the "completed" filter lets through `completed` only and the "cancelled" filter `rejected` and `cancelled`, all recent statuses; `FilteredRecentOrders` applies it |
| OrderSections.FilteredRecentOrders | frontend/src/components/OrderSections.tsx:62-70 | the filtered recent list is all orders filtered by {completed} or by {rejected, cancelled} |
| OrderSections.SortKey | frontend/src/components/OrderSections.tsx:73-83 | no contract of its own: the comparator's key in milliseconds, the completion time (0 when absent) or the creation time; `SortedRecentOrders` and `SortIsStable` state the order it induces |
| OrderSections.Insert | frontend/src/components/OrderSections.tsx:72-84 | inserting into a most-recent-first list keeps it sorted and adds exactly the new order |
| OrderSections.SortDescending | frontend/src/components/OrderSections.tsx:72-84 | the result is a permutation of the input in non-increasing key order |
| OrderSections.SortIsStable | frontend/src/components/OrderSections.tsx:72-84 | orders with equal keys keep their input order |
| OrderSections.SortedRecentOrders | frontend/src/components/OrderSections.tsx:72-84 | the shown recent list is a permutation of the filtered list, most recent first by the chosen key (a missing completion time counts as 0) |
| OrderSections.RecentCountIsShownLength | frontend/src/components/OrderSections.tsx:160-164 | the count in the recent header equals the length of the list shown |
| OrderSections.FirstRenderShowsCompleted | frontend/src/components/OrderSections.tsx:40-84 | with the initial choices ("completed", "completed_at") the recent section shows exactly the completed orders, latest completion first |
| OrderSections.ToggleSort | frontend/src/components/OrderSections.tsx:86-90 | the toggle always changes the sort key |
| OrderSections.ToggleFilter | frontend/src/components/OrderSections.tsx:92-96 | the toggle always changes the filter |
| OrderSections.TogglesAreInvolutions | frontend/src/components/OrderSections.tsx:86-96 | toggling twice restores the previous choice |
| OrderDetail.ActionsFor | frontend/src/components/OrderDetail.tsx:36-97 | pending offers accepted and rejected; accepted offers delayed, cancelled and completed; delayed offers cancelled and completed; every other status offers nothing. No action repeats or equals the current status, and every action is one the backend accepts |
| OrderDetail.OfferedActionsTakeEffect | frontend/src/components/OrderDetail.tsx:36-97 | sending any offered action to the PATCH endpoint answers 200 and stores the status the button names |
| OrderDetail.ReceivedStep | frontend/src/components/OrderDetail.tsx:168-175 | "Order Received" is active or completed, never pending or inactive |
| OrderDetail.AcceptedStep | frontend/src/components/OrderDetail.tsx:176-187 | "Order Accepted" is never inactive |
| OrderDetail.PreparationStep | frontend/src/components/OrderDetail.tsx:188-199 | "Preparation Complete" is never drawn as completed |
| OrderDetail.TimelineIsMonotone | frontend/src/components/OrderDetail.tsx:168-199 | no timeline step is further along than the one before it; exactly one step is active for pending, accepted and completed orders, none otherwise |
| OrderList.ActiveList | frontend/src/components/OrderList.tsx:32-34 | exactly the pending and accepted orders, with their multiplicities |
| OrderList.RecentList | frontend/src/components/OrderList.tsx:36-38 | exactly the completed and cancelled orders, with their multiplicities |
| OrderList.Take | frontend/src/components/OrderList.tsx:70 | `slice(0, n)` is a prefix of length `min(n, length)` |
| OrderList.RenderedRecent | frontend/src/components/OrderList.tsx:70 | the orders of the drawn recent cards are a prefix of the recent list, at most five, and all of it when fewer than five are drawn |
| OrderList.FilterLengthIsCount | frontend/src/components/OrderList.tsx:32-38 | a filtered list is exactly as long as the number of orders with one of the filter's statuses |
| OrderList.ActiveHeaderCount | frontend/src/components/OrderList.tsx:43 | the "Active Orders" header shows the number of pending or accepted orders |
| OrderList.RecentHeaderCount | frontend/src/components/OrderList.tsx:63 | the "Recent Orders" header shows the number of completed or cancelled orders, drawn or not |
| OrderList.RecentCountCoversDrawnCards | frontend/src/components/OrderList.tsx:63-70 | the recent count is at least the number of cards drawn, equals it when fewer than five are drawn, and exceeds five only when five are drawn |
| OrderList.DrawCards | frontend/src/components/OrderList.tsx:50-57 | one card per order, in list order, each showing its order and highlighted exactly when its id is the selected id; no selection highlights nothing |
| OrderList.ActiveCards | frontend/src/components/OrderList.tsx:45-58 | no contract of its own: the cards drawn under "Active Orders" are `DrawCards` of the whole active list; see `ActiveCountIsDrawnCards` |
| OrderList.ActiveCountIsDrawnCards | frontend/src/components/OrderList.tsx:43-58 | the active header number equals the number of active cards drawn (there is no cut, unlike the recent list) and the pending-or-accepted count, and card i shows the i-th active order |
| OrderList.RecentCards | frontend/src/components/OrderList.tsx:65-78 | the cards under "Recent Orders": card i shows the i-th recent order, highlighted exactly when its id is the selected id, never more than five, and as many as the header counts when fewer than five are drawn |
| OrderList.ListsAreDisjoint | frontend/src/components/OrderList.tsx:32-38 | no order is in both lists; delayed, rejected and ready orders are in neither; the two lengths add up to the number of pending, accepted, completed and cancelled orders |
| OrderUtils.Last3 | frontend/src/utils/orderUtils.ts:18 | `slice(-3)` is the suffix of length `min(3, length)` |
| OrderUtils.TrailingDigits | frontend/src/utils/orderUtils.ts:11 | the longest digit run a string ends with: a suffix, all digits, and not preceded by a digit |
| OrderUtils.MatchFrom | frontend/src/utils/orderUtils.ts:11 | the regex search from a start position: any match is a suffix of the id of at least three digits; which suffix it is is stated by `MatchIsTrailingRun` |
| OrderUtils.TrailingDigitsMatch | frontend/src/utils/orderUtils.ts:11 | `id.match(/\d{3,}$/)`: any match is a suffix of the id of at least three digits; `MatchIsTrailingRun` fixes it as the maximal trailing digit run |
| OrderUtils.MatchIsTrailingRun | frontend/src/utils/orderUtils.ts:11-15 | the leftmost match of `/\d{3,}$/` is the maximal trailing digit run when that run has at least three digits, and there is no match otherwise |
| OrderUtils.NaturalDecimal | frontend/src/utils/orderUtils.ts:7 | the decimal text of a natural number is non-empty, all digits, with no leading zero |
| OrderUtils.Decimal | frontend/src/utils/orderUtils.ts:7 | the printed form of an integer is canonical (digits with no leading zero, no "-0") and starts with `-` exactly when the integer is negative |
| OrderUtils.CanonicalNaturalIsUnique | frontend/src/utils/orderUtils.ts:7 | two canonical digit strings that spell the same number are the same string |
| OrderUtils.CanonicalIntegerIsUnique | frontend/src/utils/orderUtils.ts:7 | the printed form is the only canonical text that reads back as a given integer |
| OrderUtils.DecimalRoundTrip | frontend/src/utils/orderUtils.ts:7 | reading back the decimal text of any integer gives that integer |
| OrderUtils.FallbackLabel | frontend/src/utils/orderUtils.ts:10-18 | both fallback branches give `#` plus the id's last three characters |
| OrderUtils.FormatOrderNumber | frontend/src/utils/orderUtils.ts:5-19 | the label starts with `#`. With a non-zero display number it is `#` plus the number's printed form, which is canonical and reads back as the number. Otherwise the label is `#` plus the id's last three characters and at most four long, in both fallback branches |
| OrderViews.HttpStatus | backend/orders/views.py:64-69 | an update answers 200 and a refusal 400 |
| OrderViews.AllowedStatus | backend/orders/views.py:47-50 | a requested status is accepted exactly when it is one of the five names `accepted`, `rejected`, `delayed`, `cancelled`, `completed`; never `pending` or `ready` |
| OrderViews.PatchRule | backend/orders/views.py:43-69 | invalid status: 400 `Invalid status`, order unchanged, no webhook. Valid status: stored whatever the old one was; of the modelled fields only status and completion time change; 200 with the updated order. The completion time is set to now exactly on a move into `completed` from another status. The webhook fires exactly for a valid status with `cancelled_by` other than `kyte` and carries the order id and the status |
| OrderViews.OrderRow.constructor | backend/orders/models.py:4-24 | a row holds the given order record |
| OrderViews.Patch | backend/orders/views.py:43-69 | the row after the update, the reply and the webhook call are exactly those of `PatchRule` on the row before it |
| OrderViews.PatchesKeepCompletedStamped | backend/orders/views.py:55-56 | if a completed order has a completion time, it keeps one after any sequence of PATCH requests |
| OrderViews.StatusIsLastAllowed | backend/orders/views.py:50-52 | after any sequence of requests the stored status is the last valid one requested (or the initial one), and the id never changes |
| OrderViews.CompletionIsStampedOnce | backend/orders/views.py:55-56 | completing an order a second time keeps its first completion time |

## Left out

- Timers, promises and React plumbing are events on a class:
  - the first render is the constructor, the mount effect is `Mount`, and the cleanup is `Unmount`;
  - the dispatch half of `poll` is `Poll`, its continuation after the fetch settles is `Settle`, and a firing timer is `TimerFires`;
  - the pending `setTimeout` is an optional delay;
  - `Settle` requires a dispatched fetch to be in flight;
  - React re-rendering and the ordering of state setters are not modelled.
- `refresh()` during an in-flight poll can start a second self-rescheduling chain, because the hook has no single-flight guard. The model tracks the number of fetches in flight, but not which chain a timer belongs to. A timer overwritten by a second chain is not modelled.
- After unmount, `refresh()` still resets the refs and the shown interval, as the code does; React's unmounted-update warning is not modelled.
- The HTTP client (axios in `api.ts`) is the parameter `send`, which gives a reply or no reply.
  - axios rejects every status other than 200 and 304 before the transport sees it; both paths are modelled by the same `HttpError`.
  - `encodeURIComponent` is an opaque parameter.
  - Headers the HTTP client adds by itself are not modelled: the instance-wide `Content-Type: application/json` and axios's default `Accept`. `ConditionalHeaders` is only what the transport adds.
- `console` and `logger` output are not modelled.
- OrderTransport.IntervalStaysInBounds: also requires `baseInterval ≥ 0`, because with a negative base a growing multiplier shrinks the interval. The transport itself validates nothing about its configuration.
- JavaScript double rounding of `interval × multiplier` is not modelled; intervals are exact reals.
- Date parsing and locale formatting are not modelled; timestamps are given integers, and a missing `completed_at` counts as 0.
- OrderDetail.ActionsFor: the contract fixes which buttons each status offers, not their order on screen.
- OrderUtils.Last3: ids are sequences of Unicode characters, where JavaScript's `slice(-3)` counts UTF-16 code units. For an id ending in a character outside the Basic Multilingual Plane (an emoji, say) the model keeps three characters where JavaScript keeps fewer, possibly half a surrogate pair. For ids made of BMP characters, such as the backend's ids, the two agree.
- OrderUtils.FormatOrderNumber: the fallback label inherits `Last3`'s count in Unicode characters rather than UTF-16 code units (see the line above). The digit-run branch is not affected, because the matched run is ASCII. Display numbers are integers. JavaScript's exponent notation for numbers of 10^21 and above, and fractional or `NaN` display numbers, are not modelled.
- The webhook's HTTP call and its failure handling are an emitted `Notification` value. A failed webhook cannot change the reply, because the reply does not depend on it.
- `get_object`'s 404 for an unknown order is not modelled. `Patch` receives the row it found.
- A request body whose `status` is not a string is modelled as absent; both are refused.
- `order.save()` persistence and the serializer output are not modelled; the reply carries the updated order record.
- `updated_at` is not modelled. It is `auto_now`, so `order.save()` also refreshes it on every accepted PATCH, and the serializer returns it.
- `App.tsx`, `TabNavigation.tsx`, `OrderCard.tsx`, the mock Kyte server, the serializers and the settings are not part of this model.
- `display_number` is read by the label formatter but is not a field of the backend model; the order record carries it as optional.
