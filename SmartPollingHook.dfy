/**
 * The polling hook that drives the order list: it calls the fetch function,
 * folds each settled fetch into the state the dashboard shows, and schedules
 * the next call after an interval that backs off by a fixed factor of 1.5
 * while nothing changes. Timers are a pending-delay field and fetches are
 * split in two events: dispatch (`Poll`) and settlement (`Settle`).
 */
module SmartPollingHook {
  import opened Wrappers
  import opened FetchContract

  datatype ConnectionStatus = Connected | Polling | Error

  const DefaultBaseInterval: real := 2000.0
  const DefaultMaxInterval: real := 30000.0

  /** `Math.min(interval * 1.5, maxInterval)`: the hook's backoff after an unchanged result. */
  function Grown(interval: real, maxInterval: real): (r: real)
    ensures r <= maxInterval
    ensures 0.0 <= interval <= maxInterval ==> interval <= r
  {
    Min(interval * 1.5, maxInterval)
  }

  /** What the hook exposes and keeps between polls (the pending timer aside). */
  datatype PollView<T> = PollView(
    data: Option<T>,
    isLoading: bool,
    status: ConnectionStatus,
    interval: real,
    noChangeCount: nat)

  /** The state after the first render: no data, loading, polling, base interval. */
  function InitialView<T>(baseInterval: real): PollView<T> {
    PollView(None, true, Polling, baseInterval, 0)
  }

  /** The interval lies in [baseInterval, maxInterval]. */
  predicate InBounds(interval: real, baseInterval: real, maxInterval: real) {
    baseInterval <= interval <= maxInterval
  }

  /**
   * How one settled fetch changes the state while mounted. Not modified:
   * one more unchanged poll, backoff, status `polling`, data kept. Changed:
   * the new data, status `connected`, counter and interval reset. Thrown:
   * status `error`, and data, interval and counter kept. Loading ends in
   * every case.
   */
  function Apply<T>(v: PollView<T>, outcome: Fetched<T>, baseInterval: real, maxInterval: real): (r: PollView<T>)
    ensures !r.isLoading
    ensures outcome.Threw? ==>
      r.status == Error && r.data == v.data && r.interval == v.interval && r.noChangeCount == v.noChangeCount
    ensures outcome.Returned? && outcome.result.notModified ==>
      && r.status == Polling && r.data == v.data
      && r.noChangeCount == v.noChangeCount + 1 && r.interval == Grown(v.interval, maxInterval)
    ensures outcome.Returned? && !outcome.result.notModified ==>
      && r.status == Connected && r.data == outcome.result.data
      && r.noChangeCount == 0 && r.interval == baseInterval
    ensures 0.0 <= baseInterval <= maxInterval && InBounds(v.interval, baseInterval, maxInterval) ==>
      InBounds(r.interval, baseInterval, maxInterval)
  {
    match outcome
    case Threw(_) => v.(status := Error, isLoading := false)
    case Returned(result) =>
      if result.notModified then
        v.(noChangeCount := v.noChangeCount + 1, interval := Grown(v.interval, maxInterval),
           status := Polling, isLoading := false)
      else
        PollView(result.data, false, Connected, baseInterval, 0)
  }

  /** The state after a sequence of settled fetches, in order. */
  function ApplyAll<T>(v: PollView<T>, outcomes: seq<Fetched<T>>, baseInterval: real, maxInterval: real): PollView<T>
    decreases |outcomes|
  {
    if outcomes == [] then v
    else Apply(ApplyAll(v, outcomes[..|outcomes| - 1], baseInterval, maxInterval),
               outcomes[|outcomes| - 1], baseInterval, maxInterval)
  }

  /** For every sequence of outcomes the interval stays in [baseInterval, maxInterval]. */
  lemma {:induction false} IntervalStaysInBounds<T>(v: PollView<T>, outcomes: seq<Fetched<T>>, baseInterval: real, maxInterval: real)
    requires 0.0 <= baseInterval <= maxInterval && InBounds(v.interval, baseInterval, maxInterval)
    ensures InBounds(ApplyAll(v, outcomes, baseInterval, maxInterval).interval, baseInterval, maxInterval)
    decreases |outcomes|
  {
    if outcomes != [] {
      IntervalStaysInBounds(v, outcomes[..|outcomes| - 1], baseInterval, maxInterval);
    }
  }

  /** The outcomes that did not throw, in order. */
  function Successes<T>(outcomes: seq<Fetched<T>>): (r: seq<Fetched<T>>)
    ensures |r| <= |outcomes|
    ensures forall i :: 0 <= i < |r| ==> r[i].Returned?
    decreases |outcomes|
  {
    if outcomes == [] then []
    else
      var rest := Successes(outcomes[..|outcomes| - 1]);
      if outcomes[|outcomes| - 1].Returned? then rest + [outcomes[|outcomes| - 1]] else rest
  }

  /**
   * Failures are noise to the backoff: removing every thrown fetch from a
   * history changes neither the interval, nor the unchanged counter, nor the
   * data shown.
   */
  lemma {:induction false} FailuresDoNotAffectBackoff<T>(v: PollView<T>, outcomes: seq<Fetched<T>>, baseInterval: real, maxInterval: real)
    ensures var a := ApplyAll(v, outcomes, baseInterval, maxInterval);
            var b := ApplyAll(v, Successes(outcomes), baseInterval, maxInterval);
            a.interval == b.interval && a.noChangeCount == b.noChangeCount && a.data == b.data
    decreases |outcomes|
  {
    if outcomes != [] {
      var init := outcomes[..|outcomes| - 1];
      var last := outcomes[|outcomes| - 1];
      FailuresDoNotAffectBackoff(v, init, baseInterval, maxInterval);
      if last.Returned? {
        var s := Successes(init) + [last];
        assert s[..|s| - 1] == Successes(init);
      }
    }
  }

  /** Is this a fetch that returned changed data? */
  predicate IsChange<T>(outcome: Fetched<T>) {
    outcome.Returned? && !outcome.result.notModified
  }

  /** The index of the latest changed result, or -1 if there is none. */
  function LastChangedOutcome<T>(outcomes: seq<Fetched<T>>): (i: int)
    ensures -1 <= i < |outcomes|
    ensures 0 <= i ==> IsChange(outcomes[i])
    ensures forall j :: i < j < |outcomes| ==> !IsChange(outcomes[j])
    decreases |outcomes|
  {
    if outcomes == [] then -1
    else if IsChange(outcomes[|outcomes| - 1]) then |outcomes| - 1
    else LastChangedOutcome(outcomes[..|outcomes| - 1])
  }

  /**
   * The data shown is that of the latest changed result; before the first
   * one it is whatever was shown at the start. A failure never blanks it.
   */
  lemma {:induction false} DataIsLatestChange<T>(v: PollView<T>, outcomes: seq<Fetched<T>>, baseInterval: real, maxInterval: real)
    ensures ApplyAll(v, outcomes, baseInterval, maxInterval).data ==
      if LastChangedOutcome(outcomes) < 0 then v.data else outcomes[LastChangedOutcome(outcomes)].result.data
    decreases |outcomes|
  {
    if outcomes != [] {
      DataIsLatestChange(v, outcomes[..|outcomes| - 1], baseInterval, maxInterval);
    }
  }

  /** `k` fetches in a row that returned "not modified". */
  function Unchanged<T>(k: nat): (r: seq<Fetched<T>>)
    ensures |r| == k
  {
    if k == 0 then [] else Unchanged(k - 1) + [Returned(FetchResult(true, None))]
  }

  /** The interval after `k` unchanged results starting from `x`: one capped growth per result. */
  function Backoff(x: real, k: nat, maxInterval: real): real {
    if k == 0 then x else Grown(Backoff(x, k - 1, maxInterval), maxInterval)
  }

  /**
   * A run of `k` unchanged results backs the interval off `k` times, counts
   * `k` more unchanged polls and keeps the data.
   */
  lemma {:induction false} UnchangedRunBacksOff<T>(v: PollView<T>, k: nat, baseInterval: real, maxInterval: real)
    ensures var r := ApplyAll(v, Unchanged<T>(k), baseInterval, maxInterval);
            && r.interval == Backoff(v.interval, k, maxInterval)
            && r.noChangeCount == v.noChangeCount + k
            && r.data == v.data
    decreases k
  {
    if k > 0 {
      UnchangedRunBacksOff(v, k - 1, baseInterval, maxInterval);
      var run := Unchanged<T>(k);
      assert run[..k - 1] == Unchanged<T>(k - 1);
    }
  }

  /** `x` multiplied by 1.5, `k` times, with no cap. */
  function Scaled(x: real, k: nat): (r: real)
    ensures 0.0 <= x ==> x <= r
  {
    if k == 0 then x else Scaled(x, k - 1) * 1.5
  }

  /**
   * In closed form: the interval after `k` unchanged results is the start
   * interval times 1.5 to the `k`, capped at the maximum; once it reaches
   * the maximum it stays there.
   */
  lemma {:induction false} BackoffClosedForm(x: real, k: nat, maxInterval: real)
    requires 0.0 <= x <= maxInterval
    ensures Backoff(x, k, maxInterval) == Min(Scaled(x, k), maxInterval)
    decreases k
  {
    if k > 0 {
      var j: nat := k - 1;
      BackoffClosedForm(x, j, maxInterval);
      CappedGrowth(Scaled(x, j), maxInterval);
    }
  }

  /** Capping before growing by 1.5 and capping again is the same as growing and capping once. */
  lemma CappedGrowth(g: real, m: real)
    requires 0.0 <= g && 0.0 <= m
    ensures Grown(Min(g, m), m) == Min(g * 1.5, m)
  {
    assert g <= g * 1.5;
    assert m <= m * 1.5;
  }

  /** From the defaults, unchanged results give 2000, 3000, 4500, 6750, ... and 30000 from the seventh on. */
  lemma DefaultBackoffSchedule<T>(k: nat)
    ensures var r := ApplyAll(InitialView<T>(DefaultBaseInterval), Unchanged<T>(k), DefaultBaseInterval, DefaultMaxInterval);
            && (k == 1 ==> r.interval == 3000.0)
            && (k == 2 ==> r.interval == 4500.0)
            && (k == 3 ==> r.interval == 6750.0)
            && (k < 7 ==> r.interval < DefaultMaxInterval)
            && (7 <= k ==> r.interval == DefaultMaxInterval)
  {
    UnchangedRunBacksOff(InitialView<T>(DefaultBaseInterval), k, DefaultBaseInterval, DefaultMaxInterval);
    var b := DefaultBaseInterval;
    var m := DefaultMaxInterval;
    assert Backoff(b, 1, m) == 3000.0;
    assert Backoff(b, 2, m) == 4500.0;
    assert Backoff(b, 3, m) == 6750.0;
    assert Backoff(b, 4, m) == 10125.0;
    assert Backoff(b, 5, m) == 15187.5;
    assert Backoff(b, 6, m) == 22781.25;
    assert Backoff(b, 7, m) == m;
    if 7 <= k {
      BackoffStaysAtMax(b, 7, k, m);
    }
  }

  /** Once the backoff has reached a non-negative maximum it stays there. */
  lemma {:induction false} BackoffStaysAtMax(x: real, j: nat, k: nat, maxInterval: real)
    requires j <= k && 0.0 <= maxInterval && Backoff(x, j, maxInterval) == maxInterval
    ensures Backoff(x, k, maxInterval) == maxInterval
    decreases k
  {
    if j < k {
      BackoffStaysAtMax(x, j, k - 1, maxInterval);
    }
  }

  /**
   * The hook's scheduling state. Field by field: the React state the
   * dashboard reads (`data`, `isLoading`, `status`, `currentInterval`), the
   * refs the loop keeps (`interval`, `noChangeCount`, `mounted`, the pending
   * timer), and the number of fetches dispatched and not yet settled.
   */
  class SmartPolling<T> {
    const baseInterval: real
    const maxInterval: real
    var data: Option<T>
    var isLoading: bool
    var status: ConnectionStatus
    var currentInterval: real
    var interval: real
    var noChangeCount: nat
    var mounted: bool
    var timer: Option<real>
    var inFlight: nat

    /**
     * The interval shown is the one scheduled with; with sane bounds it stays
     * within them; a pending timer exists only while mounted and waits for
     * the current interval.
     */
    ghost predicate Valid()
      reads this
    {
      && currentInterval == interval
      && (0.0 <= baseInterval <= maxInterval ==> InBounds(interval, baseInterval, maxInterval))
      && (!mounted ==> timer.None?)
      && (timer.Some? ==> timer.value == interval)
    }

    function View(): PollView<T>
      reads this
    {
      PollView(data, isLoading, status, interval, noChangeCount)
    }

    /** The first render: refs and state at their initial values, nothing dispatched yet. */
    constructor(baseInterval: real := DefaultBaseInterval, maxInterval: real := DefaultMaxInterval)
      ensures Valid()
      ensures this.baseInterval == baseInterval && this.maxInterval == maxInterval
      ensures View() == InitialView(baseInterval)
      ensures mounted && timer.None? && inFlight == 0
    {
      this.baseInterval := baseInterval;
      this.maxInterval := maxInterval;
      data := None;
      isLoading := true;
      status := Polling;
      currentInterval := baseInterval;
      interval := baseInterval;
      noChangeCount := 0;
      mounted := true;
      timer := None;
      inFlight := 0;
    }

    /** The mount effect: mark mounted and poll at once. */
    method Mount()
      requires Valid()
      modifies this
      ensures Valid()
      ensures mounted && inFlight == old(inFlight) + 1
      ensures View() == old(View()) && timer == old(timer)
    {
      mounted := true;
      var _ := Poll();
    }

    /** The start of `poll`: nothing happens once unmounted, otherwise a fetch is dispatched. */
    method Poll() returns (dispatched: bool)
      modifies this`inFlight
      ensures dispatched == mounted
      ensures inFlight == old(inFlight) + (if dispatched then 1 else 0)
    {
      if !mounted {
        return false;
      }
      inFlight := inFlight + 1;
      return true;
    }

    /**
     * The rest of `poll`, once the fetch has settled. While mounted the state
     * becomes `Apply` of the outcome and the next poll is scheduled after the
     * current interval; after unmount nothing changes and nothing is scheduled.
     */
    method Settle(outcome: Fetched<T>)
      requires Valid() && inFlight > 0
      modifies this
      ensures Valid()
      ensures inFlight == old(inFlight) - 1 && mounted == old(mounted)
      ensures old(mounted) ==>
        View() == Apply(old(View()), outcome, baseInterval, maxInterval) && timer == Some(interval)
      ensures !old(mounted) ==> View() == old(View()) && timer == old(timer)
    {
      inFlight := inFlight - 1;
      match outcome {
        case Returned(result) =>
          if !mounted {
            return;
          }
          if result.notModified {
            noChangeCount := noChangeCount + 1;
            interval := Min(interval * 1.5, maxInterval);
            status := Polling;
            currentInterval := interval;
          } else {
            noChangeCount := 0;
            interval := baseInterval;
            data := result.data;
            status := Connected;
            currentInterval := interval;
          }
          isLoading := false;
        case Threw(_) =>
          if mounted {
            status := Error;
            isLoading := false;
          }
      }
      if mounted {
        timer := Some(interval);
      }
    }

    /** The pending timer fires: it is gone, and `poll` runs. */
    method TimerFires()
      requires Valid() && timer.Some?
      modifies this
      ensures Valid()
      ensures timer.None? && View() == old(View()) && mounted
      ensures inFlight == old(inFlight) + 1
    {
      timer := None;
      var _ := Poll();
    }

    /** Clear the pending timer, go back to the base interval and a zero counter, and poll now. */
    method Refresh()
      requires Valid()
      modifies this
      ensures Valid()
      ensures timer.None?
      ensures interval == baseInterval && currentInterval == baseInterval && noChangeCount == 0
      ensures data == old(data) && status == old(status) && isLoading == old(isLoading)
      ensures mounted == old(mounted)
      ensures inFlight == old(inFlight) + (if mounted then 1 else 0)
    {
      if timer.Some? {
        timer := None;
      }
      interval := baseInterval;
      noChangeCount := 0;
      currentInterval := baseInterval;
      var _ := Poll();
    }

    /** The effect cleanup: mark unmounted and clear the pending timer. */
    method Unmount()
      requires Valid()
      modifies this
      ensures Valid()
      ensures !mounted && timer.None?
      ensures View() == old(View()) && inFlight == old(inFlight)
    {
      mounted := false;
      if timer.Some? {
        timer := None;
      }
    }
  }

  /**
   * A run of the hook with the defaults, written against the contracts
   * above: three unchanged polls back off to 6750, a refresh goes back to
   * 2000, and after unmount a late result changes nothing and schedules
   * nothing.
   */
  method DefaultRun<T>(snapshot: T)
  {
    var hook := new SmartPolling<T>();
    hook.Mount();
    var quiet: Fetched<T> := Returned(FetchResult(true, None));
    hook.Settle(quiet);
    assert hook.interval == 3000.0 && hook.status == Polling;
    hook.TimerFires();
    hook.Settle(quiet);
    hook.TimerFires();
    hook.Settle(quiet);
    assert hook.interval == 6750.0 && hook.timer == Some(6750.0) && hook.noChangeCount == 3;
    hook.TimerFires();
    hook.Settle(Threw(NetworkError));
    assert hook.status == Error && hook.interval == 6750.0 && hook.data.None?;
    hook.Refresh();
    assert hook.interval == 2000.0 && hook.timer.None?;
    hook.Settle(Returned(FetchResult(false, Some(snapshot))));
    assert hook.status == Connected && hook.data == Some(snapshot) && hook.interval == 2000.0;
    hook.TimerFires();
    hook.Unmount();
    hook.Settle(quiet);
    assert hook.timer.None? && hook.data == Some(snapshot) && hook.interval == 2000.0;
    var dispatched := hook.Poll();
    assert !dispatched;
  }
}
