/**
 * The order detail panel: the action buttons offered for the order's status
 * (each sends a PATCH with the status it names) and the three-step status
 * timeline.
 */
module OrderDetail {
  import opened Orders
  import opened Wrappers
  import OrderViews

  /**
   * The statuses the panel's buttons ask for, in button order. Only pending,
   * accepted and delayed orders have buttons; no button asks for the status
   * the order already has, for `pending` or for `ready`, and every button asks
   * for a status the backend accepts.
   */
  function ActionsFor(s: Status): (r: seq<Status>)
    ensures forall i :: 0 <= i < |r| ==> r[i] != s && r[i] in OrderViews.SettableStatuses
    ensures forall i, j :: 0 <= i < j < |r| ==> r[i] != r[j]
    ensures r == [] <==> s !in {Pending, Accepted, Delayed}
    ensures Accepted in r <==> s == Pending
    ensures Rejected in r <==> s == Pending
    ensures Delayed in r <==> s == Accepted
    ensures Cancelled in r <==> s == Accepted || s == Delayed
    ensures Completed in r <==> s == Accepted || s == Delayed
  {
    match s
    case Pending => [Accepted, Rejected]
    case Accepted => [Delayed, Cancelled, Completed]
    case Delayed => [Cancelled, Completed]
    case _ => []
  }

  /**
   * Pressing any offered button on an order moves it to the status the button
   * names: the backend accepts the request, stores that status and answers 200.
   */
  lemma OfferedActionsTakeEffect(o: Order, i: nat, cancelledBy: Option<string>, now: int)
    requires i < |ActionsFor(o.status)|
    ensures var out := OrderViews.PatchRule(o, OrderViews.PatchBody(Some(Name(ActionsFor(o.status)[i])), cancelledBy), now);
      && out.order.status == ActionsFor(o.status)[i]
      && OrderViews.HttpStatus(out.response) == 200
  {
    var a := ActionsFor(o.status)[i];
    assert OrderViews.AllowedStatus(Some(Name(a))) == Some(a);
  }

  /** How the timeline draws a step (its CSS class). */
  datatype StepState = ActiveStep | PendingStep | CompletedStep | InactiveStep

  /** How far along a step is: completed, then active, then pending, then inactive. */
  function Progress(t: StepState): nat {
    match t
    case CompletedStep => 3
    case ActiveStep => 2
    case PendingStep => 1
    case InactiveStep => 0
  }

  /** "Order Received": active while pending, completed otherwise. */
  function ReceivedStep(s: Status): (t: StepState)
    ensures t == ActiveStep || t == CompletedStep
  {
    if s == Pending then ActiveStep else CompletedStep
  }

  /** "Order Accepted": active when accepted, pending while pending, completed otherwise. */
  function AcceptedStep(s: Status): (t: StepState)
    ensures t != InactiveStep
  {
    if s == Accepted then ActiveStep
    else if s == Pending then PendingStep
    else CompletedStep
  }

  /** "Preparation Complete": active when completed, pending when accepted, inactive otherwise. */
  function PreparationStep(s: Status): (t: StepState)
    ensures t != CompletedStep
  {
    if s == Completed then ActiveStep
    else if s == Accepted then PendingStep
    else InactiveStep
  }

  /**
   * The timeline reads as a progression: no step is further along than the
   * step before it, and exactly one step is active when the order is pending,
   * accepted or completed (none otherwise).
   */
  lemma TimelineIsMonotone(s: Status)
    ensures Progress(ReceivedStep(s)) >= Progress(AcceptedStep(s)) >= Progress(PreparationStep(s))
    ensures (if ReceivedStep(s) == ActiveStep then 1 else 0)
          + (if AcceptedStep(s) == ActiveStep then 1 else 0)
          + (if PreparationStep(s) == ActiveStep then 1 else 0)
          == (if s in {Pending, Accepted, Completed} then 1 else 0)
  {
  }
}
