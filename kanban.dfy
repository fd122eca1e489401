/** The applyflow board: its seven columns, the drop and modal state
    machine, the set of expanded cards and the urgency colour of a card.
    Calls of the `onStatusChange` prop are recorded in `calls`. */
module Kanban {
  import opened Base
  import opened Pipeline
  import opened Db
  import opened Client
  import Dashboard

  /** `statusColumns`, by status. */
  const StatusColumns: seq<Status> := [Saved, Applied, Screening, Test, Interview, Offer, Rejected]

  /** `getApplicationsByStatus`. */
  function ApplicationsByStatus(apps: seq<Application>, status: Status): (r: seq<Application>)
    ensures forall a :: a in r <==> a in apps && a.status == status
  {
    Filter(apps, (a: Application) => a.status == status)
  }

  /** The seven columns cover every status once, so each application is
      shown in exactly one column. */
  lemma EachApplicationInOneColumn(apps: seq<Application>, a: Application)
    requires a in apps
    ensures exists i :: 0 <= i < |StatusColumns| && a in ApplicationsByStatus(apps, StatusColumns[i])
    ensures forall i, j ::
      (0 <= i < |StatusColumns| && 0 <= j < |StatusColumns|
       && a in ApplicationsByStatus(apps, StatusColumns[i]) && a in ApplicationsByStatus(apps, StatusColumns[j]))
      ==> i == j
  {
    AllStatusesComplete(a.status);
    assert StatusColumns == AllStatuses;
    var i :| 0 <= i < |StatusColumns| && StatusColumns[i] == a.status;
    assert a in ApplicationsByStatus(apps, StatusColumns[i]);
  }

  // ---------------------------------------------------------------------------
  // Card urgency

  datatype Urgency = Normal | Urgent | OverdueStep

  /** `getNextStepStatus`: whole days to the due date, rounded up. A card is
      overdue only for a due day before today and urgent only for one from
      today to three days ahead. */
  function NextStepStatus(due: Option<Day>, now: Millis): (r: Urgency)
    ensures due.None? ==> r == Normal
    ensures r == OverdueStep ==> due.Some? && due.value < DayOf(now)
    ensures r == Urgent ==> due.Some? && DayOf(now) <= due.value <= DayOf(now) + 3
  {
    if due.None? then Normal
    else
      DiffDaysIsDayDifference(due.value, now);
      var diffDays := CeilDays(Dashboard.DueInstant(due.value) - now);
      if diffDays < 0 then OverdueStep
      else if diffDays <= 3 then Urgent
      else Normal
  }

  /** Rounding up the distance from now to a due day's midnight gives the
      difference of the day numbers. */
  lemma DiffDaysIsDayDifference(d: Day, now: Millis)
    ensures CeilDays(d * DayMs - now) == d - DayOf(now)
  {
    var t := DayOf(now);
    var c := CeilDays(d * DayMs - now);
    assert (c - 1) * DayMs < d * DayMs - now <= c * DayMs;
    assert t * DayMs <= now < t * DayMs + DayMs;
    assert (c - 1 - d + t) * DayMs < DayMs;
    assert (c - d + t) * DayMs >= 0;
  }

  /** In whole days: overdue before today, urgent from today to three days
      ahead, normal later or without a due date. A card is overdue exactly
      when the dashboard lists its application as overdue. */
  lemma UrgencyByDay(app: Application, now: Millis)
    ensures app.nextStepDueDate.None? ==> NextStepStatus(app.nextStepDueDate, now) == Normal
    ensures app.nextStepDueDate.Some? ==>
      var d := app.nextStepDueDate.value;
      var t := DayOf(now);
      && (NextStepStatus(app.nextStepDueDate, now) == OverdueStep <==> d < t)
      && (NextStepStatus(app.nextStepDueDate, now) == Urgent <==> t <= d <= t + 3)
      && (NextStepStatus(app.nextStepDueDate, now) == Normal <==> t + 3 < d)
    ensures NextStepStatus(app.nextStepDueDate, now) == OverdueStep <==> Dashboard.BucketOf(app, now) == Dashboard.Overdue
  {
    Dashboard.BucketByDay(app, now);
    if app.nextStepDueDate.Some? {
      DiffDaysIsDayDifference(app.nextStepDueDate.value, now);
    }
  }

  // ---------------------------------------------------------------------------
  // Board state

  datatype ModalState = ModalState(isOpen: bool, application: Option<Application>, targetStatus: Option<Status>)

  const ClosedModal: ModalState := ModalState(false, None, None)

  /** One call of `onStatusChange(applicationId, newStatus, nextStep, nextStepDueDate)`. */
  datatype StatusChange = StatusChange(applicationId: string, newStatus: Status, nextStep: string, nextStepDueDate: Option<string>)

  /** `expandedCards` after `toggleCardExpansion(id)`. */
  function Toggle(expanded: set<string>, id: string): (r: set<string>)
    ensures id in r <==> id !in expanded
    ensures forall x :: x != id ==> (x in r <==> x in expanded)
  {
    if id in expanded then expanded - {id} else expanded + {id}
  }

  /** Toggling the same card twice restores the set. */
  lemma ToggleTwice(expanded: set<string>, id: string)
    ensures Toggle(Toggle(expanded, id), id) == expanded
  {
  }

  /** The Update Status button moves a saved application to applied and
      keeps any other status. */
  function UpdateStatusTarget(s: Status): (r: Status)
    ensures s == Saved ==> r == Applied
    ensures s != Saved ==> r == s
  {
    if s == Saved then Applied else s
  }

  /** The due date `StatusChangeModal` hands on: `nextStepDueDate || undefined`. */
  function SubmittedDueDate(text: string): (r: Option<string>)
    ensures r.None? <==> text == ""
    ensures r.Some? ==> r.value == text
  {
    if text == "" then None else Some(text)
  }

  class Board {
    var dragged: Option<Application>
    var modal: ModalState
    var expandedCards: set<string>
    var calls: seq<StatusChange>

    constructor ()
      ensures dragged == None && modal == ClosedModal && expandedCards == {} && calls == []
    {
      dragged := None;
      modal := ClosedModal;
      expandedCards := {};
      calls := [];
    }

    /** `handleDragStart`. */
    method DragStart(app: Application)
      modifies this`dragged
      ensures dragged == Some(app)
    {
      dragged := Some(app);
    }

    /** `handleDrop`: nothing dragged or the same column clears the drag;
        offer and rejected change the status at once, keeping the existing
        next step or 'Status updated', and leave the drag set; any other
        column opens the modal and clears the drag. */
    method Drop(target: Status)
      modifies this`dragged, this`modal, this`calls
      ensures old(dragged).None? || old(dragged).value.status == target ==>
        dragged == None && modal == old(modal) && calls == old(calls)
      ensures old(dragged).Some? && old(dragged).value.status != target && IsTerminal(target) ==>
        && dragged == old(dragged) && modal == old(modal)
        && calls == old(calls) + [StatusChange(old(dragged).value.id, target,
                                               OrElse(old(dragged).value.nextStep, "Status updated"), None)]
      ensures old(dragged).Some? && old(dragged).value.status != target && !IsTerminal(target) ==>
        && dragged == None && calls == old(calls)
        && modal == ModalState(true, old(dragged), Some(target))
    {
      if dragged.None? || dragged.value.status == target {
        dragged := None;
        return;
      }
      if target == Offer || target == Rejected {
        calls := calls + [StatusChange(dragged.value.id, target, OrElse(dragged.value.nextStep, "Status updated"), None)];
        return;
      }
      modal := ModalState(true, dragged, Some(target));
      dragged := None;
    }

    /** `handleModalConfirm`: forwards the change only when the modal holds
        an application and a target, and always closes the modal. */
    method ModalConfirm(nextStep: string, dueText: string)
      modifies this`modal, this`calls
      ensures modal == ClosedModal
      ensures old(modal).application.Some? && old(modal).targetStatus.Some? ==>
        calls == old(calls) + [StatusChange(old(modal).application.value.id, old(modal).targetStatus.value,
                                            nextStep, SubmittedDueDate(dueText))]
      ensures old(modal).application.None? || old(modal).targetStatus.None? ==> calls == old(calls)
    {
      if modal.application.Some? && modal.targetStatus.Some? {
        calls := calls + [StatusChange(modal.application.value.id, modal.targetStatus.value, nextStep, SubmittedDueDate(dueText))];
      }
      modal := ClosedModal;
    }

    /** `handleModalClose`. */
    method ModalClose()
      modifies this`modal
      ensures modal == ClosedModal
    {
      modal := ClosedModal;
    }

    /** `toggleCardExpansion`. */
    method ToggleCardExpansion(id: string)
      modifies this`expandedCards
      ensures expandedCards == Toggle(old(expandedCards), id)
    {
      var next := expandedCards;
      if id in next {
        next := next - {id};
      } else {
        next := next + {id};
      }
      expandedCards := next;
    }

    /** The Update Status button of an expanded card. */
    method OpenUpdateStatus(app: Application)
      modifies this`modal
      ensures modal == ModalState(true, Some(app), Some(UpdateStatusTarget(app.status)))
    {
      modal := ModalState(true, Some(app), Some(if app.status == Saved then Applied else app.status));
    }
  }
}
