/** The Supabase board: drag end with its optimistic status rewrite, the
    next-step modal submit and close, and the columns by status. Updates
    sent to the `applications` table are recorded in `updates`; their
    outcome is an input. */
module SupabaseKanban {
  import opened Base
  import opened Pipeline
  import opened SupabaseTypes

  /** A next step is asked for every column except offer, rejected and saved. */
  predicate RequiresNextStep(s: Status)
    ensures RequiresNextStep(s) <==> s in {Applied, Screening, Test, Interview}
  {
    s != Offer && s != Rejected && s != Saved
  }

  /** The optimistic rewrite: the dragged application gets the new status;
      every other element, the length and the order stay. */
  function Optimistic(apps: seq<ApplicationWithVacancy>, id: string, s: Status): (r: seq<ApplicationWithVacancy>)
    ensures |r| == |apps|
    ensures forall i :: 0 <= i < |apps| && apps[i].id != id ==> r[i] == apps[i]
    ensures forall i :: 0 <= i < |apps| && apps[i].id == id ==> r[i] == apps[i].(status := s)
  {
    seq(|apps|, i requires 0 <= i < |apps| => if apps[i].id == id then apps[i].(status := s) else apps[i])
  }

  /** After the rewrite, a column holds the other applications it held
      before, plus the dragged one exactly when it is the target column. */
  lemma OptimisticColumns(apps: seq<ApplicationWithVacancy>, id: string, s: Status, t: Status, a: ApplicationWithVacancy)
    ensures a in Optimistic(apps, id, s) && a.status == t <==>
      || (a in apps && a.id != id && a.status == t)
      || (t == s && exists b :: b in apps && b.id == id && a == b.(status := s))
  {
    var r := Optimistic(apps, id, s);
    if a in r && a.status == t {
      var k :| 0 <= k < |r| && r[k] == a;
      assert apps[k] in apps;
    }
    if a in apps && a.id != id && a.status == t {
      var k :| 0 <= k < |apps| && apps[k] == a;
      assert r[k] == a;
    }
    if t == s && exists b :: b in apps && b.id == id && a == b.(status := s) {
      var b :| b in apps && b.id == id && a == b.(status := s);
      var k :| 0 <= k < |apps| && apps[k] == b;
      assert r[k] == a;
    }
  }

  /** `applicationsByStatus`: each listed status maps to exactly the
      applications with that status. */
  function ApplicationsByStatus(apps: seq<ApplicationWithVacancy>, statuses: seq<Status>): (r: map<Status, seq<ApplicationWithVacancy>>)
    ensures r.Keys == set s | s in statuses
    ensures forall s :: s in r ==> forall a :: a in r[s] <==> a in apps && a.status == s
  {
    map s | s in statuses :: Filter(apps, (a: ApplicationWithVacancy) => a.status == s)
  }

  /** An application whose status is listed is in exactly one column. */
  lemma ByStatusPartition(apps: seq<ApplicationWithVacancy>, statuses: seq<Status>, a: ApplicationWithVacancy)
    requires a in apps && a.status in statuses
    ensures var m := ApplicationsByStatus(apps, statuses);
      a.status in m && a in m[a.status] && forall s :: s in m && a in m[s] ==> s == a.status
  {
  }

  /** The dragged application: the first with the active id. */
  function Dragged(apps: seq<ApplicationWithVacancy>, id: string): (r: Option<ApplicationWithVacancy>)
    ensures r.Some? ==> r.value in apps && r.value.id == id
    ensures r.None? <==> forall a :: a in apps ==> a.id != id
  {
    FindFirst(apps, (a: ApplicationWithVacancy) => a.id == id)
  }

  /** What a drag ends over. Every column and every card is a sortable
      target: a column's id is its status, a card's id is its application's
      id. */
  datatype DropTarget = Column(status: Status) | Card(id: string)

  /** The `over.id` a target reports. */
  function OverId(t: DropTarget): string {
    match t
    case Column(s) => StatusName(s)
    case Card(id) => id
  }

  /** The column a target lies in, as `findColumn` resolves it: a column is
      its own; a card lies in the column of the first application with its
      id; an unknown card lies in none. */
  function TargetColumn(apps: seq<ApplicationWithVacancy>, t: DropTarget): (r: Option<Status>)
    ensures t.Column? ==> r == Some(t.status)
    ensures t.Card? ==> (r.None? <==> forall a :: a in apps ==> a.id != t.id)
    ensures t.Card? && r.Some? ==> exists a :: a in apps && a.id == t.id && a.status == r.value
  {
    match t
    case Column(s) => Some(s)
    case Card(id) =>
      var b := Dragged(apps, id);
      if b.Some? then Some(b.value.status) else None
  }

  /** With unique ids a card lies in its own application's column, so a drop
      onto any card of the dragged card's column moves nothing. */
  lemma CardLiesInItsColumn(apps: seq<ApplicationWithVacancy>, b: ApplicationWithVacancy)
    requires forall i, j :: 0 <= i < j < |apps| ==> apps[i].id != apps[j].id
    requires b in apps
    ensures TargetColumn(apps, Card(b.id)) == Some(b.status)
  {
    var f := Dragged(apps, b.id);
    var i :| 0 <= i < |apps| && apps[i] == f.value;
    var j :| 0 <= j < |apps| && apps[j] == b;
    assert i == j;
  }

  // ---------------------------------------------------------------------------
  // The drag end as written: `over.id as ApplicationStatus` is a cast, so the
  // id of whatever the card was dropped on becomes its status text.

  /** A card once a status has gone through the cast: its status is text. */
  datatype CardText = CardText(id: string, status: string)

  /** The cards of a board whose statuses are all pipeline statuses. */
  function Texts(apps: seq<ApplicationWithVacancy>): (r: seq<CardText>)
    ensures |r| == |apps|
    ensures forall i :: 0 <= i < |apps| ==> r[i] == CardText(apps[i].id, StatusName(apps[i].status))
  {
    seq(|apps|, i requires 0 <= i < |apps| => CardText(apps[i].id, StatusName(apps[i].status)))
  }

  /** `requiresNextStep` as written: the over id is compared, as text, with
      the three column names that skip the modal. */
  predicate RequiresNextStepText(overId: string)
    ensures ParseStatus(overId).None? ==> RequiresNextStepText(overId)
    ensures ParseStatus(overId).Some? ==> (RequiresNextStepText(overId) <==> RequiresNextStep(ParseStatus(overId).value))
  {
    overId != "offer" && overId != "rejected" && overId != "saved"
  }

  /** The optimistic rewrite as written: the dragged card takes the over id
      as its status; every other card, the length and the order stay. */
  function OptimisticText(cards: seq<CardText>, id: string, status: string): (r: seq<CardText>)
    ensures |r| == |cards|
    ensures forall i :: 0 <= i < |cards| && cards[i].id != id ==> r[i] == cards[i]
    ensures forall i :: 0 <= i < |cards| && cards[i].id == id ==> r[i] == CardText(id, status)
  {
    seq(|cards|, i requires 0 <= i < |cards| => if cards[i].id == id then cards[i].(status := status) else cards[i])
  }

  /** What a drag end does to the board: nothing but the drag reset, or a
      move that may open the next-step modal. */
  datatype TextDrop = NoMove | Moved(openModal: bool, status: string, cards: seq<CardText>)

  /** `handleDragEnd` as written, from a board whose cards carry pipeline
      statuses, for a drop over a target with id `overId`. */
  function DragEndAsWritten(apps: seq<ApplicationWithVacancy>, overId: string, activeApplicationId: string): (r: TextDrop)
    ensures (forall a :: a in apps ==> a.id != activeApplicationId) ==> r.NoMove?
    ensures r.Moved? ==> r.status == overId && r.openModal == RequiresNextStepText(overId)
    ensures r.Moved? ==> r.cards == OptimisticText(Texts(apps), activeApplicationId, overId)
  {
    var found := Dragged(apps, activeApplicationId);
    if found.None? || StatusName(found.value.status) == overId then NoMove
    else Moved(RequiresNextStepText(overId), overId, OptimisticText(Texts(apps), activeApplicationId, overId))
  }

  /** After the rewrite every card with the dragged id carries the new
      status, and a card with that id is still there when one was before. */
  lemma OptimisticTextCarries(cards: seq<CardText>, id: string, status: string)
    ensures forall c :: c in OptimisticText(cards, id, status) && c.id == id ==> c.status == status
    ensures (exists c :: c in cards && c.id == id) ==>
      exists c :: c in OptimisticText(cards, id, status) && c.id == id
  {
    var r := OptimisticText(cards, id, status);
    forall c | c in r && c.id == id ensures c.status == status {
      var i :| 0 <= i < |r| && r[i] == c;
    }
    if c :| c in cards && c.id == id {
      var i :| 0 <= i < |cards| && cards[i] == c;
      assert r[i] in r;
    }
  }

  /** As written, a drop onto a card whose id names no status (any card,
      the dragged one included) opens the next-step modal with that id as
      the new status, and the dragged card, still on the board, lies in no
      status column. */
  lemma AsWrittenCardDropLosesCard(apps: seq<ApplicationWithVacancy>, overId: string, activeApplicationId: string)
    requires ParseStatus(overId).None?
    requires exists a :: a in apps && a.id == activeApplicationId
    ensures var r := DragEndAsWritten(apps, overId, activeApplicationId);
      && r.Moved? && r.openModal && r.status == overId
      && (exists c :: c in r.cards && c.id == activeApplicationId)
      && forall c, s :: c in r.cards && c.id == activeApplicationId ==> c.status != StatusName(s)
  {
    var found := Dragged(apps, activeApplicationId);
    assert StatusName(found.value.status) != overId;
    assert RequiresNextStepText(overId);
    var cards := Texts(apps);
    var k :| 0 <= k < |apps| && apps[k] == found.value;
    assert cards[k].id == activeApplicationId;
    OptimisticTextCarries(cards, activeApplicationId, overId);
  }

  /** Dragging card `a1` onto its sibling `a2` in the applied column: as
      written the modal opens for status "a2" and `a1` leaves every column;
      resolved through its column, the target is `a1`'s own column and
      nothing moves. */
  lemma SiblingCardDrop(v: VacancyNames)
    ensures var a1 := ApplicationWithVacancy("a1", "u", "v1", 0, 0, Applied, None, 0, "", None, v);
      var a2 := ApplicationWithVacancy("a2", "u", "v2", 0, 0, Applied, None, 0, "", None, v);
      && DragEndAsWritten([a1, a2], "a2", "a1") == Moved(true, "a2", [CardText("a1", "a2"), CardText("a2", "applied")])
      && TargetColumn([a1, a2], Card("a2")) == Some(a1.status)
  {
    var a1 := ApplicationWithVacancy("a1", "u", "v1", 0, 0, Applied, None, 0, "", None, v);
    var a2 := ApplicationWithVacancy("a2", "u", "v2", 0, 0, Applied, None, 0, "", None, v);
    var r := DragEndAsWritten([a1, a2], "a2", "a1");
    assert r.cards == [CardText("a1", "a2"), CardText("a2", "applied")];
  }

  /** On a column target, the as-written drag end and the resolved one agree:
      the same move, the same modal decision, the same rewrite, read as text. */
  lemma AsWrittenAgreesOnColumns(apps: seq<ApplicationWithVacancy>, s: Status, activeApplicationId: string)
    ensures var found := Dragged(apps, activeApplicationId);
      DragEndAsWritten(apps, OverId(Column(s)), activeApplicationId) ==
        if found.None? || found.value.status == s then NoMove
        else Moved(RequiresNextStep(s), StatusName(s), Texts(Optimistic(apps, activeApplicationId, s)))
  {
    var found := Dragged(apps, activeApplicationId);
    if found.Some? {
      assert StatusName(found.value.status) == StatusName(s) <==> found.value.status == s by {
        assert ParseStatus(StatusName(s)) == Some(s);
      }
    }
    assert RequiresNextStepText(StatusName(s)) == RequiresNextStep(s);
    assert Texts(Optimistic(apps, activeApplicationId, s)) == OptimisticText(Texts(apps), activeApplicationId, StatusName(s));
  }

  /** One `.update(...).eq("id", id)` call. */
  datatype RemoteUpdate = RemoteUpdate(id: string, status: Status, lastStatusChangeAt: Millis,
                                       nextStep: string, nextStepDueDate: Option<Day>)

  class Board {
    var initialApplications: seq<ApplicationWithVacancy>
    var applications: seq<ApplicationWithVacancy>
    var activeId: Option<string>
    var showNextStepModal: bool
    var current: Option<ApplicationWithVacancy>
    var newStatus: Option<Status>
    var isLoading: bool
    var error: Option<string>
    var updates: seq<RemoteUpdate>
    var refreshes: nat

    constructor (initial: seq<ApplicationWithVacancy>)
      ensures initialApplications == initial && applications == initial
      ensures activeId == None && !showNextStepModal && current == None && newStatus == None
      ensures !isLoading && error == None && updates == [] && refreshes == 0
    {
      initialApplications := initial;
      applications := initial;
      activeId := None;
      showNextStepModal := false;
      current := None;
      newStatus := None;
      isLoading := false;
      error := None;
      updates := [];
      refreshes := 0;
    }

    /** `handleDragStart`. */
    method DragStart(id: string)
      modifies this`activeId
      ensures activeId == Some(id)
    {
      activeId := Some(id);
    }

    /** `handleDragEnd`, with the target resolved to its column as
        `findColumn` does (`over`: `None` when there is no drop target; a
        card that is not on the board resolves to no column and ends the
        drag like an unknown application); `remoteFails` is the outcome of
        the direct update. */
    method DragEnd(over: Option<DropTarget>, activeApplicationId: string, now: Millis, remoteFails: bool)
      modifies this`applications, this`activeId, this`showNextStepModal, this`current, this`newStatus,
               this`updates, this`refreshes
      ensures over.None? ==> unchanged(this)
      ensures var found := Dragged(old(applications), activeApplicationId);
        var t := if over.Some? then TargetColumn(old(applications), over.value) else None;
        over.Some? && (t.None? || found.None? || found.value.status == t.value) ==>
          && activeId == None && applications == old(applications) && updates == old(updates)
          && showNextStepModal == old(showNextStepModal) && current == old(current) && newStatus == old(newStatus)
          && refreshes == old(refreshes)
      ensures var found := Dragged(old(applications), activeApplicationId);
        var t := if over.Some? then TargetColumn(old(applications), over.value) else None;
        t.Some? && found.Some? && found.value.status != t.value && RequiresNextStep(t.value) ==>
          && current == found && newStatus == t && showNextStepModal
          && applications == Optimistic(old(applications), activeApplicationId, t.value)
          && activeId == old(activeId) && updates == old(updates) && refreshes == old(refreshes)
      ensures var found := Dragged(old(applications), activeApplicationId);
        var t := if over.Some? then TargetColumn(old(applications), over.value) else None;
        t.Some? && found.Some? && found.value.status != t.value && !RequiresNextStep(t.value) ==>
          && updates == old(updates) + [RemoteUpdate(activeApplicationId, t.value, now, "", None)]
          && (remoteFails ==> applications == initialApplications && refreshes == old(refreshes))
          && (!remoteFails ==> applications == Optimistic(old(applications), activeApplicationId, t.value)
                               && refreshes == old(refreshes) + 1)
          && activeId == None
          && showNextStepModal == old(showNextStepModal) && current == old(current) && newStatus == old(newStatus)
    {
      if over.None? {
        return;
      }
      var column := TargetColumn(applications, over.value);
      var found := Dragged(applications, activeApplicationId);
      if column.None? || found.None? || found.value.status == column.value {
        activeId := None;
        return;
      }
      var target := column.value;
      if RequiresNextStep(target) {
        current := found;
        newStatus := Some(target);
        showNextStepModal := true;
        applications := Optimistic(applications, activeApplicationId, target);
      } else {
        applications := Optimistic(applications, activeApplicationId, target);
        updates := updates + [RemoteUpdate(activeApplicationId, target, now, "", None)];
        if remoteFails {
          applications := initialApplications;
        } else {
          refreshes := refreshes + 1;
        }
        activeId := None;
      }
    }

    /** `handleNextStepSubmit`: without a pending application and status it
        does nothing; otherwise it writes the new status with the supplied
        next step and due date, reverts the list on failure (`failure` holds
        the error message) and resets the modal fields and the drag. */
    method NextStepSubmit(nextStep: string, nextStepDueDate: Option<Day>, now: Millis, failure: Option<string>)
      modifies this`applications, this`activeId, this`showNextStepModal, this`current, this`newStatus,
               this`isLoading, this`error, this`updates, this`refreshes
      ensures old(current).None? || old(newStatus).None? ==> unchanged(this)
      ensures old(current).Some? && old(newStatus).Some? ==>
        && updates == old(updates) + [RemoteUpdate(old(current).value.id, old(newStatus).value, now, nextStep, nextStepDueDate)]
        && error == failure
        && (failure.Some? ==> applications == initialApplications && refreshes == old(refreshes))
        && (failure.None? ==> applications == old(applications) && refreshes == old(refreshes) + 1)
        && !showNextStepModal && current == None && newStatus == None && !isLoading && activeId == None
    {
      if current.None? || newStatus.None? {
        return;
      }
      isLoading := true;
      error := None;
      updates := updates + [RemoteUpdate(current.value.id, newStatus.value, now, nextStep, nextStepDueDate)];
      if failure.Some? {
        error := failure;
        applications := initialApplications;
      } else {
        refreshes := refreshes + 1;
      }
      showNextStepModal := false;
      current := None;
      newStatus := None;
      isLoading := false;
      activeId := None;
    }

    /** The modal's `onClose`: hide it, revert the optimistic rewrite, clear
        the drag. */
    method CloseModal()
      modifies this`showNextStepModal, this`applications, this`activeId
      ensures !showNextStepModal && applications == initialApplications && activeId == None
    {
      showNextStepModal := false;
      applications := initialApplications;
      activeId := None;
    }
  }
}
