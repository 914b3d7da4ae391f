/** The replay checker of `scripts/verify_governed_state.py`: rebuild every Sprint
    and decision from its event stream and compare it with the stored row. */
module Replay {
  import opened Ordering
  import opened Seqs
  import opened Cards

  datatype SprintStatus = Proposed | AwaitingApproval | Approved | Rejected | Cancelling

  datatype Sprint = Sprint(
    sprintId: string, sequence: int, title: string, objective: string, status: SprintStatus, version: int,
    runId: string, pending: Option<string>, created: int, updated: int)

  datatype DecisionStatus = Pending | Accepted | Declined

  /** `action` and `risk_class`, with everything outside the contract in one case. */
  datatype Action = SubmitAction | OtherAction(text: string)
  datatype Risk = Low | Medium | High | Critical | OtherRisk(text: string)

  datatype Decision = Decision(
    decisionId: string, sprintId: string, runId: string, action: Action, riskClass: Risk, status: DecisionStatus,
    version: int, requestedBy: string, decidedBy: Option<string>, reason: Option<string>, created: int, updated: int,
    decided: Option<int>)

  datatype SprintEventType = Planned | Migrated | Submitted | DecisionResolved | CancellationRequested
  datatype SprintEvent = SprintEvent(kind: SprintEventType, migration: bool, sprint: Sprint)

  datatype DecisionEventType = Requested | DecisionApproved | DecisionRejected
  datatype DecisionEvent = DecisionEvent(kind: DecisionEventType, decision: Decision)

  // ---------------------------------------------------------------- sprints

  /** `validate_sprint`, apart from the shape of identifiers. */
  predicate ValidSprint(s: Sprint) {
    && s.sequence >= 0 && 1 <= |s.title| <= 500 && 3 <= |s.objective| <= 8000 && s.version >= 1
    && s.created <= s.updated && (s.status == AwaitingApproval <==> s.pending.Some?)
  }

  predicate SprintBaseline(e: SprintEvent) {
    (e.kind == Planned && e.sprint.version == 1 && e.sprint.status == Proposed) || (e.kind == Migrated && e.migration)
  }

  predicate SameSprint(a: Sprint, b: Sprint) {
    && a.sprintId == b.sprintId && a.sequence == b.sequence && a.title == b.title && a.objective == b.objective
    && a.runId == b.runId && a.created == b.created
  }

  predicate SprintStep(before: Sprint, e: SprintEvent) {
    && e.sprint.version == before.version + 1 && SameSprint(before, e.sprint) && before.updated <= e.sprint.updated
    && (match e.kind
        case Submitted => before.status == Proposed && e.sprint.status == AwaitingApproval
        case DecisionResolved => before.status == AwaitingApproval && (e.sprint.status == Approved || e.sprint.status == Rejected)
        case CancellationRequested => (before.status == Proposed || before.status == Approved) && e.sprint.status == Cancelling
        case Planned => false
        case Migrated => false)
  }

  /** A stream the checker accepts for this row. */
  ghost predicate SprintStream(stream: seq<SprintEvent>, row: Sprint) {
    && stream != [] && SprintBaseline(stream[0]) && stream[|stream|-1].sprint == row
    && (forall i :: 0 <= i < |stream| ==> ValidSprint(stream[i].sprint))
    && (forall i :: 0 < i < |stream| ==> SprintStep(stream[i-1].sprint, stream[i]))
  }

  /** How far a Sprint has come. */
  function Progress(s: SprintStatus): nat {
    match s case Proposed => 0 case AwaitingApproval => 1 case Approved => 2 case Rejected => 2 case Cancelling => 3
  }

  /** Along an accepted stream a Sprint keeps its identity and content, counts its
      versions one by one, never goes back in time or in status, and nothing
      follows a rejection or a cancellation. */
  lemma {:induction false} SprintStreamTells(stream: seq<SprintEvent>, row: Sprint, i: nat, j: nat)
    requires SprintStream(stream, row) && i <= j < |stream|
    ensures var a, b := stream[i].sprint, stream[j].sprint;
      && a.sprintId == b.sprintId && a.sequence == b.sequence && a.title == b.title && a.objective == b.objective
      && a.runId == b.runId && a.created == b.created
      && b.version == a.version + (j - i) && a.updated <= b.updated
      && Progress(b.status) >= Progress(a.status) + (j - i)
      && (a.status == Rejected || a.status == Cancelling ==> i == j)
    decreases j
  {
    if i < j {
      assert SprintStep(stream[j-1].sprint, stream[j]);
      SprintStreamTells(stream, row, i, j - 1);
    }
  }

  method VerifySprintStream(stream: seq<SprintEvent>, row: Sprint) returns (ok: bool)
    ensures ok <==> SprintStream(stream, row)
  {
    if stream == [] { return false; }
    var previous := row;
    for i := 0 to |stream|
      invariant i > 0 ==> previous == stream[i-1].sprint && SprintBaseline(stream[0])
      invariant forall k :: 0 <= k < i ==> ValidSprint(stream[k].sprint)
      invariant forall k :: 0 < k < i ==> SprintStep(stream[k-1].sprint, stream[k])
    {
      var e := stream[i];
      if !ValidSprint(e.sprint) { return false; }
      if i == 0 {
        if !SprintBaseline(e) { return false; }
      } else if !SprintStep(previous, e) {
        return false;
      }
      previous := e.sprint;
    }
    ok := previous == row;
  }

  function SprintOf(id: string): SprintEvent -> bool { (e: SprintEvent) => e.sprint.sprintId == id }
  predicate SprintEarlier(a: SprintEvent, b: SprintEvent) { a.sprint.version < b.sprint.version }

  /** The events of one Sprint, sorted by version as the checker does. */
  function SprintEvents(events: seq<SprintEvent>, id: string): seq<SprintEvent> {
    Sort(SprintEarlier, Filter(SprintOf(id), events))
  }

  ghost predicate SprintsAccepted(events: seq<SprintEvent>, rows: map<string, Sprint>) {
    && (forall e :: e in events ==> e.sprint.sprintId in rows)
    && forall id :: id in rows ==> SprintStream(SprintEvents(events, id), rows[id])
  }

  /** `verify_sprints`. */
  method VerifySprints(events: seq<SprintEvent>, rows: map<string, Sprint>) returns (ok: bool)
    ensures ok <==> SprintsAccepted(events, rows)
  {
    var ids := set e | e in events :: e.sprint.sprintId;
    if ids != rows.Keys {
      MissingSprint(events, rows);
      return false;
    }
    var left := rows.Keys;
    while left != {}
      invariant left <= rows.Keys
      invariant forall id :: id in rows && id !in left ==> SprintStream(SprintEvents(events, id), rows[id])
      decreases |left|
    {
      var id :| id in left;
      var good := VerifySprintStream(SprintEvents(events, id), rows[id]);
      if !good { return false; }
      left := left - {id};
    }
    ok := true;
  }

  lemma MissingSprint(events: seq<SprintEvent>, rows: map<string, Sprint>)
    requires (set e | e in events :: e.sprint.sprintId) != rows.Keys
    ensures !SprintsAccepted(events, rows)
  {
    if SprintsAccepted(events, rows) {
      var id :| id in rows && id !in (set e | e in events :: e.sprint.sprintId);
      FilterNone(SprintOf(id), events);
    }
  }

  // -------------------------------------------------------------- decisions

  predicate Resolved(s: DecisionStatus) { s == Accepted || s == Declined }

  /** `validate_decision`, apart from the shape of identifiers. */
  predicate ValidDecision(d: Decision) {
    && d.action == SubmitAction && !d.riskClass.OtherRisk? && d.version >= 1
    && 1 <= |d.requestedBy| <= 160 && d.created <= d.updated
    && (if Resolved(d.status) then
          && d.decidedBy.Some? && 1 <= |d.decidedBy.value| <= 160 && d.reason.Some? && 3 <= |d.reason.value| <= 2000
          && d.decided.Some? && d.created <= d.decided.value
        else d.decidedBy.None? && d.reason.None? && d.decided.None?)
  }

  predicate DecisionBaseline(e: DecisionEvent) {
    e.kind == Requested && e.decision.version == 1 && e.decision.status == Pending
  }

  predicate SameDecision(a: Decision, b: Decision) {
    && a.decisionId == b.decisionId && a.sprintId == b.sprintId && a.runId == b.runId && a.action == b.action
    && a.riskClass == b.riskClass && a.requestedBy == b.requestedBy && a.created == b.created
  }

  predicate DecisionStep(before: Decision, e: DecisionEvent) {
    && e.decision.version == before.version + 1 && SameDecision(before, e.decision) && before.status == Pending
    && ((e.decision.status == Accepted && e.kind == DecisionApproved)
        || (e.decision.status == Declined && e.kind == DecisionRejected))
  }

  ghost predicate DecisionStream(stream: seq<DecisionEvent>, row: Decision) {
    && stream != [] && DecisionBaseline(stream[0]) && stream[|stream|-1].decision == row
    && (forall i :: 0 <= i < |stream| ==> ValidDecision(stream[i].decision))
    && (forall i :: 0 < i < |stream| ==> DecisionStep(stream[i-1].decision, stream[i]))
  }

  lemma AnsweredOnce(stream: seq<DecisionEvent>, row: Decision, k: nat)
    requires DecisionStream(stream, row) && 0 < k < |stream|
    ensures stream[k-1].decision.status == Pending && stream[k].decision.status != Pending && DecisionStep(stream[k-1].decision, stream[k])
  {}

  /** An accepted decision stream is a request, and at most one answer to it by
      someone for a reason. */
  lemma DecisionStreamTells(stream: seq<DecisionEvent>, row: Decision)
    requires DecisionStream(stream, row)
    ensures |stream| <= 2 && stream[0].decision.status == Pending && stream[0].decision.version == 1
    ensures |stream| == 2 ==>
      && row == stream[0].decision.(status := row.status, version := 2, updated := row.updated, decided := row.decided,
                                    decidedBy := row.decidedBy, reason := row.reason)
      && row.decidedBy.Some? && row.reason.Some? && row.decided.Some?
      && (stream[1].kind == DecisionApproved ==> row.status == Accepted) && (stream[1].kind == DecisionRejected ==> row.status == Declined)
      && stream[1].kind != Requested
  {
    if |stream| >= 2 { AnsweredOnce(stream, row, 1); }
    if |stream| >= 3 { AnsweredOnce(stream, row, 2); }
  }

  method VerifyDecisionStream(stream: seq<DecisionEvent>, row: Decision) returns (ok: bool)
    ensures ok <==> DecisionStream(stream, row)
  {
    if stream == [] { return false; }
    var previous := row;
    for i := 0 to |stream|
      invariant i > 0 ==> previous == stream[i-1].decision && DecisionBaseline(stream[0])
      invariant forall k :: 0 <= k < i ==> ValidDecision(stream[k].decision)
      invariant forall k :: 0 < k < i ==> DecisionStep(stream[k-1].decision, stream[k])
    {
      var e := stream[i];
      if !ValidDecision(e.decision) { return false; }
      if i == 0 {
        if !DecisionBaseline(e) { return false; }
      } else if !DecisionStep(previous, e) {
        return false;
      }
      previous := e.decision;
    }
    ok := previous == row;
  }

  function DecisionOf(id: string): DecisionEvent -> bool { (e: DecisionEvent) => e.decision.decisionId == id }
  predicate DecisionEarlier(a: DecisionEvent, b: DecisionEvent) { a.decision.version < b.decision.version }

  function DecisionEvents(events: seq<DecisionEvent>, id: string): seq<DecisionEvent> {
    Sort(DecisionEarlier, Filter(DecisionOf(id), events))
  }

  ghost predicate DecisionsAccepted(events: seq<DecisionEvent>, rows: map<string, Decision>) {
    && (forall e :: e in events ==> e.decision.decisionId in rows)
    && forall id :: id in rows ==> DecisionStream(DecisionEvents(events, id), rows[id])
  }

  /** `verify_decisions`. */
  method VerifyDecisions(events: seq<DecisionEvent>, rows: map<string, Decision>) returns (ok: bool)
    ensures ok <==> DecisionsAccepted(events, rows)
  {
    var ids := set e | e in events :: e.decision.decisionId;
    if ids != rows.Keys {
      MissingDecision(events, rows);
      return false;
    }
    var left := rows.Keys;
    while left != {}
      invariant left <= rows.Keys
      invariant forall id :: id in rows && id !in left ==> DecisionStream(DecisionEvents(events, id), rows[id])
      decreases |left|
    {
      var id :| id in left;
      var good := VerifyDecisionStream(DecisionEvents(events, id), rows[id]);
      if !good { return false; }
      left := left - {id};
    }
    ok := true;
  }

  lemma MissingDecision(events: seq<DecisionEvent>, rows: map<string, Decision>)
    requires (set e | e in events :: e.decision.decisionId) != rows.Keys
    ensures !DecisionsAccepted(events, rows)
  {
    if DecisionsAccepted(events, rows) {
      var id :| id in rows && id !in (set e | e in events :: e.decision.decisionId);
      FilterNone(DecisionOf(id), events);
    }
  }

  // ------------------------------------------------------------------ links

  ghost predicate PendingFor(decisions: map<string, Decision>, sprint: string, id: string) {
    id in decisions && decisions[id].status == Pending && decisions[id].sprintId == sprint
  }

  /** Each decision belongs to its Sprint's Run, and each Sprint names its one
      pending decision, or none if there is none. */
  ghost predicate LinksAccepted(sprints: map<string, Sprint>, decisions: map<string, Decision>) {
    && (forall d :: d in decisions ==> decisions[d].sprintId in sprints && sprints[decisions[d].sprintId].runId == decisions[d].runId)
    && (forall s, d :: s in sprints && PendingFor(decisions, s, d) ==> sprints[s].pending == Some(decisions[d].decisionId))
    && (forall s, d, e :: s in sprints && PendingFor(decisions, s, d) && PendingFor(decisions, s, e) ==> d == e)
    && (forall s :: s in sprints && sprints[s].pending.Some? ==> exists d :: PendingFor(decisions, s, d))
  }

  ghost predicate PendingMap(decisions: map<string, Decision>, seen: set<string>, pending: map<string, string>) {
    && (forall s :: s in pending ==> pending[s] in seen && PendingFor(decisions, s, pending[s]))
    && (forall d :: d in seen && d in decisions && decisions[d].status == Pending ==>
          decisions[d].sprintId in pending && pending[decisions[d].sprintId] == d)
  }

  /** The first loop of `verify_cross_aggregate_links`. */
  method CollectPending(sprints: map<string, Sprint>, decisions: map<string, Decision>)
    returns (ok: bool, pending: map<string, string>)
    ensures ok ==> PendingMap(decisions, decisions.Keys, pending)
    ensures ok ==> forall d :: d in decisions ==>
      decisions[d].sprintId in sprints && sprints[decisions[d].sprintId].runId == decisions[d].runId
    ensures !ok ==> !LinksAccepted(sprints, decisions)
  {
    ok, pending := true, map[];
    var left := decisions.Keys;
    while left != {}
      invariant left <= decisions.Keys && PendingMap(decisions, decisions.Keys - left, pending)
      invariant forall d :: d in decisions && d !in left ==>
        decisions[d].sprintId in sprints && sprints[decisions[d].sprintId].runId == decisions[d].runId
      decreases |left|
    {
      var d :| d in left;
      var sprint := decisions[d].sprintId;
      if sprint !in sprints || sprints[sprint].runId != decisions[d].runId { return false, pending; }
      if decisions[d].status == Pending {
        if sprint in pending {
          assert PendingFor(decisions, sprint, d) && PendingFor(decisions, sprint, pending[sprint]);
          return false, pending;
        }
        pending := pending[sprint := d];
      }
      left := left - {d};
    }
  }

  /** `verify_cross_aggregate_links`. Rows are keyed by their own identifier. */
  method VerifyCrossAggregateLinks(sprints: map<string, Sprint>, decisions: map<string, Decision>) returns (ok: bool)
    requires forall d :: d in decisions ==> decisions[d].decisionId == d
    ensures ok <==> LinksAccepted(sprints, decisions)
  {
    var pending;
    ok, pending := CollectPending(sprints, decisions);
    if !ok { return; }
    var left := sprints.Keys;
    while left != {}
      invariant left <= sprints.Keys
      invariant forall s :: s in sprints && s !in left ==>
        sprints[s].pending == if s in pending then Some(pending[s]) else None
      decreases |left|
    {
      var s :| s in left;
      if sprints[s].pending != (if s in pending then Some(pending[s]) else None) {
        PendingDiffers(sprints, decisions, pending, s);
        return false;
      }
      left := left - {s};
    }
    PendingAgrees(sprints, decisions, pending);
  }

  lemma PendingDiffers(sprints: map<string, Sprint>, decisions: map<string, Decision>, pending: map<string, string>, s: string)
    requires forall d :: d in decisions ==> decisions[d].decisionId == d
    requires PendingMap(decisions, decisions.Keys, pending) && s in sprints
    requires sprints[s].pending != if s in pending then Some(pending[s]) else None
    ensures !LinksAccepted(sprints, decisions)
  {
    if s in pending { assert PendingFor(decisions, s, pending[s]); }
  }

  lemma PendingAgrees(sprints: map<string, Sprint>, decisions: map<string, Decision>, pending: map<string, string>)
    requires forall d :: d in decisions ==> decisions[d].decisionId == d
    requires PendingMap(decisions, decisions.Keys, pending)
    requires forall d :: d in decisions ==> decisions[d].sprintId in sprints && sprints[decisions[d].sprintId].runId == decisions[d].runId
    requires forall s :: s in sprints ==> sprints[s].pending == if s in pending then Some(pending[s]) else None
    ensures LinksAccepted(sprints, decisions)
  {
    forall s | s in sprints && sprints[s].pending.Some? ensures exists d :: PendingFor(decisions, s, d) {
      assert PendingFor(decisions, s, pending[s]);
    }
  }
}
