/** `MemoryRepository`: Sprints, decisions, Runs and idempotency receipts, and the
    event streams its snapshots form. Clock readings are parameters. */
module Control {
  import opened Ordering
  import opened Seqs
  import opened Cards
  import opened Replay
  import Delivery

  datatype RunRow = RunRow(runId: string, objective: string, state: Delivery.RunState, version: int, created: int, updated: int)

  datatype Actor = Human | Agent | Worker | System | OtherActor(text: string)

  datatype Metadata = Metadata(
    key: string, actorType: Actor, actorId: string, correlation: string, causation: string, tool: string)

  /** `ValidateCommandMetadata`. */
  predicate ValidMetadata(m: Metadata) {
    && 8 <= |m.key| <= 200 && !m.actorType.OtherActor? && 1 <= |m.actorId| <= 160
    && 3 <= |m.correlation| <= 160 && (m.tool == "" || 3 <= |m.tool| <= 120) && |m.causation| <= 160
  }

  /** The arguments a command is hashed with. */
  datatype Arguments =
    | PlanArguments(title: string, objective: string)
    | SubmitArguments(sprintId: string, version: int, riskClass: Risk)
    | ResolveArguments(decisionId: string, version: int, approve: bool, reason: string)
    | TransitionArguments(runId: string, version: int, to: Delivery.RunState)
    | ResumeArguments(runId: string, version: int)

  /** What `controlHash` hashes: arguments and caller. The hash is injective, so the content stands for it. */
  datatype Request = Request(arguments: Arguments, actorType: Actor, actorId: string, causation: string, tool: string)

  function RequestOf(m: Metadata, arguments: Arguments): Request {
    Request(arguments, m.actorType, m.actorId, m.causation, m.tool)
  }

  datatype Response =
    | PlanDone(sprint: Sprint, run: RunRow)
    | SubmitDone(sprint: Sprint, decision: Decision, run: RunRow)
    | DecideDone(sprint: Sprint, decision: Decision, run: RunRow)
    | RunDone(run: RunRow)

  datatype Receipt = Receipt(request: Request, response: Response)
  datatype Audit = Audit(tool: string, actorId: string, key: string, scope: string, replay: bool, at: int)

  function Max(a: int, b: int): int { if a < b then b else a }

  /** `Machine.Transition`. */
  function Moved(run: RunRow, to: Delivery.RunState, now: int): Outcome<RunRow> {
    if Delivery.Allowed(run.state, to) then Ok(run.(state := to, version := run.version + 1, updated := Max(now, run.updated)))
    else Err
  }

  // ---------------------------------------------------------------- streams

  /** The log holds an acceptable stream for this row. */
  ghost function SprintFits(log: seq<SprintEvent>): (string, Sprint) -> bool {
    (id: string, row: Sprint) => row.sprintId == id && SprintStream(Filter(SprintOf(id), log), row)
  }

  ghost function DecisionFits(log: seq<DecisionEvent>): (string, Decision) -> bool {
    (id: string, row: Decision) => row.decisionId == id && DecisionStream(Filter(DecisionOf(id), log), row)
  }

  ghost predicate SprintsKept(rows: map<string, Sprint>, log: seq<SprintEvent>) {
    && (forall e :: e in log ==> e.sprint.sprintId in rows)
    && forall id :: id in rows ==> SprintFits(log)(id, rows[id])
  }

  ghost predicate DecisionsKept(rows: map<string, Decision>, log: seq<DecisionEvent>) {
    && (forall e :: e in log ==> e.decision.decisionId in rows)
    && forall id :: id in rows ==> DecisionFits(log)(id, rows[id])
  }

  lemma SprintStreamGrows(stream: seq<SprintEvent>, row: Sprint, e: SprintEvent)
    requires SprintStream(stream, row) && ValidSprint(e.sprint) && SprintStep(row, e)
    ensures SprintStream(stream + [e], e.sprint)
  {
    var s := stream + [e];
    forall i | 0 < i < |s| ensures SprintStep(s[i-1].sprint, s[i]) {}
  }

  lemma SprintStarts(log: seq<SprintEvent>, e: SprintEvent)
    requires ValidSprint(e.sprint) && SprintBaseline(e) && forall x :: x in log ==> x.sprint.sprintId != e.sprint.sprintId
    ensures SprintFits(log + [e])(e.sprint.sprintId, e.sprint)
  {
    var of := SprintOf(e.sprint.sprintId);
    FilterAppend(of, log, [e]);
    FilterNone(of, log);
    assert Filter(of, [e]) == [e];
  }

  lemma SprintContinues(log: seq<SprintEvent>, row: Sprint, e: SprintEvent)
    requires SprintFits(log)(e.sprint.sprintId, row) && ValidSprint(e.sprint) && SprintStep(row, e)
    ensures SprintFits(log + [e])(e.sprint.sprintId, e.sprint)
  {
    var of := SprintOf(e.sprint.sprintId);
    FilterAppend(of, log, [e]);
    assert Filter(of, [e]) == [e];
    SprintStreamGrows(Filter(of, log), row, e);
  }

  lemma OtherSprintFits(log: seq<SprintEvent>, e: SprintEvent, id: string, row: Sprint)
    requires id != e.sprint.sprintId && SprintFits(log)(id, row)
    ensures SprintFits(log + [e])(id, row)
  {
    FilterAppend(SprintOf(id), log, [e]);
    assert Filter(SprintOf(id), [e]) == [];
  }

  /** A row replaced or added among rows that all fit. */
  lemma UpdateFits<R(!new)>(rows: map<string, R>, id: string, row: R, fits: (string, R) -> bool)
    requires fits(id, row) && forall x :: x in rows && x != id ==> fits(x, rows[x])
    ensures var next := rows[id := row]; forall x :: x in next ==> fits(x, next[x])
  {}

  lemma OwnSprintFits(rows: map<string, Sprint>, log: seq<SprintEvent>, e: SprintEvent)
    requires SprintsKept(rows, log) && ValidSprint(e.sprint)
    requires if e.sprint.sprintId in rows then SprintStep(rows[e.sprint.sprintId], e) else SprintBaseline(e)
    ensures SprintFits(log + [e])(e.sprint.sprintId, e.sprint)
  {
    var id := e.sprint.sprintId;
    if id in rows { SprintContinues(log, rows[id], e); } else { SprintStarts(log, e); }
  }

  lemma OtherSprintsFit(rows: map<string, Sprint>, log: seq<SprintEvent>, e: SprintEvent)
    requires SprintsKept(rows, log)
    ensures forall x :: x in rows && x != e.sprint.sprintId ==> SprintFits(log + [e])(x, rows[x])
  {
    forall x | x in rows && x != e.sprint.sprintId ensures SprintFits(log + [e])(x, rows[x]) {
      OtherSprintFits(log, e, x, rows[x]);
    }
  }

  lemma SprintsListed(rows: map<string, Sprint>, log: seq<SprintEvent>, e: SprintEvent)
    requires forall x :: x in log ==> x.sprint.sprintId in rows
    ensures forall x :: x in log + [e] ==> x.sprint.sprintId in rows[e.sprint.sprintId := e.sprint]
  {}

  /** A new snapshot of a sprint extends its stream and no other. */
  lemma AddSprint(rows: map<string, Sprint>, log: seq<SprintEvent>, e: SprintEvent)
    requires SprintsKept(rows, log) && ValidSprint(e.sprint)
    requires if e.sprint.sprintId in rows then SprintStep(rows[e.sprint.sprintId], e) else SprintBaseline(e)
    ensures SprintsKept(rows[e.sprint.sprintId := e.sprint], log + [e])
  {
    OwnSprintFits(rows, log, e);
    OtherSprintsFit(rows, log, e);
    UpdateFits(rows, e.sprint.sprintId, e.sprint, SprintFits(log + [e]));
    SprintsListed(rows, log, e);
  }

  lemma DecisionStreamGrows(stream: seq<DecisionEvent>, row: Decision, e: DecisionEvent)
    requires DecisionStream(stream, row) && ValidDecision(e.decision) && DecisionStep(row, e)
    ensures DecisionStream(stream + [e], e.decision)
  {
    var s := stream + [e];
    forall i | 0 < i < |s| ensures DecisionStep(s[i-1].decision, s[i]) {}
  }

  lemma DecisionStarts(log: seq<DecisionEvent>, e: DecisionEvent)
    requires ValidDecision(e.decision) && DecisionBaseline(e) && forall x :: x in log ==> x.decision.decisionId != e.decision.decisionId
    ensures DecisionFits(log + [e])(e.decision.decisionId, e.decision)
  {
    var of := DecisionOf(e.decision.decisionId);
    FilterAppend(of, log, [e]);
    FilterNone(of, log);
    assert Filter(of, [e]) == [e];
  }

  lemma DecisionContinues(log: seq<DecisionEvent>, row: Decision, e: DecisionEvent)
    requires DecisionFits(log)(e.decision.decisionId, row) && ValidDecision(e.decision) && DecisionStep(row, e)
    ensures DecisionFits(log + [e])(e.decision.decisionId, e.decision)
  {
    var of := DecisionOf(e.decision.decisionId);
    FilterAppend(of, log, [e]);
    assert Filter(of, [e]) == [e];
    DecisionStreamGrows(Filter(of, log), row, e);
  }

  lemma OtherDecisionFits(log: seq<DecisionEvent>, e: DecisionEvent, id: string, row: Decision)
    requires id != e.decision.decisionId && DecisionFits(log)(id, row)
    ensures DecisionFits(log + [e])(id, row)
  {
    FilterAppend(DecisionOf(id), log, [e]);
    assert Filter(DecisionOf(id), [e]) == [];
  }

  lemma OwnDecisionFits(rows: map<string, Decision>, log: seq<DecisionEvent>, e: DecisionEvent)
    requires DecisionsKept(rows, log) && ValidDecision(e.decision)
    requires if e.decision.decisionId in rows then DecisionStep(rows[e.decision.decisionId], e) else DecisionBaseline(e)
    ensures DecisionFits(log + [e])(e.decision.decisionId, e.decision)
  {
    var id := e.decision.decisionId;
    if id in rows { DecisionContinues(log, rows[id], e); } else { DecisionStarts(log, e); }
  }

  lemma OtherDecisionsFit(rows: map<string, Decision>, log: seq<DecisionEvent>, e: DecisionEvent)
    requires DecisionsKept(rows, log)
    ensures forall x :: x in rows && x != e.decision.decisionId ==> DecisionFits(log + [e])(x, rows[x])
  {
    forall x | x in rows && x != e.decision.decisionId ensures DecisionFits(log + [e])(x, rows[x]) {
      OtherDecisionFits(log, e, x, rows[x]);
    }
  }

  lemma DecisionsListed(rows: map<string, Decision>, log: seq<DecisionEvent>, e: DecisionEvent)
    requires forall x :: x in log ==> x.decision.decisionId in rows
    ensures forall x :: x in log + [e] ==> x.decision.decisionId in rows[e.decision.decisionId := e.decision]
  {}

  /** A new snapshot of a decision extends its stream and no other. */
  lemma AddDecision(rows: map<string, Decision>, log: seq<DecisionEvent>, e: DecisionEvent)
    requires DecisionsKept(rows, log) && ValidDecision(e.decision)
    requires if e.decision.decisionId in rows then DecisionStep(rows[e.decision.decisionId], e) else DecisionBaseline(e)
    ensures DecisionsKept(rows[e.decision.decisionId := e.decision], log + [e])
  {
    OwnDecisionFits(rows, log, e);
    OtherDecisionsFit(rows, log, e);
    UpdateFits(rows, e.decision.decisionId, e.decision, DecisionFits(log + [e]));
    DecisionsListed(rows, log, e);
  }

  // ---------------------------------------------------- streams are accepted

  lemma {:induction false} VersionsClimb(stream: seq<SprintEvent>, row: Sprint, i: nat, j: nat)
    requires SprintStream(stream, row) && i < j < |stream|
    ensures stream[i].sprint.version < stream[j].sprint.version
    decreases j
  {
    assert SprintStep(stream[j-1].sprint, stream[j]);
    if i < j - 1 { VersionsClimb(stream, row, i, j - 1); }
  }

  lemma {:induction false} DecisionVersionsClimb(stream: seq<DecisionEvent>, row: Decision, i: nat, j: nat)
    requires DecisionStream(stream, row) && i < j < |stream|
    ensures stream[i].decision.version < stream[j].decision.version
    decreases j
  {
    assert DecisionStep(stream[j-1].decision, stream[j]);
    if i < j - 1 { DecisionVersionsClimb(stream, row, i, j - 1); }
  }

  /** Sorting a list that already climbs changes nothing. */
  lemma SortKeeps<T(!new)>(less: (T, T) -> bool, s: seq<T>)
    requires WeakOrder(less) && forall i, j :: 0 <= i < j < |s| ==> less(s[i], s[j])
    ensures Sort(less, s) == s
  {
    SortPermutes(less, s);
    SortSorts(less, s);
    assert Sorted(less, s) by {
      forall i, j | 0 <= i < j < |s| ensures !less(s[j], s[i]) { assert less(s[i], s[j]); }
    }
    SortedUnique(less, s, Sort(less, s));
  }

  lemma SprintsKeptAccepted(rows: map<string, Sprint>, log: seq<SprintEvent>)
    requires SprintsKept(rows, log)
    ensures SprintsAccepted(log, rows)
  {
    forall id | id in rows ensures SprintStream(SprintEvents(log, id), rows[id]) {
      assert SprintFits(log)(id, rows[id]);
      var stream := Filter(SprintOf(id), log);
      forall i, j | 0 <= i < j < |stream| ensures SprintEarlier(stream[i], stream[j]) { VersionsClimb(stream, rows[id], i, j); }
      SortKeeps(SprintEarlier, stream);
    }
  }

  lemma DecisionsKeptAccepted(rows: map<string, Decision>, log: seq<DecisionEvent>)
    requires DecisionsKept(rows, log)
    ensures DecisionsAccepted(log, rows)
  {
    forall id | id in rows ensures DecisionStream(DecisionEvents(log, id), rows[id]) {
      assert DecisionFits(log)(id, rows[id]);
      var stream := Filter(DecisionOf(id), log);
      forall i, j | 0 <= i < j < |stream| ensures DecisionEarlier(stream[i], stream[j]) { DecisionVersionsClimb(stream, rows[id], i, j); }
      SortKeeps(DecisionEarlier, stream);
    }
  }

  // ------------------------------------------------------------------ links

  /** The Run states that go with a Sprint: nothing runs before approval, and what
      was rejected or cancelled never runs. */
  predicate StateFits(status: SprintStatus, state: Delivery.RunState) {
    match status
    case Proposed => state == Delivery.Draft
    case AwaitingApproval => state == Delivery.AwaitingApproval
    case Approved =>
      && state != Delivery.Draft && state != Delivery.AwaitingApproval
      && state != Delivery.Cancelling && state != Delivery.Cancelled
    case Rejected => state == Delivery.Cancelling || state == Delivery.Cancelled
    case Cancelling => state == Delivery.Cancelling || state == Delivery.Cancelled
  }

  /** A Run carries out its Sprint. */
  predicate RunFollows(s: Sprint, r: RunRow) { r.runId == s.runId && r.objective == s.objective && StateFits(s.status, r.state) }

  ghost predicate RunsKept(sprints: map<string, Sprint>, runs: map<string, RunRow>) {
    && (forall s :: s in sprints ==> sprints[s].runId in runs && RunFollows(sprints[s], runs[sprints[s].runId]))
    && (forall s, t :: s in sprints && t in sprints && sprints[s].runId == sprints[t].runId ==> s == t)
  }

  /** A decision belongs to its Sprint's Run and shows in its status; while pending,
      the Sprint names it and is no younger. */
  predicate DecisionLinked(sprints: map<string, Sprint>, d: string, row: Decision) {
    && row.sprintId in sprints && sprints[row.sprintId].runId == row.runId
    && (row.status == Pending ==> sprints[row.sprintId].pending == Some(d) && sprints[row.sprintId].updated <= row.updated)
    && DecisionShows(row.status, sprints[row.sprintId].status)
  }

  /** What a decision says of its Sprint. */
  predicate DecisionShows(d: DecisionStatus, s: SprintStatus) {
    match d
    case Pending => s == AwaitingApproval
    case Accepted => s == Approved || s == Cancelling
    case Declined => s == Rejected
  }

  /** The decision a Sprint names is pending and its own. */
  predicate SprintLinked(decisions: map<string, Decision>, s: string, row: Sprint) {
    row.pending.Some? ==>
      row.pending.value in decisions && decisions[row.pending.value].status == Pending && decisions[row.pending.value].sprintId == s
  }

  ghost predicate Linked(sprints: map<string, Sprint>, decisions: map<string, Decision>) {
    && (forall d :: d in decisions ==> DecisionLinked(sprints, d, decisions[d]))
    && (forall s :: s in sprints ==> SprintLinked(decisions, s, sprints[s]))
  }

  /** What the checker asks of the links, and more. */
  lemma LinkedAccepted(sprints: map<string, Sprint>, decisions: map<string, Decision>)
    requires Linked(sprints, decisions) && forall d :: d in decisions ==> decisions[d].decisionId == d
    ensures LinksAccepted(sprints, decisions)
  {
    assert forall d :: d in decisions ==> DecisionLinked(sprints, d, decisions[d]);
    forall s | s in sprints && sprints[s].pending.Some? ensures exists d :: PendingFor(decisions, s, d) {
      assert SprintLinked(decisions, s, sprints[s]);
      assert PendingFor(decisions, s, sprints[s].pending.value);
    }
  }

  lemma PlanLinks(sprints: map<string, Sprint>, decisions: map<string, Decision>, id: string, sprint: Sprint)
    requires Linked(sprints, decisions) && id !in sprints && sprint.pending.None?
    ensures Linked(sprints[id := sprint], decisions)
  {
    forall d | d in decisions ensures DecisionLinked(sprints[id := sprint], d, decisions[d]) {
      assert DecisionLinked(sprints, d, decisions[d]);
    }
    forall s | s in sprints ensures SprintLinked(decisions, s, sprints[s]) {}
  }

  lemma SubmitLinks(sprints: map<string, Sprint>, decisions: map<string, Decision>, id: string, sprint: Sprint, decision: Decision)
    requires Linked(sprints, decisions) && id in sprints && sprints[id].pending.None? && sprints[id].status == Proposed
    requires sprint.status == AwaitingApproval && decision.decisionId !in decisions && decision.sprintId == id && decision.status == Pending
    requires decision.runId == sprint.runId == sprints[id].runId && sprint.pending == Some(decision.decisionId)
    requires sprint.updated <= decision.updated
    ensures Linked(sprints[id := sprint], decisions[decision.decisionId := decision])
  {
    var ss, ds := sprints[id := sprint], decisions[decision.decisionId := decision];
    forall d | d in ds ensures DecisionLinked(ss, d, ds[d]) {
      if d in decisions { assert DecisionLinked(sprints, d, decisions[d]); }
    }
    forall s | s in ss ensures SprintLinked(ds, s, ss[s]) {
      if s != id { assert SprintLinked(decisions, s, sprints[s]); }
    }
  }

  lemma ResolveLinks(sprints: map<string, Sprint>, decisions: map<string, Decision>, d: string, sprint: Sprint, decision: Decision)
    requires Linked(sprints, decisions) && d in decisions && decisions[d].status == Pending
    requires decision.sprintId == decisions[d].sprintId && decision.runId == decisions[d].runId && decision.status != Pending
    requires sprint.pending.None? && sprint.runId == decision.runId && DecisionShows(decision.status, sprint.status)
    ensures Linked(sprints[decision.sprintId := sprint], decisions[d := decision])
  {
    var id := decision.sprintId;
    var ss, ds := sprints[id := sprint], decisions[d := decision];
    assert DecisionLinked(sprints, d, decisions[d]);
    forall x | x in ds ensures DecisionLinked(ss, x, ds[x]) {
      if x != d { assert DecisionLinked(sprints, x, decisions[x]); }
    }
    forall s | s in ss ensures SprintLinked(ds, s, ss[s]) {
      if s != id { assert SprintLinked(decisions, s, sprints[s]); }
    }
  }

  lemma CancelLinks(sprints: map<string, Sprint>, decisions: map<string, Decision>, id: string, sprint: Sprint)
    requires Linked(sprints, decisions) && id in sprints && sprints[id].pending.None? && sprint.pending.None?
    requires sprint.runId == sprints[id].runId && sprint.status == Cancelling
    requires sprints[id].status == Proposed || sprints[id].status == Approved
    ensures Linked(sprints[id := sprint], decisions)
  {
    var ss := sprints[id := sprint];
    forall d | d in decisions ensures DecisionLinked(ss, d, decisions[d]) { assert DecisionLinked(sprints, d, decisions[d]); }
    forall s | s in ss ensures SprintLinked(decisions, s, ss[s]) {
      if s != id { assert SprintLinked(decisions, s, sprints[s]); }
    }
  }

  // -------------------------------------------------------- whole commands

  /** The four things a command must keep, each behind its own name. */
  ghost predicate Governed(sprints: map<string, Sprint>, decisions: map<string, Decision>, runs: map<string, RunRow>,
                           sprintLog: seq<SprintEvent>, decisionLog: seq<DecisionEvent>) {
    && SprintsKept(sprints, sprintLog) && DecisionsKept(decisions, decisionLog)
    && Linked(sprints, decisions) && RunsKept(sprints, runs)
  }

  /** `Governed`, which a proof unfolds only where it says so by mentioning `Open`. */
  ghost predicate Governance(sprints: map<string, Sprint>, decisions: map<string, Decision>, runs: map<string, RunRow>,
                             sprintLog: seq<SprintEvent>, decisionLog: seq<DecisionEvent>) {
    forall k: int {:trigger Open(k)} :: Open(k) ==> Governed(sprints, decisions, runs, sprintLog, decisionLog)
  }

  lemma RowValid(rows: map<string, Sprint>, log: seq<SprintEvent>, id: string)
    requires SprintsKept(rows, log) && id in rows
    ensures ValidSprint(rows[id]) && rows[id].sprintId == id
  {
    assert SprintFits(log)(id, rows[id]);
  }

  lemma DecisionValid(rows: map<string, Decision>, log: seq<DecisionEvent>, id: string)
    requires DecisionsKept(rows, log) && id in rows
    ensures ValidDecision(rows[id]) && rows[id].decisionId == id
  {
    assert DecisionFits(log)(id, rows[id]);
  }

  lemma PlanRuns(sprints: map<string, Sprint>, runs: map<string, RunRow>, sprint: Sprint, run: RunRow)
    requires RunsKept(sprints, runs) && sprint.runId !in runs && sprint.sprintId !in sprints && RunFollows(sprint, run)
    ensures RunsKept(sprints[sprint.sprintId := sprint], runs[sprint.runId := run])
  {}

  lemma SameRuns(sprints: map<string, Sprint>, runs: map<string, RunRow>, sprint: Sprint, run: RunRow)
    requires RunsKept(sprints, runs) && sprint.sprintId in sprints && sprint.runId == sprints[sprint.sprintId].runId
    requires RunFollows(sprint, run)
    ensures RunsKept(sprints[sprint.sprintId := sprint], runs[sprint.runId := run])
  {}

  lemma PlanKeeps(sprints: map<string, Sprint>, decisions: map<string, Decision>, runs: map<string, RunRow>,
                  sprintLog: seq<SprintEvent>, decisionLog: seq<DecisionEvent>, sprint: Sprint, run: RunRow)
    requires Governance(sprints, decisions, runs, sprintLog, decisionLog)
    requires sprint.sprintId !in sprints && sprint.runId !in runs && ValidSprint(sprint) && sprint.pending.None?
    requires SprintBaseline(SprintEvent(Planned, false, sprint)) && RunFollows(sprint, run)
    ensures Governance(sprints[sprint.sprintId := sprint], decisions, runs[sprint.runId := run],
                     sprintLog + [SprintEvent(Planned, false, sprint)], decisionLog)
  {
    assert Open(0);
    AddSprint(sprints, sprintLog, SprintEvent(Planned, false, sprint));
    PlanLinks(sprints, decisions, sprint.sprintId, sprint);
    PlanRuns(sprints, runs, sprint, run);
  }

  /** A proposed Sprint moves to awaiting approval together with its fresh decision. */
  ghost predicate Submits(sprints: map<string, Sprint>, decisions: map<string, Decision>, sprint: Sprint, decision: Decision) {
    && sprint.sprintId in sprints && decision.decisionId !in decisions && ValidSprint(sprint)
    && sprints[sprint.sprintId].pending.None?
    && SprintStep(sprints[sprint.sprintId], SprintEvent(Submitted, false, sprint))
    && sprint.pending == Some(decision.decisionId) && ValidDecision(decision)
    && DecisionBaseline(DecisionEvent(Requested, decision))
    && decision.sprintId == sprint.sprintId && decision.runId == sprint.runId && sprint.updated == decision.updated
  }

  ghost predicate Submission(sprints: map<string, Sprint>, decisions: map<string, Decision>, sprint: Sprint, decision: Decision) {
    forall k: int {:trigger Open(k)} :: Open(k) ==> Submits(sprints, decisions, sprint, decision)
  }

  lemma SubmitGoverned(sprints: map<string, Sprint>, decisions: map<string, Decision>, runs: map<string, RunRow>,
                    sprintLog: seq<SprintEvent>, decisionLog: seq<DecisionEvent>, sprint: Sprint, decision: Decision, run: RunRow)
    requires Governed(sprints, decisions, runs, sprintLog, decisionLog) && Submits(sprints, decisions, sprint, decision) && RunFollows(sprint, run)
    ensures Governed(sprints[sprint.sprintId := sprint], decisions[decision.decisionId := decision], runs[sprint.runId := run],
                     sprintLog + [SprintEvent(Submitted, false, sprint)], decisionLog + [DecisionEvent(Requested, decision)])
  {
    AddSprint(sprints, sprintLog, SprintEvent(Submitted, false, sprint));
    AddDecision(decisions, decisionLog, DecisionEvent(Requested, decision));
    SubmitLinks(sprints, decisions, sprint.sprintId, sprint, decision);
    SameRuns(sprints, runs, sprint, run);
  }

  lemma SubmitKeeps(sprints: map<string, Sprint>, decisions: map<string, Decision>, runs: map<string, RunRow>,
                    sprintLog: seq<SprintEvent>, decisionLog: seq<DecisionEvent>, sprint: Sprint, decision: Decision, run: RunRow)
    requires Governance(sprints, decisions, runs, sprintLog, decisionLog) && Submission(sprints, decisions, sprint, decision) && RunFollows(sprint, run)
    ensures Governance(sprints[sprint.sprintId := sprint], decisions[decision.decisionId := decision], runs[sprint.runId := run],
                     sprintLog + [SprintEvent(Submitted, false, sprint)], decisionLog + [DecisionEvent(Requested, decision)])
  {
    assert Open(0);
    SubmitGoverned(sprints, decisions, runs, sprintLog, decisionLog, sprint, decision, run);
  }

  function ResolutionEvent(decision: Decision): DecisionEvent {
    DecisionEvent(if decision.status == Accepted then DecisionApproved else DecisionRejected, decision)
  }

  /** A pending decision is resolved together with its Sprint. */
  ghost predicate Resolves(sprints: map<string, Sprint>, decisions: map<string, Decision>, sprint: Sprint, decision: Decision) {
    && sprint.sprintId in sprints && decision.decisionId in decisions && ValidSprint(sprint) && sprint.pending.None?
    && decisions[decision.decisionId].status == Pending
    && SprintStep(sprints[sprint.sprintId], SprintEvent(DecisionResolved, false, sprint))
    && ValidDecision(decision) && DecisionStep(decisions[decision.decisionId], ResolutionEvent(decision))
    && decision.sprintId == sprint.sprintId && decision.runId == sprint.runId && DecisionShows(decision.status, sprint.status)
  }

  ghost predicate Resolution(sprints: map<string, Sprint>, decisions: map<string, Decision>, sprint: Sprint, decision: Decision) {
    forall k: int {:trigger Open(k)} :: Open(k) ==> Resolves(sprints, decisions, sprint, decision)
  }

  lemma ResolveGoverned(sprints: map<string, Sprint>, decisions: map<string, Decision>, runs: map<string, RunRow>,
                     sprintLog: seq<SprintEvent>, decisionLog: seq<DecisionEvent>, sprint: Sprint, decision: Decision, run: RunRow)
    requires Governed(sprints, decisions, runs, sprintLog, decisionLog) && Resolves(sprints, decisions, sprint, decision) && RunFollows(sprint, run)
    ensures Governed(sprints[sprint.sprintId := sprint], decisions[decision.decisionId := decision], runs[sprint.runId := run],
                     sprintLog + [SprintEvent(DecisionResolved, false, sprint)], decisionLog + [ResolutionEvent(decision)])
  {
    AddSprint(sprints, sprintLog, SprintEvent(DecisionResolved, false, sprint));
    AddDecision(decisions, decisionLog, ResolutionEvent(decision));
    ResolveLinks(sprints, decisions, decision.decisionId, sprint, decision);
    SameRuns(sprints, runs, sprint, run);
  }

  lemma ResolveKeeps(sprints: map<string, Sprint>, decisions: map<string, Decision>, runs: map<string, RunRow>,
                     sprintLog: seq<SprintEvent>, decisionLog: seq<DecisionEvent>, sprint: Sprint, decision: Decision, run: RunRow)
    requires Governance(sprints, decisions, runs, sprintLog, decisionLog) && Resolution(sprints, decisions, sprint, decision) && RunFollows(sprint, run)
    ensures Governance(sprints[sprint.sprintId := sprint], decisions[decision.decisionId := decision], runs[sprint.runId := run],
                     sprintLog + [SprintEvent(DecisionResolved, false, sprint)], decisionLog + [ResolutionEvent(decision)])
  {
    assert Open(0);
    ResolveGoverned(sprints, decisions, runs, sprintLog, decisionLog, sprint, decision, run);
  }

  ghost predicate Cancels(sprints: map<string, Sprint>, sprint: Sprint) {
    && sprint.sprintId in sprints && ValidSprint(sprint) && sprints[sprint.sprintId].pending.None? && sprint.pending.None?
    && SprintStep(sprints[sprint.sprintId], SprintEvent(CancellationRequested, false, sprint))
  }

  ghost predicate Cancellation(sprints: map<string, Sprint>, sprint: Sprint) {
    forall k: int {:trigger Open(k)} :: Open(k) ==> Cancels(sprints, sprint)
  }

  lemma CancelKeeps(sprints: map<string, Sprint>, decisions: map<string, Decision>, runs: map<string, RunRow>,
                    sprintLog: seq<SprintEvent>, decisionLog: seq<DecisionEvent>, sprint: Sprint, run: RunRow)
    requires Governance(sprints, decisions, runs, sprintLog, decisionLog) && Cancellation(sprints, sprint) && RunFollows(sprint, run)
    ensures Governance(sprints[sprint.sprintId := sprint], decisions, runs[sprint.runId := run],
                     sprintLog + [SprintEvent(CancellationRequested, false, sprint)], decisionLog)
  {
    assert Open(0);
    AddSprint(sprints, sprintLog, SprintEvent(CancellationRequested, false, sprint));
    CancelLinks(sprints, decisions, sprint.sprintId, sprint);
    SameRuns(sprints, runs, sprint, run);
  }

  lemma RunMoveKeeps(sprints: map<string, Sprint>, decisions: map<string, Decision>, runs: map<string, RunRow>,
                     sprintLog: seq<SprintEvent>, decisionLog: seq<DecisionEvent>, id: string, run: RunRow)
    requires Governance(sprints, decisions, runs, sprintLog, decisionLog)
    requires forall s :: s in sprints && sprints[s].runId == id ==> RunFollows(sprints[s], run)
    ensures Governance(sprints, decisions, runs[id := run], sprintLog, decisionLog)
  {
    assert Open(0);
  }

  /** The states of a Run whose Sprint stands stay where that Sprint allows. */
  lemma StateMoves(s: Sprint, from: Delivery.RunState, to: Delivery.RunState)
    requires StateFits(s.status, from) && Delivery.Allowed(from, to) && s.status != AwaitingApproval
    requires s.status != Proposed && (s.status == Approved ==> to != Delivery.Cancelling)
    ensures StateFits(s.status, to)
  {}

  lemma GovernedRun(sprints: map<string, Sprint>, decisions: map<string, Decision>, runs: map<string, RunRow>,
                    sprintLog: seq<SprintEvent>, decisionLog: seq<DecisionEvent>, id: string)
    requires Governance(sprints, decisions, runs, sprintLog, decisionLog) && id in sprints
    ensures sprints[id].runId in runs && RunFollows(sprints[id], runs[sprints[id].runId])
  {
    assert Open(0);
  }

  lemma GovernedSprint(sprints: map<string, Sprint>, decisions: map<string, Decision>, runs: map<string, RunRow>,
                       sprintLog: seq<SprintEvent>, decisionLog: seq<DecisionEvent>, id: string)
    requires Governance(sprints, decisions, runs, sprintLog, decisionLog) && id in sprints
    ensures ValidSprint(sprints[id]) && sprints[id].sprintId == id && sprints[id].runId in runs
  {
    assert Open(0);
    RowValid(sprints, sprintLog, id);
  }

  lemma GovernedDecision(sprints: map<string, Sprint>, decisions: map<string, Decision>, runs: map<string, RunRow>,
                         sprintLog: seq<SprintEvent>, decisionLog: seq<DecisionEvent>, id: string)
    requires Governance(sprints, decisions, runs, sprintLog, decisionLog) && id in decisions
    ensures ValidDecision(decisions[id]) && decisions[id].decisionId == id
    ensures decisions[id].sprintId in sprints && sprints[decisions[id].sprintId].runId == decisions[id].runId
    ensures decisions[id].status == Pending ==> sprints[decisions[id].sprintId].pending == Some(id)
    ensures decisions[id].status == Pending ==> sprints[decisions[id].sprintId].updated <= decisions[id].updated
    ensures DecisionShows(decisions[id].status, sprints[decisions[id].sprintId].status)
  {
    assert Open(0);
    DecisionValid(decisions, decisionLog, id);
    assert DecisionLinked(sprints, id, decisions[id]);
  }

  // ----------------------------------------------------------- new snapshots

  function PlannedSprint(id: string, sequence: int, title: string, objective: string, runId: string, now: int): Sprint {
    Sprint(id, sequence, title, objective, Proposed, 1, runId, None, now, now)
  }

  function PlannedRun(id: string, objective: string, now: int): RunRow {
    RunRow(id, objective, Delivery.Draft, 1, now, now)
  }

  function SubmittedSprint(before: Sprint, decisionId: string, now: int): Sprint {
    before.(status := AwaitingApproval, version := before.version + 1, updated := Max(now, before.updated), pending := Some(decisionId))
  }

  function RequestedDecision(before: Sprint, decisionId: string, riskClass: Risk, actor: string, now: int): Decision {
    Decision(decisionId, before.sprintId, before.runId, SubmitAction, riskClass, Pending, 1, actor, None, None,
      Max(now, before.updated), Max(now, before.updated), None)
  }

  lemma SubmissionFits(sprints: map<string, Sprint>, decisions: map<string, Decision>, id: string, decisionId: string,
                       riskClass: Risk, actor: string, now: int)
    requires id in sprints && sprints[id].sprintId == id && ValidSprint(sprints[id]) && sprints[id].status == Proposed
    requires decisionId !in decisions && !riskClass.OtherRisk? && 1 <= |actor| <= 160
    ensures Submission(sprints, decisions, SubmittedSprint(sprints[id], decisionId, now),
                    RequestedDecision(sprints[id], decisionId, riskClass, actor, now))
  {}

  function ResolvedDecision(before: Decision, approve: bool, reason: string, actor: string, now: int): Decision {
    var at := Max(now, before.updated);
    before.(status := if approve then Accepted else Declined, version := before.version + 1, updated := at,
            decided := Some(at), decidedBy := Some(actor), reason := Some(reason))
  }

  function ResolvedSprint(before: Sprint, decision: Decision, approve: bool, now: int): Sprint {
    before.(status := if approve then Approved else Rejected, version := before.version + 1,
            updated := Max(now, decision.updated), pending := None)
  }

  lemma ResolutionFits(sprints: map<string, Sprint>, decisions: map<string, Decision>, d: string, approve: bool,
                       reason: string, actor: string, now: int)
    requires d in decisions && decisions[d].decisionId == d && ValidDecision(decisions[d]) && decisions[d].status == Pending
    requires decisions[d].sprintId in sprints && sprints[decisions[d].sprintId].runId == decisions[d].runId
    requires var s := sprints[decisions[d].sprintId];
      s.sprintId == decisions[d].sprintId && ValidSprint(s) && s.pending == Some(d) && s.updated <= Max(now, decisions[d].updated)
    requires 1 <= |actor| <= 160 && 3 <= |reason| <= 2000
    ensures Resolution(sprints, decisions, ResolvedSprint(sprints[decisions[d].sprintId], decisions[d], approve, now),
                     ResolvedDecision(decisions[d], approve, reason, actor, now))
  {}

  function CancellingSprint(before: Sprint, run: RunRow): Sprint {
    before.(status := Cancelling, version := before.version + 1, updated := run.updated)
  }

  /** A Sprint cancelled no earlier than it was last touched. */
  lemma CancellationFits(sprints: map<string, Sprint>, id: string, run: RunRow)
    requires id in sprints && sprints[id].sprintId == id && ValidSprint(sprints[id]) && sprints[id].pending.None?
    requires (sprints[id].status == Proposed || sprints[id].status == Approved) && sprints[id].updated <= run.updated
    ensures Cancellation(sprints, CancellingSprint(sprints[id], run))
  {}

  lemma GovernanceReplays(sprints: map<string, Sprint>, decisions: map<string, Decision>, runs: map<string, RunRow>,
                          sprintLog: seq<SprintEvent>, decisionLog: seq<DecisionEvent>)
    requires Governance(sprints, decisions, runs, sprintLog, decisionLog)
    ensures SprintsAccepted(sprintLog, sprints) && DecisionsAccepted(decisionLog, decisions) && LinksAccepted(sprints, decisions)
  {
    assert Open(0);
    SprintsKeptAccepted(sprints, sprintLog);
    DecisionsKeptAccepted(decisions, decisionLog);
    forall d | d in decisions ensures decisions[d].decisionId == d { DecisionValid(decisions, decisionLog, d); }
    LinkedAccepted(sprints, decisions);
  }

  /** A Sprint awaits approval exactly when one decision is pending for it, and
      then exactly one is, naming the same Run. */
  lemma AwaitingExactly(sprints: map<string, Sprint>, decisions: map<string, Decision>, runs: map<string, RunRow>,
                        sprintLog: seq<SprintEvent>, decisionLog: seq<DecisionEvent>, s: string)
    requires Governance(sprints, decisions, runs, sprintLog, decisionLog) && s in sprints
    ensures sprints[s].status == AwaitingApproval <==> exists d :: OnlyPending(decisions, s, d) && decisions[d].runId == sprints[s].runId
  {
    assert Open(0);
    RowValid(sprints, sprintLog, s);
    assert SprintLinked(decisions, s, sprints[s]);
    if sprints[s].status == AwaitingApproval {
      var d := sprints[s].pending.value;
      assert DecisionLinked(sprints, d, decisions[d]);
      forall e | PendingFor(decisions, s, e) ensures e == d { assert DecisionLinked(sprints, e, decisions[e]); }
      assert OnlyPending(decisions, s, d);
    }
    if d :| OnlyPending(decisions, s, d) { assert DecisionLinked(sprints, d, decisions[d]); }
  }

  ghost predicate OnlyPending(decisions: map<string, Decision>, s: string, d: string) {
    PendingFor(decisions, s, d) && forall e :: PendingFor(decisions, s, e) ==> e == d
  }

  /** The checker refuses a stream that steps back in time. */
  lemma BackwardRefused(log: seq<SprintEvent>, rows: map<string, Sprint>, i: nat, j: nat)
    requires i < j < |log| && log[i].sprint.sprintId == log[j].sprint.sprintId
    requires log[i].sprint.version < log[j].sprint.version && log[j].sprint.updated < log[i].sprint.updated
    ensures !SprintsAccepted(log, rows)
  {
    if SprintsAccepted(log, rows) {
      var id := log[i].sprint.sprintId;
      assert log[i] in log;
      var stream := SprintEvents(log, id);
      var kept := Filter(SprintOf(id), log);
      FilterMember(SprintOf(id), log, log[i]);
      FilterMember(SprintOf(id), log, log[j]);
      SortPermutes(SprintEarlier, kept);
      MemberPermutes(stream, kept, log[i]);
      MemberPermutes(stream, kept, log[j]);
      NoStepBack(stream, rows[id], log[i], log[j]);
    }
  }

  lemma NoStepBack(stream: seq<SprintEvent>, row: Sprint, x: SprintEvent, y: SprintEvent)
    requires SprintStream(stream, row) && x in stream && y in stream && x.sprint.version < y.sprint.version
    ensures x.sprint.updated <= y.sprint.updated
  {
    var a :| 0 <= a < |stream| && stream[a] == x;
    var b :| 0 <= b < |stream| && stream[b] == y;
    if a < b { StreamInTime(stream, row, a, b); } else if b < a { VersionsClimb(stream, row, b, a); }
  }

  lemma {:induction false} StreamInTime(stream: seq<SprintEvent>, row: Sprint, i: nat, j: nat)
    requires SprintStream(stream, row) && i < j < |stream|
    ensures stream[i].sprint.updated <= stream[j].sprint.updated
    decreases j
  {
    assert SprintStep(stream[j-1].sprint, stream[j]);
    if i < j - 1 { StreamInTime(stream, row, i, j - 1); }
  }

  /** Cancelling a Sprint leaves an acceptable stream exactly when the Run's new
      timestamp is not older than the Sprint. */
  lemma CancellationExactly(sprints: map<string, Sprint>, log: seq<SprintEvent>, id: string, run: RunRow)
    requires SprintsKept(sprints, log) && id in sprints && (sprints[id].status == Proposed || sprints[id].status == Approved)
    ensures var sprint := CancellingSprint(sprints[id], run);
      SprintsAccepted(log + [SprintEvent(CancellationRequested, false, sprint)], sprints[id := sprint])
      <==> sprints[id].updated <= run.updated
  {
    var sprint := CancellingSprint(sprints[id], run);
    var e := SprintEvent(CancellationRequested, false, sprint);
    RowValid(sprints, log, id);
    if sprints[id].updated <= run.updated {
      AddSprint(sprints, log, e);
      SprintsKeptAccepted(sprints[id := sprint], log + [e]);
    } else {
      var i := LastEvent(sprints, log, id);
      assert (log + [e])[i] == log[i] && (log + [e])[|log|] == e;
      BackwardRefused(log + [e], sprints[id := sprint], i, |log|);
    }
  }

  /** The same, from a governed state. */
  lemma GovernedCancellation(sprints: map<string, Sprint>, decisions: map<string, Decision>, runs: map<string, RunRow>,
                             sprintLog: seq<SprintEvent>, decisionLog: seq<DecisionEvent>, id: string, run: RunRow)
    requires Governance(sprints, decisions, runs, sprintLog, decisionLog)
    requires id in sprints && (sprints[id].status == Proposed || sprints[id].status == Approved)
    ensures var sprint := CancellingSprint(sprints[id], run);
      SprintsAccepted(sprintLog + [SprintEvent(CancellationRequested, false, sprint)], sprints[id := sprint])
      <==> sprints[id].updated <= run.updated
  {
    assert Open(0);
    CancellationExactly(sprints, sprintLog, id, run);
  }

  lemma OneOwner(sprints: map<string, Sprint>, decisions: map<string, Decision>, runs: map<string, RunRow>,
                 sprintLog: seq<SprintEvent>, decisionLog: seq<DecisionEvent>, s: string, t: string)
    requires Governance(sprints, decisions, runs, sprintLog, decisionLog)
    requires s in sprints && t in sprints && sprints[s].runId == sprints[t].runId
    ensures s == t
  {
    assert Open(0);
  }

  lemma LastEvent(sprints: map<string, Sprint>, log: seq<SprintEvent>, id: string) returns (i: nat)
    requires SprintsKept(sprints, log) && id in sprints
    ensures i < |log| && log[i].sprint == sprints[id] && sprints[id].sprintId == id
  {
    assert SprintFits(log)(id, sprints[id]);
    var stream := Filter(SprintOf(id), log);
    var last := stream[|stream| - 1];
    FilterMember(SprintOf(id), log, last);
    i :| 0 <= i < |log| && log[i] == last;
  }

  /** Resolving a pending decision of a governed state is a resolution. */
  lemma ResolutionReady(sprints: map<string, Sprint>, decisions: map<string, Decision>, runs: map<string, RunRow>,
                        sprintLog: seq<SprintEvent>, decisionLog: seq<DecisionEvent>, d: string, approve: bool,
                        reason: string, actor: string, now: int)
    requires Governance(sprints, decisions, runs, sprintLog, decisionLog) && d in decisions && decisions[d].status == Pending
    requires 1 <= |actor| <= 160 && 3 <= |reason| <= 2000
    ensures decisions[d].decisionId == d && decisions[d].sprintId in sprints
    ensures var s := sprints[decisions[d].sprintId]; s.sprintId == decisions[d].sprintId && s.runId == decisions[d].runId
    ensures Resolution(sprints, decisions, ResolvedSprint(sprints[decisions[d].sprintId], decisions[d], approve, now),
                       ResolvedDecision(decisions[d], approve, reason, actor, now))
  {
    GovernedDecision(sprints, decisions, runs, sprintLog, decisionLog, d);
    GovernedSprint(sprints, decisions, runs, sprintLog, decisionLog, decisions[d].sprintId);
    ResolutionFits(sprints, decisions, d, approve, reason, actor, now);
  }
}
