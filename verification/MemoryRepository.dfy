/** The in-memory control repository: every command keeps the governed state
    replayable and answers each idempotency key exactly once. */
module Repository {
  import opened Ordering
  import opened Seqs
  import opened Cards
  import opened Replay
  import opened Control
  import Delivery

  /** The key of the receipt map. */
  function ReceiptKey(scope: string, key: string): string { scope + "\0" + key }

  /** `isPrivilegedResumeTransition`. */
  predicate Privileged(from: Delivery.RunState, to: Delivery.RunState) {
    (from == Delivery.FailedRetryable || from == Delivery.AwaitingDecision) && to == Delivery.Queued
  }

  /** What the owning Sprint allows. */
  predicate Permits(s: Sprint, to: Delivery.RunState) {
    s.status != AwaitingApproval && s.pending.None? && (s.status == Proposed ==> to == Delivery.Cancelling)
  }

  /** `resumeTarget`: the states a Run resumes from. */
  predicate Waiting(s: Delivery.RunState) { s == Delivery.FailedRetryable || s == Delivery.AwaitingDecision }

  predicate SameOwner(s: Sprint, d: Decision) { s.sprintId == d.sprintId && s.runId == d.runId }

  class MemoryRepository {
    var sprints: map<string, Sprint>
    var decisions: map<string, Decision>
    var runs: map<string, RunRow>
    var receipts: map<string, Receipt>
    var audits: seq<Audit>
    var nextSequence: int
    /** The snapshots stored so far, as the durable store would log them. */
    ghost var sprintLog: seq<SprintEvent>
    ghost var decisionLog: seq<DecisionEvent>

    ghost predicate Valid()
      reads this`sprints, this`decisions, this`runs, this`nextSequence, this`sprintLog, this`decisionLog
    {
      Governance(sprints, decisions, runs, sprintLog, decisionLog) && nextSequence >= 1
    }

    /** Nothing stored is younger than `t`. */
    ghost predicate Timely(t: int)
      reads this`sprints, this`runs, this`decisions
    {
      && (forall s :: s in sprints ==> sprints[s].updated <= t)
      && (forall d :: d in decisions ==> decisions[d].updated <= t)
      && (forall r :: r in runs ==> runs[r].updated <= t)
    }

    lemma TimelyLater(now: int)
      ensures forall t :: Timely(t) && t <= now ==> Timely(now)
    {}

    constructor ()
      ensures Valid() && sprints == map[] && decisions == map[] && runs == map[] && receipts == map[] && audits == []
      ensures forall t :: Timely(t)
    {
      sprints, decisions, runs, receipts, audits, nextSequence := map[], map[], map[], map[], [], 1;
      sprintLog, decisionLog := [], [];
    }

    // ------------------------------------------------------------- receipts

    twostate predicate OnlyAudits()
      reads this
    {
      && sprints == old(sprints) && decisions == old(decisions) && runs == old(runs) && receipts == old(receipts)
      && nextSequence == old(nextSequence) && sprintLog == old(sprintLog) && decisionLog == old(decisionLog)
    }

    twostate predicate Nothing()
      reads this
    {
      OnlyAudits() && audits == old(audits)
    }

    /** Exactly once: a key already answered gives the first answer again and
        changes only the audit list, or fails if it now asks something else; a new
        key that succeeds is recorded with its answer, and a failure leaves no trace. */
    twostate predicate Once(scope: string, m: Metadata, arguments: Arguments, new r: Outcome<Response>)
      reads this
    {
      var k, request := ReceiptKey(scope, m.key), RequestOf(m, arguments);
      if !ValidMetadata(m) then r == Err && Nothing()
      else if k in old(receipts) then
        if old(receipts)[k].request == request then r == Ok(old(receipts)[k].response) && OnlyAudits()
        else r == Err && Nothing()
      else if r.Ok? then receipts == old(receipts)[k := Receipt(request, r.value)]
      else Nothing()
    }

    /** Every success leaves one audit entry if it names a tool, marked as a replay
        when an earlier answer was repeated; a failure leaves none. */
    twostate predicate Audited(scope: string, m: Metadata, now: int, new r: Outcome<Response>)
      reads this
    {
      audits == old(audits) + if r.Ok? && m.tool != ""
        then [Audit(m.tool, m.actorId, m.key, scope, ReceiptKey(scope, m.key) in old(receipts), now)] else []
    }

    /** A valid command whose key has no answer yet. */
    predicate Unanswered(scope: string, m: Metadata)
      reads this`receipts
    {
      ValidMetadata(m) && ReceiptKey(scope, m.key) !in receipts
    }

    /** `replayLocked`: a recorded answer, a clash, or nothing. */
    method Replay(scope: string, m: Metadata, arguments: Arguments) returns (found: bool, answer: Outcome<Response>)
      ensures found <==> ReceiptKey(scope, m.key) in receipts
      ensures found ==> answer == (var k := ReceiptKey(scope, m.key);
        if receipts[k].request == RequestOf(m, arguments) then Ok(receipts[k].response) else Err)
    {
      var k := ReceiptKey(scope, m.key);
      found, answer := k in receipts, Err;
      if found && receipts[k].request == RequestOf(m, arguments) { answer := Ok(receipts[k].response); }
    }

    method AppendAudit(m: Metadata, scope: string, replay: bool, now: int)
      modifies this`audits
      ensures audits == old(audits) + if m.tool == "" then [] else [Audit(m.tool, m.actorId, m.key, scope, replay, now)]
    {
      if m.tool != "" { audits := audits + [Audit(m.tool, m.actorId, m.key, scope, replay, now)]; } else { assert audits + [] == audits; }
    }

    /** Metadata and receipt come first in every command: `todo` says the work is still to be done. */
    method Admit(scope: string, m: Metadata, arguments: Arguments, now: int) returns (todo: bool, r: Outcome<Response>)
      modifies this`audits
      ensures todo <==> ValidMetadata(m) && ReceiptKey(scope, m.key) !in receipts
      ensures todo ==> audits == old(audits) && r == Err
      ensures !todo ==> Once(scope, m, arguments, r) && Audited(scope, m, now, r)
    {
      todo, r := false, Err;
      if ValidMetadata(m) {
        var found, answer := Replay(scope, m, arguments);
        if found {
          r := answer;
          if r.Ok? { AppendAudit(m, scope, true, now); }
        } else {
          todo := true;
        }
      }
    }

    method Record(scope: string, m: Metadata, arguments: Arguments, response: Response, now: int)
      modifies this`receipts, this`audits
      ensures receipts == old(receipts)[ReceiptKey(scope, m.key) := Receipt(RequestOf(m, arguments), response)]
      ensures audits == old(audits) + if m.tool == "" then [] else [Audit(m.tool, m.actorId, m.key, scope, false, now)]
    {
      receipts := receipts[ReceiptKey(scope, m.key) := Receipt(RequestOf(m, arguments), response)];
      AppendAudit(m, scope, false, now);
    }

    // ---------------------------------------------------------------- plan

    method StorePlan(sprint: Sprint, run: RunRow)
      modifies this`sprints, this`runs, this`nextSequence, this`sprintLog
      ensures sprints == old(sprints)[sprint.sprintId := sprint] && runs == old(runs)[sprint.runId := run]
      ensures nextSequence == old(nextSequence) + 1
      ensures old(Valid() && Plans(sprint)) && RunFollows(sprint, run) ==> Valid()
    {
      ghost var fits := Valid() && Plans(sprint) && RunFollows(sprint, run);
      var ss, rs := sprints[sprint.sprintId := sprint], runs[sprint.runId := run];
      ghost var sl := sprintLog + [SprintEvent(Planned, false, sprint)];
      assert fits ==> Governance(ss, decisions, rs, sl, decisionLog) by {
        if fits { PlanKeeps(sprints, decisions, runs, sprintLog, decisionLog, sprint, run); }
      }
      nextSequence, sprints, runs, sprintLog := nextSequence + 1, ss, rs, sl;
    }

    ghost predicate Plans(sprint: Sprint)
      reads this`sprints, this`runs
    {
      && sprint.sprintId !in sprints && sprint.runId !in runs && ValidSprint(sprint) && sprint.pending.None?
      && SprintBaseline(SprintEvent(Planned, false, sprint))
    }

    method ApplyPlan(sprintId: string, runId: string, title: string, objective: string, now: int) returns (r: Response)
      requires sprintId !in sprints && runId !in runs
      modifies this`sprints, this`runs, this`nextSequence, this`sprintLog
      ensures old(Valid()) && 1 <= |title| <= 500 && 3 <= |objective| <= 8000 ==> Valid()
      ensures forall t :: old(Timely(t)) && t <= now ==> Timely(now)
      ensures nextSequence == old(nextSequence) + 1 && r.PlanDone?
      ensures r.sprint == Sprint(sprintId, old(nextSequence), title, objective, Proposed, 1, runId, None, now, now)
      ensures r.run == RunRow(runId, objective, Delivery.Draft, 1, now, now)
      ensures sprints == old(sprints)[sprintId := r.sprint] && runs == old(runs)[runId := r.run]
    {
      var sprint, run := PlannedSprint(sprintId, nextSequence, title, objective, runId, now), PlannedRun(runId, objective, now);
      StorePlan(sprint, run);
      r := PlanDone(sprint, run);
    }

    method PlanSprint(sprintId: string, runId: string, title: string, objective: string, m: Metadata, now: int)
      returns (r: Outcome<Response>)
      modifies this
      ensures Once("plan_sprint", m, PlanArguments(title, objective), r) && Audited("plan_sprint", m, now, r)
      ensures old(Valid()) && 1 <= |title| <= 500 && 3 <= |objective| <= 8000 ==> Valid()
      ensures decisions == old(decisions)
      ensures forall t :: old(Timely(t)) && t <= now ==> Timely(now)
      ensures old(Unanswered("plan_sprint", m)) ==> (r.Ok? <==> sprintId !in old(sprints) && runId !in old(runs))
      ensures old(Unanswered("plan_sprint", m)) && r.Ok? ==>
        var sprint := Sprint(sprintId, old(nextSequence), title, objective, Proposed, 1, runId, None, now, now);
        var run := RunRow(runId, objective, Delivery.Draft, 1, now, now);
        && r.value == PlanDone(sprint, run) && nextSequence == old(nextSequence) + 1
        && sprints == old(sprints)[sprintId := sprint] && runs == old(runs)[runId := run]
    {
      var arguments := PlanArguments(title, objective);
      var todo;
      todo, r := Admit("plan_sprint", m, arguments, now);
      assert forall t :: old(Timely(t)) ==> Timely(t);
      if todo && sprintId !in sprints && runId !in runs {
        var response := ApplyPlan(sprintId, runId, title, objective, now);
        r := Ok(response);
        Record("plan_sprint", m, arguments, response, now);
      }
    }

    // -------------------------------------------------------------- submit

    method StoreSubmission(id: string, sprint: Sprint, decision: Decision, run: RunRow)
      modifies this`sprints, this`decisions, this`runs, this`sprintLog, this`decisionLog
      ensures sprints == old(sprints)[id := sprint] && runs == old(runs)[sprint.runId := run]
      ensures decisions == old(decisions)[decision.decisionId := decision]
      ensures sprint.sprintId == id && old(Valid()) && Submission(old(sprints), old(decisions), sprint, decision) && RunFollows(sprint, run) ==>
        Valid()
    {
      ghost var fits := sprint.sprintId == id && Valid() && Submission(sprints, decisions, sprint, decision) && RunFollows(sprint, run);
      var ss, ds, rs := sprints[id := sprint], decisions[decision.decisionId := decision], runs[sprint.runId := run];
      ghost var sl, dl := sprintLog + [SprintEvent(Submitted, false, sprint)], decisionLog + [DecisionEvent(Requested, decision)];
      assert fits ==> Governance(ss, ds, rs, sl, dl) by {
        if fits { SubmitKeeps(sprints, decisions, runs, sprintLog, decisionLog, sprint, decision, run); }
      }
      sprints, decisions, runs, sprintLog, decisionLog := ss, ds, rs, sl, dl;
    }

    predicate Submittable(sprintId: string, version: int)
      reads this`sprints, this`runs
    {
      && sprintId in sprints && sprints[sprintId].version == version && sprints[sprintId].status == Proposed
      && sprints[sprintId].runId in runs && Delivery.Allowed(runs[sprints[sprintId].runId].state, Delivery.AwaitingApproval)
    }

    /** What a submission leaves behind. */
    ghost predicate Handed(ss: map<string, Sprint>, ds: map<string, Decision>, rs: map<string, RunRow>, sprintId: string,
                              riskClass: Risk, decisionId: string, actor: string, early: int, now: int, r: Response)
      reads this`sprints, this`decisions, this`runs
      requires sprintId in ss && ss[sprintId].runId in rs
    {
      var before := ss[sprintId];
      var row := rs[before.runId];
      var at := if now < before.updated then before.updated else now;
      var sprint := before.(status := AwaitingApproval, version := before.version + 1, updated := at, pending := Some(decisionId));
      var decision := Decision(decisionId, before.sprintId, before.runId, SubmitAction, riskClass, Pending, 1, actor, None, None, at, at, None);
      var run := row.(state := Delivery.AwaitingApproval, version := row.version + 1, updated := if early < row.updated then row.updated else early);
      && r == SubmitDone(sprint, decision, run) && sprints == ss[sprintId := sprint]
      && decisions == ds[decisionId := decision] && runs == rs[before.runId := run]
    }

    method ApplySubmission(sprintId: string, riskClass: Risk, decisionId: string, actor: string, early: int, now: int)
      returns (r: Response)
      requires sprintId in sprints && sprints[sprintId].status == Proposed && sprints[sprintId].runId in runs
      requires Moved(runs[sprints[sprintId].runId], Delivery.AwaitingApproval, early).Ok?
      modifies this`sprints, this`decisions, this`runs, this`sprintLog, this`decisionLog
      ensures Handed(old(sprints), old(decisions), old(runs), sprintId, riskClass, decisionId, actor, early, now, r)
      ensures old(Valid()) && !riskClass.OtherRisk? && 1 <= |actor| <= 160 && decisionId !in old(decisions) ==> Valid()
      ensures forall t :: old(Timely(t)) && t <= early <= now ==> Timely(now)
    {
      var before := sprints[sprintId];
      var run := Moved(runs[before.runId], Delivery.AwaitingApproval, early).value;
      var sprint, decision := SubmittedSprint(before, decisionId, now), RequestedDecision(before, decisionId, riskClass, actor, now);
      if Valid() && !riskClass.OtherRisk? && 1 <= |actor| <= 160 && decisionId !in decisions {
        GovernedSprint(sprints, decisions, runs, sprintLog, decisionLog, sprintId);
        GovernedRun(sprints, decisions, runs, sprintLog, decisionLog, sprintId);
        SubmissionFits(sprints, decisions, sprintId, decisionId, riskClass, actor, now);
      }
      StoreSubmission(sprintId, sprint, decision, run);
      r := SubmitDone(sprint, decision, run);
    }

    /** `early` and `now` are the two clock readings of the command, in order. */
    method SubmitSprint(sprintId: string, version: int, riskClass: Risk, decisionId: string, m: Metadata, early: int, now: int)
      returns (r: Outcome<Response>)
      modifies this
      ensures Once("submit_sprint:" + sprintId, m, SubmitArguments(sprintId, version, riskClass), r) && Audited("submit_sprint:" + sprintId, m, now, r)
      ensures old(Valid()) && !riskClass.OtherRisk? && decisionId !in old(decisions) ==> Valid()
      ensures decisions.Keys <= old(decisions).Keys + {decisionId}
      ensures forall t :: old(Timely(t)) && t <= early <= now ==> Timely(now)
      ensures old(Unanswered("submit_sprint:" + sprintId, m)) ==> (r.Ok? <==> old(Submittable(sprintId, version)))
      ensures old(Unanswered("submit_sprint:" + sprintId, m)) && r.Ok? ==>
        Handed(old(sprints), old(decisions), old(runs), sprintId, riskClass, decisionId, m.actorId, early, now, r.value)
    {
      var scope, arguments := "submit_sprint:" + sprintId, SubmitArguments(sprintId, version, riskClass);
      var todo;
      todo, r := Admit(scope, m, arguments, now);
      assert forall t :: old(Timely(t)) ==> Timely(t);
      if todo && Submittable(sprintId, version) {
        var response := ApplySubmission(sprintId, riskClass, decisionId, m.actorId, early, now);
        r := Ok(response);
        Record(scope, m, arguments, response, now);
      }
    }

    // ------------------------------------------------------------- resolve

    method StoreResolution(sprint: Sprint, decision: Decision, run: RunRow)
      modifies this`sprints, this`decisions, this`runs, this`sprintLog, this`decisionLog
      ensures sprints == old(sprints)[decision.sprintId := sprint] && runs == old(runs)[decision.runId := run]
      ensures decisions == old(decisions)[decision.decisionId := decision]
      ensures SameOwner(sprint, decision) && old(Valid()) && Resolution(old(sprints), old(decisions), sprint, decision) && RunFollows(sprint, run) ==>
        Valid()
    {
      ghost var fits := SameOwner(sprint, decision) && Valid() && Resolution(sprints, decisions, sprint, decision) && RunFollows(sprint, run);
      if fits { ResolveKeeps(sprints, decisions, runs, sprintLog, decisionLog, sprint, decision, run); }
      sprints, runs := sprints[decision.sprintId := sprint], runs[decision.runId := run];
      decisions := decisions[decision.decisionId := decision];
      sprintLog := sprintLog + [SprintEvent(DecisionResolved, false, sprint)];
      decisionLog := decisionLog + [ResolutionEvent(decision)];
    }

    predicate Resolvable(decisionId: string, version: int, approve: bool)
      reads this`sprints, this`decisions, this`runs
    {
      && decisionId in decisions && decisions[decisionId].version == version && decisions[decisionId].status == Pending
      && decisions[decisionId].sprintId in sprints && decisions[decisionId].runId in runs
      && Delivery.Allowed(runs[decisions[decisionId].runId].state, if approve then Delivery.Queued else Delivery.Cancelling)
    }

    lemma ReadyToResolve(d: string, approve: bool, reason: string, actor: string, early: int, now: int,
                         sprint: Sprint, decision: Decision, run: RunRow)
      requires Valid() && d in decisions && decisions[d].status == Pending && 3 <= |reason| <= 2000 && 1 <= |actor| <= 160
      requires decisions[d].sprintId in sprints && decisions[d].runId in runs
      requires Moved(runs[decisions[d].runId], Verdict(approve), early) == Ok(run)
      requires decision == ResolvedDecision(decisions[d], approve, reason, actor, now)
      requires sprint == ResolvedSprint(sprints[decisions[d].sprintId], decisions[d], approve, now)
      ensures SameOwner(sprint, decision) && Resolution(sprints, decisions, sprint, decision) && RunFollows(sprint, run)
      ensures decisions[d].decisionId == d
    {
      ResolutionReady(sprints, decisions, runs, sprintLog, decisionLog, d, approve, reason, actor, now);
      GovernedRun(sprints, decisions, runs, sprintLog, decisionLog, decisions[d].sprintId);
      VerdictFollows(sprints[decisions[d].sprintId], runs[decisions[d].runId], decisions[d], approve, early, now, run);
    }

    /** The state change of a resolution whose Run could move. */
    method ApplyResolution(decisionId: string, version: int, approve: bool, reason: string, actor: string, early: int, now: int)
      returns (r: Response)
      requires Resolvable(decisionId, version, approve)
      modifies this`sprints, this`decisions, this`runs, this`sprintLog, this`decisionLog
      ensures Settled(old(sprints), old(decisions), old(runs), sprints, decisions, runs, decisionId, approve, reason, actor, early, now, r)
      ensures old(Valid()) && 3 <= |reason| <= 2000 && 1 <= |actor| <= 160 ==> Valid() && decisions.Keys == old(decisions).Keys
      ensures forall t :: old(Timely(t)) && t <= early <= now ==> Timely(now)
    {
      var before := decisions[decisionId];
      var run := Moved(runs[before.runId], Verdict(approve), early).value;
      var decision := ResolvedDecision(before, approve, reason, actor, now);
      var sprint := ResolvedSprint(sprints[before.sprintId], before, approve, now);
      assert forall t :: Timely(t) && t <= early <= now ==> run.updated <= now && decision.updated <= now && sprint.updated <= now && Timely(now);
      if Valid() && 3 <= |reason| <= 2000 && 1 <= |actor| <= 160 {
        ReadyToResolve(decisionId, approve, reason, actor, early, now, sprint, decision, run);
      }
      StoredIsSettled(sprints, decisions, runs, decisionId, approve, reason, actor, early, now, sprint, decision, run);
      StoreResolution(sprint, decision, run);
      r := DecideDone(sprint, decision, run);
    }

    method ResolveDecision(decisionId: string, version: int, approve: bool, reason: string, m: Metadata, early: int, now: int)
      returns (r: Outcome<Response>)
      modifies this
      ensures Once("resolve_decision:" + decisionId, m, ResolveArguments(decisionId, version, approve, reason), r)
      ensures Audited("resolve_decision:" + decisionId, m, now, r)
      ensures old(Valid()) && 3 <= |reason| <= 2000 ==> Valid() && decisions.Keys == old(decisions).Keys
      ensures forall t :: old(Timely(t)) && t <= early <= now ==> Timely(now)
      ensures old(Unanswered("resolve_decision:" + decisionId, m)) ==> (r.Ok? <==> old(Resolvable(decisionId, version, approve)))
      ensures old(Unanswered("resolve_decision:" + decisionId, m)) && r.Ok? ==>
        Settled(old(sprints), old(decisions), old(runs), sprints, decisions, runs, decisionId, approve, reason, m.actorId, early, now, r.value)
    {
      var scope := "resolve_decision:" + decisionId;
      var arguments := ResolveArguments(decisionId, version, approve, reason);
      var todo;
      todo, r := Admit(scope, m, arguments, now);
      assert forall t :: old(Timely(t)) ==> Timely(t);
      if todo && Resolvable(decisionId, version, approve) {
        var response := ApplyResolution(decisionId, version, approve, reason, m.actorId, early, now);
        r := Ok(response);
        Record(scope, m, arguments, response, now);
      }
    }

    // ------------------------------------------------------------ run moves

    /** The loop over Sprints that looks for the one owning a Run. */
    method OwnerOf(runId: string) returns (owner: Option<string>)
      ensures owner.Some? ==> owner.value in sprints && sprints[owner.value].runId == runId
      ensures owner.None? ==> forall s :: s in sprints ==> sprints[s].runId != runId
    {
      owner := None;
      var left := sprints.Keys;
      while left != {}
        invariant left <= sprints.Keys
        invariant forall s :: s in sprints && s !in left ==> sprints[s].runId != runId
        decreases |left|
      {
        var s :| s in left;
        if sprints[s].runId == runId { return Some(s); }
        left := left - {s};
      }
    }

    /** A Sprint that would still be cancelled in order of time. */
    ghost predicate InOrder(runId: string, now: int)
      reads this`sprints, this`runs
    {
      runId in runs && forall s :: s in sprints && sprints[s].runId == runId ==> sprints[s].updated <= Max(now, runs[runId].updated)
    }

    /** The Run belongs to a Sprint that a cancellation of the Run would cancel. */
    ghost predicate OpenOwner(runId: string)
      reads this`sprints
    {
      exists s :: s in sprints && sprints[s].runId == runId && Cancellable(sprints[s])
    }

    lemma OwnerDecides(runId: string, owner: string, now: int)
      requires Valid() && OpenOwner(runId) && runId in runs && owner in sprints && sprints[owner].runId == runId
      ensures Cancellable(sprints[owner]) && (InOrder(runId, now) <==> sprints[owner].updated <= Max(now, runs[runId].updated))
    {
      forall s | s in sprints && sprints[s].runId == runId ensures s == owner {
        OneOwner(sprints, decisions, runs, sprintLog, decisionLog, s, owner);
      }
    }

    method StoreCancellation(id: string, sprint: Sprint, run: RunRow)
      modifies this`sprints, this`runs, this`sprintLog
      ensures sprints == old(sprints)[id := sprint] && runs == old(runs)[sprint.runId := run]
      ensures sprint.sprintId == id && old(Valid()) && Cancellation(old(sprints), sprint) && RunFollows(sprint, run) ==> Valid()
      ensures sprintLog == old(sprintLog) + [SprintEvent(CancellationRequested, false, sprint)]
    {
      if sprint.sprintId == id && Valid() && Cancellation(sprints, sprint) && RunFollows(sprint, run) {
        CancelKeeps(sprints, decisions, runs, sprintLog, decisionLog, sprint, run);
      }
      sprints, runs := sprints[id := sprint], runs[sprint.runId := run];
      sprintLog := sprintLog + [SprintEvent(CancellationRequested, false, sprint)];
    }

    method StoreRun(id: string, run: RunRow)
      modifies this`runs
      ensures runs == old(runs)[id := run]
      ensures old(Valid()) && (forall s :: s in sprints && sprints[s].runId == id ==> RunFollows(sprints[s], run)) ==> Valid()
    {
      if Valid() && forall s :: s in sprints && sprints[s].runId == id ==> RunFollows(sprints[s], run) { RunMoveKeeps(sprints, decisions, runs, sprintLog, decisionLog, id, run); }
      runs := runs[id := run];
    }

    /** A Run that moves without cancelling its Sprint still carries it out. */
    lemma OwnersFollow(runId: string, owner: Option<string>, to: Delivery.RunState, run: RunRow)
      requires Valid() && runId in runs && run == runs[runId].(state := to, version := run.version, updated := run.updated)
      requires owner.Some? ==> owner.value in sprints && sprints[owner.value].runId == runId && Permits(sprints[owner.value], to)
      requires owner.None? ==> forall s :: s in sprints ==> sprints[s].runId != runId
      requires Delivery.Allowed(runs[runId].state, to)
      requires owner.Some? && to == Delivery.Cancelling ==> !Cancellable(sprints[owner.value])
      ensures forall s :: s in sprints && sprints[s].runId == runId ==> RunFollows(sprints[s], run)
    {
      forall s | s in sprints && sprints[s].runId == runId ensures RunFollows(sprints[s], run) {
        OneOwner(sprints, decisions, runs, sprintLog, decisionLog, s, owner.value);
        GovernedRun(sprints, decisions, runs, sprintLog, decisionLog, s);
        StateMoves(sprints[s], runs[runId].state, to);
      }
    }

    /** The state change of a transition: the Run, and a Sprint it cancels. */
    method ApplyTransition(runId: string, owner: Option<string>, to: Delivery.RunState, run: RunRow)
      requires owner.Some? ==> owner.value in sprints && sprints[owner.value].runId == runId && Permits(sprints[owner.value], to)
      requires owner.None? ==> forall s :: s in sprints ==> sprints[s].runId != runId
      requires runId in runs && run == runs[runId].(state := to, version := run.version, updated := run.updated)
      requires Delivery.Allowed(runs[runId].state, to)
      modifies this`sprints, this`runs, this`sprintLog
      ensures old(Valid()) && (to == Delivery.Cancelling && owner.Some? ==> old(sprints)[owner.value].updated <= run.updated) ==> Valid()
      ensures runs == old(runs)[runId := run]
      ensures owner.Some? ==> sprints == old(sprints)[owner.value := MovedSprint(old(sprints)[owner.value], to, run)]
      ensures owner.None? ==> sprints == old(sprints)
      ensures forall t :: old(Timely(t)) && run.updated <= t ==> Timely(t)
      ensures old(Valid()) && owner.Some? && to == Delivery.Cancelling && Cancellable(old(sprints)[owner.value]) ==>
        (SprintsAccepted(sprintLog, sprints) <==> old(sprints)[owner.value].updated <= run.updated)
    {
      if owner.Some? && to == Delivery.Cancelling && (sprints[owner.value].status == Proposed || sprints[owner.value].status == Approved) {
        ApplyCancellation(owner.value, run);
      } else {
        if Valid() { OwnersFollow(runId, owner, to, run); }
        StoreRun(runId, run);
      }
    }

    /** The Run is cancelled and its Sprint with it. */
    method ApplyCancellation(owner: string, run: RunRow)
      requires owner in sprints && Cancellable(sprints[owner]) && sprints[owner].pending.None? && sprints[owner].runId in runs
      requires run == runs[sprints[owner].runId].(state := Delivery.Cancelling, version := run.version, updated := run.updated)
      modifies this`sprints, this`runs, this`sprintLog
      ensures old(Valid()) && old(sprints)[owner].updated <= run.updated ==> Valid()
      ensures runs == old(runs)[old(sprints)[owner].runId := run]
      ensures sprints == old(sprints)[owner := MovedSprint(old(sprints)[owner], Delivery.Cancelling, run)]
      ensures old(Valid()) ==> (SprintsAccepted(sprintLog, sprints) <==> old(sprints)[owner].updated <= run.updated)
    {
      var sprint := CancellingSprint(sprints[owner], run);
      if Valid() {
        GovernedSprint(sprints, decisions, runs, sprintLog, decisionLog, owner);
        GovernedRun(sprints, decisions, runs, sprintLog, decisionLog, owner);
        if sprints[owner].updated <= run.updated { CancellationFits(sprints, owner, run); }
        GovernedCancellation(sprints, decisions, runs, sprintLog, decisionLog, owner, run);
      }
      StoreCancellation(owner, sprint, run);
    }

    /** The Run's move, if its owner permits it. */
    method ChangeRun(runId: string, version: int, to: Delivery.RunState, now: int) returns (r: Outcome<Response>)
      modifies this`sprints, this`runs, this`sprintLog
      ensures old(Valid() && (to == Delivery.Cancelling && runId in runs ==> InOrder(runId, now))) ==> Valid()
      ensures old(Timely(now)) ==> Timely(now)
      ensures r.Err? ==> sprints == old(sprints) && runs == old(runs) && sprintLog == old(sprintLog)
      ensures Transitioned(old(sprints), old(runs), sprints, runs, runId, version, to, now, r)
      ensures old(Valid() && OpenOwner(runId)) && to == Delivery.Cancelling && r.Ok? ==>
        (SprintsAccepted(sprintLog, sprints) <==> old(InOrder(runId, now)))
    {
      r := Err;
      if Movable(runs, runId, version, to) {
        var owner := OwnerOf(runId);
        var moved := Moved(runs[runId], to, now).value;
        if owner.None? || Permits(sprints[owner.value], to) {
          MoveAlong(runId, owner, version, to, now, moved);
          r := Ok(RunDone(moved));
        } else {
          RefusalIsTransition(sprints, runs, runId, version, to, now);
        }
      } else {
        RefusalIsTransition(sprints, runs, runId, version, to, now);
      }
    }

    /** The permitted move, and what it does to the owner. */
    method MoveAlong(runId: string, owner: Option<string>, version: int, to: Delivery.RunState, now: int, run: RunRow)
      requires owner.Some? ==> owner.value in sprints && sprints[owner.value].runId == runId && Permits(sprints[owner.value], to)
      requires owner.None? ==> forall s :: s in sprints ==> sprints[s].runId != runId
      requires Movable(runs, runId, version, to) && Moved(runs[runId], to, now) == Ok(run)
      modifies this`sprints, this`runs, this`sprintLog
      ensures old(Valid() && (to == Delivery.Cancelling ==> InOrder(runId, now))) ==> Valid()
      ensures old(Timely(now)) ==> Timely(now)
      ensures Transitioned(old(sprints), old(runs), sprints, runs, runId, version, to, now, Ok(RunDone(run)))
      ensures old(Valid() && OpenOwner(runId)) && to == Delivery.Cancelling ==> (SprintsAccepted(sprintLog, sprints) <==> old(InOrder(runId, now)))
    {
      if Valid() && OpenOwner(runId) { OwnerDecides(runId, owner.value, now); }
      ApplyTransition(runId, owner, to, run);
      assert RunMoves(old(runs), runs, runId, to, now, RunDone(run));
      assert OwnerMoves(old(sprints), sprints, runId, to, run);
    }

    /** A cancellation keeps the Sprint's stream in order of time exactly when the
        Run's new timestamp is not older than the Sprint; a clock that never runs
        backwards guarantees it. */
    method TransitionRun(runId: string, version: int, to: Delivery.RunState, m: Metadata, now: int) returns (r: Outcome<Response>)
      modifies this
      ensures Once("transition_run:" + runId, m, TransitionArguments(runId, version, to), r) && Audited("transition_run:" + runId, m, now, r)
      ensures old(Valid() && (to == Delivery.Cancelling && runId in runs ==> InOrder(runId, now))) ==> Valid()
      ensures decisions == old(decisions)
      ensures forall t :: old(Timely(t)) && t <= now ==> Timely(now)
      ensures old(Unanswered("transition_run:" + runId, m)) ==>
        Transitioned(old(sprints), old(runs), sprints, runs, runId, version, to, now, r)
      ensures old(Unanswered("transition_run:" + runId, m) && Valid() && OpenOwner(runId)) && to == Delivery.Cancelling && r.Ok? ==>
        (SprintsAccepted(sprintLog, sprints) <==> old(InOrder(runId, now)))
    {
      var scope, arguments := "transition_run:" + runId, TransitionArguments(runId, version, to);
      var todo;
      todo, r := Admit(scope, m, arguments, now);
      assert forall t :: old(Timely(t)) ==> Timely(t);
      TimelyLater(now);
      if todo {
        r := ChangeRun(runId, version, to, now);
        if r.Ok? { Record(scope, m, arguments, r.value, now); }
      }
    }

    method ApplyResumption(runId: string, now: int) returns (r: Outcome<Response>)
      requires runId in runs && Waiting(runs[runId].state)
      modifies this`runs
      ensures old(Valid()) ==> Valid()
      ensures forall t :: old(Timely(t)) && t <= now ==> Timely(now)
      ensures r.Ok? && r.value.RunDone? && runs == old(runs)[runId := r.value.run]
      ensures var row := old(runs)[runId];
        r.value.run == row.(state := Delivery.Queued, version := row.version + 1, updated := Max(now, row.updated))
    {
      r := Err;
      var moved := Moved(runs[runId], Delivery.Queued, now);
      if moved.Ok? {
        if Valid() { WaitingFollow(runId, moved.value); }
        StoreRun(runId, moved.value);
        r := Ok(RunDone(moved.value));
      }
    }

    method ResumeRun(runId: string, version: int, m: Metadata, now: int) returns (r: Outcome<Response>)
      modifies this
      ensures version >= 1 ==> Once("resume_run:" + runId, m, ResumeArguments(runId, version), r) && Audited("resume_run:" + runId, m, now, r)
      ensures version < 1 ==> r == Err && Nothing()
      ensures old(Valid()) ==> Valid()
      ensures decisions == old(decisions) && sprints == old(sprints)
      ensures forall t :: old(Timely(t)) && t <= now ==> Timely(now)
      ensures version >= 1 && old(Unanswered("resume_run:" + runId, m)) ==>
        (r.Ok? <==> runId in old(runs) && old(runs)[runId].version == version && old(runs)[runId].state in {Delivery.FailedRetryable, Delivery.AwaitingDecision})
      ensures version >= 1 && old(Unanswered("resume_run:" + runId, m)) && r.Ok? ==>
        var run := old(runs)[runId].(state := Delivery.Queued, version := version + 1, updated := Max(now, old(runs)[runId].updated));
        r.value == RunDone(run) && runs == old(runs)[runId := run]
    {
      if version < 1 { return Err; }
      var scope, arguments := "resume_run:" + runId, ResumeArguments(runId, version);
      var todo;
      todo, r := Admit(scope, m, arguments, now);
      assert forall t :: old(Timely(t)) ==> Timely(t);
      if todo && runId in runs && runs[runId].version == version
         && Waiting(runs[runId].state) {
        r := ApplyResumption(runId, now);
        if r.Ok? { Record(scope, m, arguments, r.value, now); }
      }
    }

    /** Only the Run of an approved Sprint waits to be resumed. */
    lemma WaitingFollow(runId: string, run: RunRow)
      requires Valid() && runId in runs && Waiting(runs[runId].state)
      requires run == runs[runId].(state := Delivery.Queued, version := run.version, updated := run.updated)
      ensures forall s :: s in sprints && sprints[s].runId == runId ==> RunFollows(sprints[s], run)
    {
      forall s | s in sprints && sprints[s].runId == runId ensures RunFollows(sprints[s], run) {
        GovernedRun(sprints, decisions, runs, sprintLog, decisionLog, s);
      }
    }

    // ------------------------------------------------------------ the checker

    /** The replay checker, given the stored rows and the logged snapshots, accepts. */
    ghost predicate Replayable()
      reads this
    {
      SprintsAccepted(sprintLog, sprints) && DecisionsAccepted(decisionLog, decisions) && LinksAccepted(sprints, decisions)
    }

    lemma ValidIsReplayable()
      requires Valid()
      ensures Replayable()
    {
      GovernanceReplays(sprints, decisions, runs, sprintLog, decisionLog);
    }
  }

  /** A Sprint that follows its Run into cancellation. */
  predicate Cancellable(s: Sprint) { s.status == Proposed || s.status == Approved }

  /** What a Run transition does to the Sprint owning the Run. */
  function MovedSprint(s: Sprint, to: Delivery.RunState, run: RunRow): Sprint {
    if to == Delivery.Cancelling && (s.status == Proposed || s.status == Approved)
    then s.(status := Cancelling, version := s.version + 1, updated := run.updated) else s
  }

  /** Some owner permitted the move and moved along, or nobody owns the Run. */
  ghost predicate OwnerMoves(before: map<string, Sprint>, after: map<string, Sprint>, runId: string, to: Delivery.RunState, run: RunRow) {
    || ((forall s :: s in before ==> before[s].runId != runId) && after == before)
    || (exists s :: s in before && before[s].runId == runId && Permits(before[s], to) && after == before[s := MovedSprint(before[s], to, run)])
  }

  ghost predicate OwnerForbids(sprints: map<string, Sprint>, runId: string, to: Delivery.RunState) {
    exists s :: s in sprints && sprints[s].runId == runId && !Permits(sprints[s], to)
  }

  ghost predicate RunMoves(before: map<string, RunRow>, after: map<string, RunRow>, runId: string, to: Delivery.RunState, now: int,
                           r: Response) {
    && runId in before && r.RunDone? && after == before[runId := r.run]
    && (var row := before[runId];
        r.run == row.(state := to, version := row.version + 1, updated := if now < row.updated then row.updated else now))
  }

  predicate Movable(runs: map<string, RunRow>, runId: string, version: int, to: Delivery.RunState) {
    runId in runs && runs[runId].version == version && !Privileged(runs[runId].state, to) && Delivery.Allowed(runs[runId].state, to)
  }

  /** The whole effect of a Run transition: it succeeds exactly when the Run can
      move and its owner permits it, and then the Run and the owner move together. */
  ghost predicate TransitionEffect(ss: map<string, Sprint>, rs: map<string, RunRow>, sprints: map<string, Sprint>, runs: map<string, RunRow>,
                                   runId: string, version: int, to: Delivery.RunState, now: int, r: Outcome<Response>) {
    if r.Ok? then
      Movable(rs, runId, version, to) && RunMoves(rs, runs, runId, to, now, r.value) && OwnerMoves(ss, sprints, runId, to, r.value.run)
    else Movable(rs, runId, version, to) ==> OwnerForbids(ss, runId, to)
  }

  /** `TransitionEffect`, unfolded only where a proof mentions `Open`. */
  ghost predicate Transitioned(ss: map<string, Sprint>, rs: map<string, RunRow>, sprints: map<string, Sprint>, runs: map<string, RunRow>,
                               runId: string, version: int, to: Delivery.RunState, now: int, r: Outcome<Response>) {
    forall k: int {:trigger Open(k)} :: Open(k) ==> TransitionEffect(ss, rs, sprints, runs, runId, version, to, now, r)
  }

  /** The whole effect of a resolution. */
  ghost predicate ResolutionEffect(ss: map<string, Sprint>, ds: map<string, Decision>, rs: map<string, RunRow>,
                          sprints: map<string, Sprint>, decisions: map<string, Decision>, runs: map<string, RunRow>,
                          decisionId: string, approve: bool, reason: string, actor: string, early: int, now: int, r: Response)
    requires decisionId in ds && ds[decisionId].sprintId in ss && ds[decisionId].runId in rs
  {
    var before := ds[decisionId];
    var owner, row, at := ss[before.sprintId], rs[before.runId], if now < before.updated then before.updated else now;
    var decision := before.(status := if approve then Accepted else Declined, version := before.version + 1, updated := at,
                            decided := Some(at), decidedBy := Some(actor), reason := Some(reason));
    var sprint := owner.(status := if approve then Approved else Rejected, version := owner.version + 1, updated := at, pending := None);
    var run := row.(state := if approve then Delivery.Queued else Delivery.Cancelling, version := row.version + 1,
                    updated := if early < row.updated then row.updated else early);
    && r == DecideDone(sprint, decision, run) && sprints == ss[before.sprintId := sprint]
    && decisions == ds[decision.decisionId := decision] && runs == rs[before.runId := run]
  }

  /** `ResolutionEffect`, unfolded only where a proof mentions `Open`. */
  ghost predicate Settled(ss: map<string, Sprint>, ds: map<string, Decision>, rs: map<string, RunRow>,
                          sprints: map<string, Sprint>, decisions: map<string, Decision>, runs: map<string, RunRow>,
                          decisionId: string, approve: bool, reason: string, actor: string, early: int, now: int, r: Response)
    requires decisionId in ds && ds[decisionId].sprintId in ss && ds[decisionId].runId in rs
  {
    forall k: int {:trigger Open(k)} :: Open(k) ==>
      ResolutionEffect(ss, ds, rs, sprints, decisions, runs, decisionId, approve, reason, actor, early, now, r)
  }

  lemma SettledTells(ss: map<string, Sprint>, ds: map<string, Decision>, rs: map<string, RunRow>,
                     sprints: map<string, Sprint>, decisions: map<string, Decision>, runs: map<string, RunRow>,
                     decisionId: string, approve: bool, reason: string, actor: string, early: int, now: int, r: Response)
    requires decisionId in ds && ds[decisionId].sprintId in ss && ds[decisionId].runId in rs
    requires Settled(ss, ds, rs, sprints, decisions, runs, decisionId, approve, reason, actor, early, now, r)
    ensures ResolutionEffect(ss, ds, rs, sprints, decisions, runs, decisionId, approve, reason, actor, early, now, r)
  {
    assert Open(0);
  }

  /** The Run of a resolved Sprint follows the verdict. */
  lemma VerdictFollows(before: Sprint, row: RunRow, decision: Decision, approve: bool, early: int, now: int, run: RunRow)
    requires RunFollows(before, row) && Moved(row, Verdict(approve), early) == Ok(run)
    ensures RunFollows(ResolvedSprint(before, decision, approve, now), run)
  {}

  lemma RefusalIsTransition(ss: map<string, Sprint>, rs: map<string, RunRow>, runId: string, version: int, to: Delivery.RunState, now: int)
    requires !Movable(rs, runId, version, to) || OwnerForbids(ss, runId, to)
    ensures Transitioned(ss, rs, ss, rs, runId, version, to, now, Err)
  {}

  /** What the code stores is that effect. */
  lemma StoredIsSettled(ss: map<string, Sprint>, ds: map<string, Decision>, rs: map<string, RunRow>, decisionId: string, approve: bool,
                        reason: string, actor: string, early: int, now: int, sprint: Sprint, decision: Decision, run: RunRow)
    requires decisionId in ds && ds[decisionId].sprintId in ss && ds[decisionId].runId in rs
    requires decision == ResolvedDecision(ds[decisionId], approve, reason, actor, now)
    requires sprint == ResolvedSprint(ss[ds[decisionId].sprintId], ds[decisionId], approve, now)
    requires Moved(rs[ds[decisionId].runId], Verdict(approve), early) == Ok(run)
    ensures Settled(ss, ds, rs, ss[decision.sprintId := sprint], ds[decision.decisionId := decision], rs[decision.runId := run],
                    decisionId, approve, reason, actor, early, now, DecideDone(sprint, decision, run))
  {}

  function Verdict(approve: bool): Delivery.RunState { if approve then Delivery.Queued else Delivery.Cancelling }

  // --------------------------------------------------------- whole histories

  /** A command with the clock readings it takes, in order. */
  datatype Command =
    | Plan(sprintId: string, runId: string, title: string, objective: string, m: Metadata, early: int, now: int)
    | Submit(sprintId: string, version: int, riskClass: Risk, decisionId: string, m: Metadata, early: int, now: int)
    | Resolve(decisionId: string, version: int, approve: bool, reason: string, m: Metadata, early: int, now: int)
    | Transition(runId: string, version: int, to: Delivery.RunState, m: Metadata, early: int, now: int)
    | Resume(runId: string, version: int, m: Metadata, early: int, now: int)

  /** What the service in front of the repository checks. */
  predicate WellFormed(c: Command) {
    match c
    case Plan(_, _, title, objective, _, _, _) => 1 <= |title| <= 500 && 3 <= |objective| <= 8000
    case Submit(_, _, riskClass, _, _, _, _) => !riskClass.OtherRisk?
    case Resolve(_, _, _, reason, _, _, _) => 3 <= |reason| <= 2000
    case Transition(_, _, _, _, _, _) => true
    case Resume(_, _, _, _, _) => true
  }

  /** The clock never runs backwards, within a command or between commands. */
  ghost predicate Steady(commands: seq<Command>, start: int) {
    && (forall i :: 0 <= i < |commands| ==> start <= commands[i].early <= commands[i].now)
    && (forall i, j :: 0 <= i < j < |commands| ==> commands[i].now <= commands[j].early)
  }

  /** No decision identifier is offered twice. */
  ghost predicate FreshDecisions(commands: seq<Command>) {
    forall i, j :: 0 <= i < j < |commands| && commands[i].Submit? && commands[j].Submit? ==> commands[i].decisionId != commands[j].decisionId
  }

  /** A command that cannot upset the governed state: well-formed, on time, with a fresh decision. */
  ghost predicate Acceptable(repo: MemoryRepository, c: Command)
    reads repo
  {
    && WellFormed(c) && (c.Submit? ==> c.decisionId !in repo.decisions)
    && c.early <= c.now && forall s :: s in repo.sprints ==> repo.sprints[s].updated <= c.early
  }

  function ScopeOf(c: Command): string {
    match c
    case Plan(_, _, _, _, _, _, _) => "plan_sprint"
    case Submit(s, _, _, _, _, _, _) => "submit_sprint:" + s
    case Resolve(d, _, _, _, _, _, _) => "resolve_decision:" + d
    case Transition(r, _, _, _, _, _) => "transition_run:" + r
    case Resume(r, _, _, _, _) => "resume_run:" + r
  }

  function ArgumentsOf(c: Command): Arguments {
    match c
    case Plan(_, _, title, objective, _, _, _) => PlanArguments(title, objective)
    case Submit(s, version, risk, _, _, _, _) => SubmitArguments(s, version, risk)
    case Resolve(d, version, approve, reason, _, _, _) => ResolveArguments(d, version, approve, reason)
    case Transition(r, version, to, _, _, _) => TransitionArguments(r, version, to)
    case Resume(r, version, _, _, _) => ResumeArguments(r, version)
  }

  /** Every command is answered exactly once; a resumption must name a version first. */
  twostate predicate Answers(repo: MemoryRepository, c: Command, new r: Outcome<Response>)
    reads repo
  {
    if c.Resume? && c.version < 1 then r == Err && repo.Nothing() else repo.Once(ScopeOf(c), c.m, ArgumentsOf(c), r)
  }

  method Perform(repo: MemoryRepository, c: Command) returns (r: Outcome<Response>)
    modifies repo
    ensures old(repo.Valid() && Acceptable(repo, c)) ==> repo.Valid()
    ensures forall t :: old(repo.Timely(t)) && t <= c.early <= c.now ==> repo.Timely(c.now)
    ensures repo.decisions.Keys <= old(repo.decisions).Keys + (if c.Submit? then {c.decisionId} else {})
      || !old(repo.Valid()) || !WellFormed(c)
    ensures forall k :: k in old(repo.receipts) ==> k in repo.receipts && repo.receipts[k] == old(repo.receipts)[k]
    ensures Answers(repo, c, r)
  {
    match c
    case Plan(s, run, title, objective, m, early, now) => r := repo.PlanSprint(s, run, title, objective, m, now);
    case Submit(s, version, risk, d, m, early, now) => r := repo.SubmitSprint(s, version, risk, d, m, early, now);
    case Resolve(d, version, approve, reason, m, early, now) => r := repo.ResolveDecision(d, version, approve, reason, m, early, now);
    case Transition(_, _, _, _, _, _) => r := PerformRun(repo, c);
    case Resume(_, _, _, _, _) => r := PerformRun(repo, c);
  }

  method PerformRun(repo: MemoryRepository, c: Command) returns (r: Outcome<Response>)
    requires c.Transition? || c.Resume?
    modifies repo
    ensures old(repo.Valid() && Acceptable(repo, c)) ==> repo.Valid()
    ensures forall t :: old(repo.Timely(t)) && t <= c.early <= c.now ==> repo.Timely(c.now)
    ensures repo.decisions == old(repo.decisions)
    ensures forall k :: k in old(repo.receipts) ==> k in repo.receipts && repo.receipts[k] == old(repo.receipts)[k]
    ensures Answers(repo, c, r)
  {
    if c.Transition? {
      r := repo.TransitionRun(c.runId, c.version, c.to, c.m, c.now);
    } else {
      r := repo.ResumeRun(c.runId, c.version, c.m, c.now);
    }
  }

  predicate Begun(r: Delivery.RunState) {
    r in {Delivery.Queued, Delivery.Preparing, Delivery.Running, Delivery.Validating, Delivery.AwaitingDecision,
          Delivery.Completed, Delivery.FailedRetryable, Delivery.FailedTerminal}
  }

  /** A Run is begun only for an approved Sprint, and what was rejected or cancelled
      is being cancelled or is cancelled. */
  predicate Governs(s: Sprint, r: RunRow) {
    && (s.status == Proposed ==> r.state == Delivery.Draft)
    && (s.status == AwaitingApproval ==> r.state == Delivery.AwaitingApproval)
    && (Begun(r.state) <==> s.status == Approved)
    && (r.state == Delivery.Cancelling || r.state == Delivery.Cancelled <==> s.status == Rejected || s.status == Cancelling)
  }

  /** An accepted decision leaves its Sprint approved or cancelled later, a declined one rejects it. */
  predicate Decides(d: Decision, s: Sprint) {
    && (d.status == Pending ==> s.status == AwaitingApproval)
    && (d.status == Accepted ==> s.status == Approved || s.status == Cancelling)
    && (d.status == Declined ==> s.status == Rejected)
  }

  /** What holds of every Sprint, Run and decision at every moment. */
  ghost predicate Orderly(repo: MemoryRepository)
    reads repo
  {
    && (forall s :: s in repo.sprints ==> repo.sprints[s].runId in repo.runs && Governs(repo.sprints[s], repo.runs[repo.sprints[s].runId]))
    && (forall s :: s in repo.sprints ==> (repo.sprints[s].status == AwaitingApproval <==> AwaitedBy(repo.decisions, repo.sprints[s], s)))
    && (forall d :: d in repo.decisions ==>
          repo.decisions[d].sprintId in repo.sprints && Decides(repo.decisions[d], repo.sprints[repo.decisions[d].sprintId]))
  }

  /** Exactly one decision is pending for the Sprint, and it names the Sprint's Run. */
  ghost predicate AwaitedBy(decisions: map<string, Decision>, row: Sprint, s: string) {
    exists d :: OnlyPending(decisions, s, d) && decisions[d].runId == row.runId
  }

  lemma ValidIsOrderly(repo: MemoryRepository)
    requires repo.Valid()
    ensures Orderly(repo)
  {
    forall s | s in repo.sprints
      ensures repo.sprints[s].runId in repo.runs && Governs(repo.sprints[s], repo.runs[repo.sprints[s].runId])
      ensures repo.sprints[s].status == AwaitingApproval <==> AwaitedBy(repo.decisions, repo.sprints[s], s) {
      GovernedRun(repo.sprints, repo.decisions, repo.runs, repo.sprintLog, repo.decisionLog, s);
      AwaitingExactly(repo.sprints, repo.decisions, repo.runs, repo.sprintLog, repo.decisionLog, s);
    }
    forall d | d in repo.decisions
      ensures repo.decisions[d].sprintId in repo.sprints && Decides(repo.decisions[d], repo.sprints[repo.decisions[d].sprintId]) {
      GovernedDecision(repo.sprints, repo.decisions, repo.runs, repo.sprintLog, repo.decisionLog, d);
    }
  }

  /** Under a clock that never runs backwards and fresh decision identifiers, the
      replay checker accepts what any history of commands leaves behind. */
  method History(commands: seq<Command>, start: int) returns (repo: MemoryRepository)
    requires Steady(commands, start) && FreshDecisions(commands) && forall i :: 0 <= i < |commands| ==> WellFormed(commands[i])
    ensures fresh(repo) && repo.Valid() && repo.Replayable()
    ensures Orderly(repo)
  {
    repo := new MemoryRepository();
    ghost var time := start;
    for i := 0 to |commands|
      invariant fresh(repo) && repo.Valid() && repo.Timely(time)
      invariant forall j :: i <= j < |commands| ==> time <= commands[j].early
      invariant forall d :: d in repo.decisions ==> exists j :: 0 <= j < i && commands[j].Submit? && commands[j].decisionId == d
    {
      var _ := Perform(repo, commands[i]);
      time := commands[i].now;
    }
    repo.ValidIsReplayable();
    ValidIsOrderly(repo);
  }

  /** The receipt of a successful command. */
  ghost predicate Answered(repo: MemoryRepository, c: Command, first: Response)
    reads repo
  {
    var k := ReceiptKey(ScopeOf(c), c.m.key);
    k in repo.receipts && repo.receipts[k] == Receipt(RequestOf(c.m, ArgumentsOf(c)), first)
  }

  /** The same command by the same caller. */
  predicate SameAsk(c: Command, d: Command) {
    && c.m.actorType == d.m.actorType && c.m.actorId == d.m.actorId && c.m.causation == d.m.causation && c.m.tool == d.m.tool
    && match c
       case Plan(_, _, title, objective, _, _, _) => d.Plan? && d.title == title && d.objective == objective
       case Submit(s, version, risk, _, _, _, _) => d.Submit? && d.sprintId == s && d.version == version && d.riskClass == risk
       case Resolve(id, version, approve, reason, _, _, _) =>
         d.Resolve? && d.decisionId == id && d.version == version && d.approve == approve && d.reason == reason
       case Transition(r, version, to, _, _, _) => d.Transition? && d.runId == r && d.version == version && d.to == to
       case Resume(r, version, _, _, _) => d.Resume? && d.runId == r && d.version == version
  }

  /** What is hashed tells exactly the same commands by the same caller apart from all others. */
  lemma RequestsTell(c: Command, d: Command)
    ensures RequestOf(c.m, ArgumentsOf(c)) == RequestOf(d.m, ArgumentsOf(d)) <==> SameAsk(c, d)
  {}

  /** Asking again under a key gives the first answer and changes only the audit
      list; asking anything else under it fails and changes nothing. */
  method AskAgain(repo: MemoryRepository, c: Command, first: Response, again: Command) returns (second: Outcome<Response>)
    requires Answered(repo, c, first)
    requires ScopeOf(again) == ScopeOf(c) && again.m.key == c.m.key && ValidMetadata(again.m) && (again.Resume? ==> again.version >= 1)
    modifies repo
    ensures SameAsk(c, again) ==> second == Ok(first) && repo.OnlyAudits()
    ensures !SameAsk(c, again) ==> second == Err && repo.Nothing()
    ensures Answered(repo, c, first)
  {
    RequestsTell(c, again);
    second := Perform(repo, again);
  }

  /** The first success under a key decides forever: whatever happens in between,
      every later command under the key is answered by it. */
  method FirstAnswerStands(repo: MemoryRepository, c: Command, between: seq<Command>) returns (first: Outcome<Response>)
    modifies repo
    ensures first.Ok? ==> Answered(repo, c, first.value)
  {
    first := Perform(repo, c);
    for i := 0 to |between|
      invariant first.Ok? ==> Answered(repo, c, first.value)
    {
      var _ := Perform(repo, between[i]);
    }
  }

  // ------------------------------------------------- a clock that steps back

  /** The scopes of the four commands below begin differently, so one key serves them all. */
  lemma ScopesApart(s: string, d: string, r: string, key: string)
    ensures ReceiptKey("submit_sprint:" + s, key) != ReceiptKey("plan_sprint", key)
    ensures ReceiptKey("resolve_decision:" + d, key) !in {ReceiptKey("plan_sprint", key), ReceiptKey("submit_sprint:" + s, key)}
    ensures ReceiptKey("transition_run:" + r, key) !in
      {ReceiptKey("plan_sprint", key), ReceiptKey("submit_sprint:" + s, key), ReceiptKey("resolve_decision:" + d, key)}
  {
    assert ReceiptKey("plan_sprint", key)[0] == 'p' && ReceiptKey("submit_sprint:" + s, key)[0] == 's';
    assert ReceiptKey("resolve_decision:" + d, key)[0] == 'r' && ReceiptKey("transition_run:" + r, key)[0] == 't';
  }

  /** One Sprint and its Run, with what the story below needs to know of them. */
  ghost predicate OnlySprint(repo: MemoryRepository, s: string, r: string, status: SprintStatus, touched: int, state: Delivery.RunState,
                             version: int, moved: int)
    reads repo
  {
    && repo.Valid() && repo.sprints.Keys == {s} && repo.runs.Keys == {r}
    && repo.sprints[s].runId == r && repo.sprints[s].status == status && repo.sprints[s].updated == touched
    && repo.sprints[s].version == version && repo.runs[r].state == state && repo.runs[r].version == version && repo.runs[r].updated == moved
  }

  method PlanOne(s: string, r: string, title: string, objective: string, m: Metadata) returns (repo: MemoryRepository)
    requires ValidMetadata(m) && 1 <= |title| <= 500 && 3 <= |objective| <= 8000
    ensures fresh(repo) && OnlySprint(repo, s, r, Proposed, 0, Delivery.Draft, 1, 0) && repo.decisions == map[]
    ensures repo.receipts.Keys == {ReceiptKey("plan_sprint", m.key)}
  {
    repo := new MemoryRepository();
    var r0 := repo.PlanSprint(s, r, title, objective, m, 0);
  }

  method SubmitOne(repo: MemoryRepository, s: string, r: string, d: string, m: Metadata)
    requires ValidMetadata(m) && OnlySprint(repo, s, r, Proposed, 0, Delivery.Draft, 1, 0) && repo.decisions == map[]
    requires repo.receipts.Keys == {ReceiptKey("plan_sprint", m.key)}
    modifies repo
    ensures OnlySprint(repo, s, r, AwaitingApproval, 20, Delivery.AwaitingApproval, 2, 10) && repo.decisions.Keys == {d}
    ensures repo.decisions[d].status == Pending && repo.decisions[d].version == 1 && repo.decisions[d].sprintId == s
      && repo.decisions[d].runId == r && repo.decisions[d].updated == 20
    ensures repo.receipts.Keys == {ReceiptKey("plan_sprint", m.key), ReceiptKey("submit_sprint:" + s, m.key)}
  {
    ScopesApart(s, d, r, m.key);
    GovernedSprint(repo.sprints, repo.decisions, repo.runs, repo.sprintLog, repo.decisionLog, s);
    var r1 := repo.SubmitSprint(s, 1, Low, d, m, 10, 20);
  }

  method ResolveOne(repo: MemoryRepository, s: string, r: string, d: string, reason: string, m: Metadata)
    requires ValidMetadata(m) && 3 <= |reason| <= 2000
    requires OnlySprint(repo, s, r, AwaitingApproval, 20, Delivery.AwaitingApproval, 2, 10) && repo.decisions.Keys == {d}
    requires repo.decisions[d].status == Pending && repo.decisions[d].version == 1 && repo.decisions[d].sprintId == s
      && repo.decisions[d].runId == r && repo.decisions[d].updated == 20
    requires repo.receipts.Keys == {ReceiptKey("plan_sprint", m.key), ReceiptKey("submit_sprint:" + s, m.key)}
    modifies repo
    ensures OnlySprint(repo, s, r, Approved, 20, Delivery.Queued, 3, 11)
    ensures repo.receipts.Keys ==
      {ReceiptKey("plan_sprint", m.key), ReceiptKey("submit_sprint:" + s, m.key), ReceiptKey("resolve_decision:" + d, m.key)}
  {
    ScopesApart(s, d, r, m.key);
    GovernedDecision(repo.sprints, repo.decisions, repo.runs, repo.sprintLog, repo.decisionLog, d);
    ghost var ss, ds, rs := repo.sprints, repo.decisions, repo.runs;
    var r2 := repo.ResolveDecision(d, 1, true, reason, m, 11, 20);
    SettledTells(ss, ds, rs, repo.sprints, repo.decisions, repo.runs, d, true, reason, m.actorId, 11, 20, r2.value);
  }

  /** What stands in the way of a transition, on the rows: another version, a move the
      state machine does not know or leaves to `ResumeRun`, a pending decision of the
      owner, or an owner not yet submitted whose Run is not being cancelled. */
  ghost predicate Obstacle(ss: map<string, Sprint>, rs: map<string, RunRow>, runId: string, version: int, to: Delivery.RunState) {
    || runId !in rs || rs[runId].version != version || !Delivery.Allowed(rs[runId].state, to)
    || (to == Delivery.Queued && (rs[runId].state == Delivery.FailedRetryable || rs[runId].state == Delivery.AwaitingDecision))
    || exists s :: s in ss && ss[s].runId == runId
         && (ss[s].status == AwaitingApproval || ss[s].pending.Some? || (ss[s].status == Proposed && to != Delivery.Cancelling))
  }

  /** A transition succeeds exactly when nothing stands in its way. */
  lemma TransitionsAreLawful(ss: map<string, Sprint>, rs: map<string, RunRow>, sprints: map<string, Sprint>, runs: map<string, RunRow>,
                             runId: string, version: int, to: Delivery.RunState, now: int, r: Outcome<Response>)
    requires Transitioned(ss, rs, sprints, runs, runId, version, to, now, r)
    requires forall s, t :: s in ss && t in ss && ss[s].runId == ss[t].runId ==> s == t
    ensures r.Ok? <==> !Obstacle(ss, rs, runId, version, to)
  {
    assert Open(0);
  }

  /** A Run that can move and whose owner does not forbid it moves. */
  lemma MustMove(ss: map<string, Sprint>, rs: map<string, RunRow>, sprints: map<string, Sprint>, runs: map<string, RunRow>,
                 runId: string, version: int, to: Delivery.RunState, now: int, r: Outcome<Response>)
    requires Transitioned(ss, rs, sprints, runs, runId, version, to, now, r)
    requires Movable(rs, runId, version, to) && !OwnerForbids(ss, runId, to)
    ensures r.Ok?
  {
    assert Open(0);
  }

  method CancelOne(repo: MemoryRepository, s: string, r: string, d: string, m: Metadata)
    requires ValidMetadata(m) && OnlySprint(repo, s, r, Approved, 20, Delivery.Queued, 3, 11)
    requires repo.receipts.Keys ==
      {ReceiptKey("plan_sprint", m.key), ReceiptKey("submit_sprint:" + s, m.key), ReceiptKey("resolve_decision:" + d, m.key)}
    modifies repo
    ensures !SprintsAccepted(repo.sprintLog, repo.sprints)
  {
    ScopesApart(s, d, r, m.key);
    GovernedSprint(repo.sprints, repo.decisions, repo.runs, repo.sprintLog, repo.decisionLog, s);
    assert !OwnerForbids(repo.sprints, r, Delivery.Cancelling);
    ghost var before, runs := repo.sprints, repo.runs;
    assert repo.OpenOwner(r) && !repo.InOrder(r, 12);
    var r3 := repo.TransitionRun(r, 3, Delivery.Cancelling, m, 12);
    MustMove(before, runs, repo.sprints, repo.runs, r, 3, Delivery.Cancelling, 12, r3);
  }

  /** A clock that steps back between two commands is enough: planned at 0,
      submitted with readings 10 and 20, approved with 11 and 20, cancelled at 12. */
  method BackwardClockFails(s: string, r: string, d: string, title: string, objective: string, reason: string, m: Metadata)
    returns (repo: MemoryRepository)
    requires ValidMetadata(m) && 1 <= |title| <= 500 && 3 <= |objective| <= 8000 && 3 <= |reason| <= 2000
    ensures fresh(repo) && !repo.Replayable()
  {
    repo := PlanOne(s, r, title, objective, m);
    SubmitOne(repo, s, r, d, m);
    ResolveOne(repo, s, r, d, reason, m);
    CancelOne(repo, s, r, d, m);
  }
}
