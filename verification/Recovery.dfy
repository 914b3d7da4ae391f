/** `Pipeline.Recover`: settle an interrupted delivery from its durable pieces alone. */
module Recovery {
  import opened Cards
  import opened Seqs
  import opened Delivery
  import opened Services
  import opened Pipeline
  import Publication

  /** Quarantine under one of the tolerances for a worktree that never was. */
  method QuarantineOr(w: World, absentAllowed: bool) returns (ok: bool)
    requires w.Ok() && (absentAllowed ==> !w.seen.launched)
    modifies w
    ensures w.Ok() && SameBut(TreePart, old(w.d), w.d)
    ensures ok ==> w.d.tree != LiveTree && MayRelease(w.seen)
    ensures old(w.script.Calm? && w.alive) ==> w.alive && (ok <==> old(w.d).tree != NoTree || absentAllowed)
    ensures old(w.script.Calm? && w.alive) ==> w.d == old(w.d).(tree := if old(w.d).tree == NoTree then NoTree else QuarantinedTree)
    ensures old(w.script.Calm?) ==> w.script.Calm?
  {
    assert Open(Calm);
    var moved := w.Quarantine();
    ok := moved == Moved || (moved == NotFound && absentAllowed);
  }

  /** Give an active lease set back after its worktree is out of the way. */
  method ReleaseIfActive(w: World, lease: Lease) returns (ok: bool)
    requires w.Ok() && MayRelease(w.seen) && w.d.tree != LiveTree && w.d.lease != NoLease
    requires lease == w.d.lease
    modifies w
    ensures w.Ok() && SameBut(LeasePart, old(w.d), w.d)
    ensures ok ==> w.d.lease == ReleasedLease
    ensures old(w.script.Calm? && w.alive) ==> w.alive && ok && w.d == old(w.d).(lease := ReleasedLease)
    ensures old(w.script.Calm?) ==> w.script.Calm?
  {
    assert Open(Calm);
    ok := true;
    if lease == ActiveLease { ok := w.ReleaseLeaseSet(); }
  }

  /** The cleanup every recovery path starts with: nothing to do when no lease set exists. */
  method CleanUp(w: World, absentAllowed: bool) returns (ok: bool)
    requires w.Ok() && (absentAllowed ==> !w.seen.launched)
    modifies w
    ensures w.Ok() && w.d.attempt == old(w.d.attempt) && w.d.journal == old(w.d.journal) && w.d.evidence == old(w.d.evidence)
    ensures ok ==> Clean(w.d)
    ensures old(w.script.Calm? && w.alive) ==> w.alive && w.d.run == old(w.d.run) && w.d.version == old(w.d.version)
    ensures old(w.script.Calm? && w.alive) ==> (ok <==> old(w.d).lease == NoLease || old(w.d).tree != NoTree || absentAllowed)
    ensures old(w.script.Calm?) ==> w.script.Calm?
  {
    assert Open(Calm);
    var known, lease := w.GetLeaseSet();
    assert Open(w.d);
    ok := known;
    if known && lease != NoLease {
      ok := QuarantineOr(w, absentAllowed);
      if ok { ok := ReleaseIfActive(w, lease); }
    }
  }

  ghost predicate Unfenced(d: Durable) {
    d.journal != Some(Publication.Prepared) && d.journal != Some(Publication.Published)
  }

  predicate Interrupted(r: RunState) { r == Preparing || r == Running || r == Validating }

  /** `failInterrupted`. */
  method FailInterrupted(w: World, run: View)
    requires w.Ok() && Ended(w.d.attempt) && RunFits(FailedRetryable, w.d.attempt)
    requires run.state == Preparing ==> !w.seen.launched
    modifies w
    ensures w.Ok()
    ensures old(w.script.Calm? && w.alive && Current(w.d, run) && Unfenced(w.d) && w.d.run != Cancelling) ==>
      Settled(w.d) && w.d.evidence == old(w.d.evidence) && w.d.run == if Interrupted(run.state) then FailedRetryable else old(w.d.run)
    ensures old(w.script.Calm?) ==> w.script.Calm?
  {
    assert Open(Calm) && Open(w.d);
    var clean := CleanUp(w, run.state == Preparing);
    assert Open(w.d);
    if clean && Interrupted(run.state) {
      var _ := w.TransitionRun(run.version, FailedRetryable);
    }
  }

  /** `recoverCancellation`: only a timeline without a start proves pre-worker absence. */
  method RecoverCancellation(w: World, run: View, status: AttemptStatus, started: bool)
    requires w.Ok() && Ended(w.d.attempt) && status == w.d.attempt && started == w.d.started
    requires run.state == Cancelling || run.state == Cancelled
    modifies w
    ensures w.Ok()
    ensures old(w.script.Calm? && w.alive && Current(w.d, run)) ==> Settled(w.d) && w.d.run == Cancelled
    ensures old(w.script.Calm?) ==> w.script.Calm?
  {
    assert Open(Calm) && Open(w.d);
    var clean := CleanUp(w, !started && status == RetryableFailure);
    if clean { var _ := CompleteNonSuccess(w, run, AttemptCancelled); }
  }

  /** `recoverNonSuccess`. */
  method RecoverNonSuccess(w: World, run: View, status: AttemptStatus)
    requires w.Ok() && status == w.d.attempt && (status == Blocked || status == TerminalFailure)
    modifies w
    ensures w.Ok()
    ensures old(w.script.Calm? && w.alive && Current(w.d, run) && Closable(w.d, run, status)) ==> Settled(w.d) && w.d.run == EndFor(status)
    ensures old(w.script.Calm?) ==> w.script.Calm?
  {
    assert Open(Calm) && Open(w.d);
    var clean := CleanUp(w, false);
    if clean { var _ := CompleteNonSuccess(w, run, status); }
  }

  /** `cleanupSucceededTerminal`. */
  method CleanupSucceededTerminal(w: World, run: View)
    requires w.Ok() && w.d.attempt == Succeeded
    modifies w
    ensures w.Ok()
    ensures old(w.script.Calm? && w.alive && Current(w.d, run) && NonSuccess(w.d.run)) ==> Settled(w.d) && w.d.run == old(w.d.run)
    ensures old(w.script.Calm?) ==> w.script.Calm?
  {
    assert Open(Calm) && Open(w.d);
    var read, journal := w.GetPublication();
    if !read { return; }
    if journal == Some(Publication.Prepared) || journal == Some(Publication.Published) { return; }
    var known, lease := w.GetLeaseSet();
    if !known || lease == NoLease { return; }
    var moved := QuarantineOr(w, false);
    if !moved { return; }
    var _ := ReleaseIfActive(w, lease);
  }

  /** `replayCompleted`: re-observe the publication and retry the release. */
  method ReplayCompleted(w: World)
    requires w.Ok()
    modifies w
    ensures w.Ok()
    ensures old(w.script.Calm? && w.alive && w.d.run == Completed && !w.d.touched) ==> Settled(w.d) && w.d.run == Completed
    ensures old(w.script.Calm?) ==> w.script.Calm?
  {
    assert Open(Calm) && Open(w.d);
    var read, journal := w.GetPublication();
    if !read || journal != Some(Publication.Published) { return; }
    var known, lease := w.GetLeaseSet();
    if !known || lease == NoLease { return; }
    var _ := w.RecoverPublication();
  }

  /** `rejectRecoveredValidation`. */
  method RejectRecoveredValidation(w: World, run: View, lease: Lease)
    requires w.Ok() && w.d.attempt == Succeeded && w.d.lease == lease && lease != NoLease && w.d.evidence == Some(false)
    modifies w
    ensures w.Ok()
    ensures old(w.script.Calm? && w.alive && Current(w.d, run) && (w.d.run == Running || w.d.run == Validating) && Unfenced(w.d)) ==>
      Settled(w.d) && w.d.run == FailedTerminal && w.d.evidence == old(w.d.evidence)
    ensures old(w.script.Calm?) ==> w.script.Calm?
  {
    assert Open(Calm) && Open(w.d);
    var _ := Abort(w, run, lease == ActiveLease);
  }

  // ---------------------------------------------------------- succeeded attempts

  /** A succeeded attempt with a lease set, seen by a recovery holding `run` and `lease`. */
  ghost predicate Resumable(d: Durable, lease: Lease) {
    d.attempt == Succeeded && d.lease != NoLease && lease != NoLease && (lease == ReleasedLease ==> d.lease == ReleasedLease)
  }

  /** Without a live lease set and without a journal row nothing can be published. */
  method WithoutAuthority(w: World, run: View, lease: Lease)
    requires w.Ok() && Resumable(w.d, lease) && lease == w.d.lease && run.state != Preparing
    modifies w
    ensures w.Ok()
    ensures old(w.script.Calm? && w.alive && Current(w.d, run) && (w.d.run == Running || w.d.run == Validating) && w.d.journal.None?) ==>
      Settled(w.d) && w.d.run == if w.d.evidence == Some(false) then FailedTerminal else FailedRetryable
    ensures old(w.script.Calm? && w.alive && Current(w.d, run) && (w.d.run == Running || w.d.run == Validating) && w.d.journal.None?) ==>
      w.d.evidence == old(w.d.evidence)
    ensures old(w.script.Calm?) ==> w.script.Calm?
  {
    assert Open(Calm);
    var r := w.LoadEvidence();
    if r.Found? && !r.passed {
      RejectRecoveredValidation(w, run, lease);
    } else if r != LoadFailed {
      FailInterrupted(w, run);
    }
  }

  /** What a calm recovery knows when it is about to publish. */
  ghost predicate ReadyToPublish(d: Durable, run: View, journal: Option<Publication.Phase>) {
    && Current(d, run) && d.run == Validating && !d.touched && journal == d.journal
    && (journal.None? ==> d.lease == ActiveLease)
  }

  /** Publish, or finish what the journal started. */
  method Issue(w: World, journal: Option<Publication.Phase>) returns (receipt: bool)
    requires w.Ok() && w.d.attempt == Succeeded && w.d.lease != NoLease && MayPublish(w.d)
    modifies w
    ensures w.Ok() && w.d.attempt == Succeeded && w.d.lease != NoLease && (old(w.d.lease) == ReleasedLease ==> w.d.lease == ReleasedLease)
    ensures receipt ==> w.d.journal == Some(Publication.Published) && w.seen.receipt
    ensures old(w.script.Calm?) ==> w.script.Calm?
    ensures old(w.script.Calm? && w.alive && Issuable(w.d) && journal == w.d.journal) ==>
      && w.alive && Issued(old(w.d), w.d, receipt)
  {
    assert Open(Calm) && Open(w.d);
    if journal.Some? { receipt := w.RecoverPublication(); } else { receipt := w.Publish(); }
  }

  ghost predicate Issuable(d: Durable) { d.run == Validating && !d.touched && (d.journal.None? ==> d.lease == ActiveLease) }

  ghost predicate Issued(a: Durable, b: Durable, receipt: bool) {
    && b.run == a.run && b.version == a.version && b.lease == ReleasedLease && b.evidence == a.evidence
    && receipt == (a.journal.None? || a.ref == AtResult)
    && b.journal == Some(if receipt then Publication.Published else Publication.Abandoned)
  }

  /** Publish, or finish what the journal started, and close the Run accordingly. */
  method Republish(w: World, run: View, lease: Lease, journal: Option<Publication.Phase>)
    requires w.Ok() && Resumable(w.d, lease) && run.state != Preparing && MayPublish(w.d)
    modifies w
    ensures w.Ok()
    ensures old(w.script.Calm? && w.alive && ReadyToPublish(w.d, run, journal)) ==> Settled(w.d) && w.d.evidence == old(w.d.evidence)
    ensures old(w.script.Calm? && w.alive && ReadyToPublish(w.d, run, journal)) ==>
      w.d.run == if journal.None? || old(w.d.ref) == AtResult then Completed else FailedRetryable
    ensures old(w.script.Calm?) ==> w.script.Calm?
  {
    assert Open(Calm) && Open(w.d);
    var receipt := Issue(w, journal);
    if receipt {
      var _ := w.TransitionRun(run.version, Completed);
    } else {
      AfterNoReceipt(w, run, lease);
    }
  }

  method AfterNoReceipt(w: World, run: View, lease: Lease)
    requires w.Ok() && Resumable(w.d, lease) && run.state != Preparing
    modifies w
    ensures w.Ok()
    ensures old(w.script.Calm? && w.alive && Current(w.d, run) && w.d.run == Validating && w.d.journal == Some(Publication.Abandoned)) ==>
      Settled(w.d) && w.d.run == FailedRetryable && w.d.evidence == old(w.d.evidence)
    ensures old(w.script.Calm?) ==> w.script.Calm?
  {
    assert Open(Calm);
    var read, journal := w.GetPublication();
    if read && journal == Some(Publication.Abandoned) {
      FailInterrupted(w, run);
    } else if read && journal == Some(Publication.Conflict) {
      var _ := TerminatePublicationConflict(w, run, lease == ActiveLease);
    }
  }

  /** Stop the heartbeat and refresh both fences before publishing. */
  method RefreshFences(w: World) returns (ok: bool)
    requires w.Ok()
    modifies w`d, w`alive, w`script
    ensures w.Ok() && Env(old(w.d), w.d)
    ensures old(w.script.Calm? && w.alive) ==> w.alive && w.d == old(w.d) && (ok <==> w.d.lease == ActiveLease)
    ensures old(w.script.Calm?) ==> w.script.Calm?
  {
    assert Open(Calm);
    ok := w.Check();
    if !ok { return; }
    ok := w.RenewLeaseSet();
    if !ok { return; }
    ok := w.Check();
  }

  /** Reuse the persisted validation report, or validate again. */
  method Revalidate(w: World) returns (ok: bool, passed: bool)
    requires w.Ok() && MayValidate(w.d)
    modifies w`d, w`alive, w`script
    ensures w.Ok() && SameBut(EvidencePart, old(w.d), w.d) && Cancels(old(w.d), w.d) && (ok ==> w.d.evidence == Some(passed))
    ensures old(w.script.Calm? && w.alive) ==> w.alive && ok && w.d == old(w.d).(evidence := w.d.evidence)
    ensures old(w.script.Calm? && w.alive && w.d.evidence.Some?) ==> w.d.evidence == old(w.d.evidence)
    ensures old(w.script.Calm?) ==> w.script.Calm?
  {
    assert Open(Calm);
    passed := false;
    var r := w.LoadEvidence();
    if r == Missing {
      ok, passed := w.Validate();
    } else {
      ok := r.Found?;
      if ok { passed := r.passed; }
    }
  }

  /** A commit can be had: from the journal, or from a worktree still in place. */
  ghost predicate Rebuildable(d: Durable, run: View, journal: Option<Publication.Phase>) {
    && Current(d, run) && journal == d.journal && (d.run == Running || d.run == Validating)
    && (journal.None? ==> d.tree == LiveTree)
  }

  /** Rebuild the commit and bring the Run to validating. */
  method Rebuild(w: World, run: View, journal: Option<Publication.Phase>) returns (ok: bool, next: View)
    requires w.Ok() && w.d.attempt == Succeeded && run.state != Preparing
    modifies w
    ensures w.Ok() && SameButRun(old(w.d), w.d) && next.state != Preparing
    ensures old(w.script.Calm? && w.alive && Current(w.d, run) && journal.None? && w.d.tree != LiveTree) ==> !ok && w.d == old(w.d)
    ensures old(w.script.Calm? && w.alive && Rebuildable(w.d, run, journal)) ==> w.alive && ok && Current(w.d, next)
    ensures old(w.script.Calm? && w.alive && Rebuildable(w.d, run, journal)) ==> w.d.run == Validating && w.d.touched == old(w.d.touched) && w.d.ref == old(w.d.ref)
    ensures old(w.script.Calm?) ==> w.script.Calm?
  {
    assert Open(Calm) && Open(w.d);
    next := run;
    if journal.None? { ok := w.CreateResultCommit(); } else { ok := w.Check(); }
    if ok && run.state == Running {
      ok := w.TransitionRun(run.version, Validating);
      next := View(Validating, run.version + 1);
    }
  }

  /** A guard runs exactly while the leases live, and a fresh publication needs one. */
  ghost predicate Authorized(d: Durable, run: View, journal: Option<Publication.Phase>, guard: bool) {
    Rebuildable(d, run, journal) && !d.touched && guard == (d.lease == ActiveLease) && (journal.None? ==> guard)
  }

  /** Where a resumed delivery ends: a journal row decides by the ref it finds,
      and without one the validation report does, the persisted one if there is one. */
  predicate Resumed(a: Durable, b: Durable) {
    if a.journal.Some? then b.run == if a.ref == AtResult then Completed else FailedRetryable
    else
      && b.evidence.Some? && (a.evidence.Some? ==> b.evidence == a.evidence)
      && b.run == if b.evidence == Some(true) then Completed else FailedTerminal
  }

  /** Resume under a live lease set, or with a journal row to finish. */
  method Resume(w: World, run: View, lease: Lease, journal: Option<Publication.Phase>, guard: bool)
    requires w.Ok() && Resumable(w.d, lease) && run.state != Preparing && lease == w.d.lease && journal == w.d.journal
    modifies w
    ensures w.Ok()
    ensures old(w.script.Calm? && w.alive && Authorized(w.d, run, journal, guard)) ==> Settled(w.d) && Resumed(old(w.d), w.d)
    ensures old(w.script.Calm? && w.alive && Current(w.d, run) && w.d.tree != LiveTree) && journal.None? ==> w.d == old(w.d)
    ensures old(w.script.Calm?) ==> w.script.Calm?
  {
    assert Open(Calm);
    var ok, next := Rebuild(w, run, journal);
    if !ok { return; }
    if journal.None? {
      var known, passed := Revalidate(w);
      if !known { return; }
      if !passed {
        if guard { var _ := w.Check(); }
        RejectRecoveredValidation(w, next, lease);
        return;
      }
    }
    if guard {
      ok := RefreshFences(w);
      if !ok { return; }
    }
    Republish(w, next, lease, journal);
  }

  /** Where a succeeded attempt under an open Run ends: without authority to publish
      nothing is, and a persisted rejection is final. */
  predicate Reopened(a: Durable, b: Durable) {
    if a.journal.Some? || a.lease == ActiveLease then Resumed(a, b)
    else b.run == if a.evidence == Some(false) then FailedTerminal else FailedRetryable
  }

  /** Where recovery takes a delivery nobody disturbs, by what it finds of it. */
  predicate RecoveredTo(a: Durable, b: Durable) {
    if a.run == Cancelling || a.run == Cancelled then b.run == Cancelled
    else if NotBegun(a.run) then b.run == a.run
    else if !Ended(a.attempt) || a.attempt == RetryableFailure then b.run == FailedRetryable
    else if a.attempt == Blocked then b.run == AwaitingDecision
    else if a.attempt == TerminalFailure then b.run == FailedTerminal
    else if a.run == Running || a.run == Validating then Reopened(a, b)
    else b.run == a.run
  }

  /** `resumeSucceeded`. */
  method ResumeSucceeded(w: World, run: View)
    requires w.Ok() && w.d.attempt == Succeeded && run.state != Preparing
    modifies w
    ensures w.Ok()
    ensures old(w.script.Calm? && w.alive && Current(w.d, run) && w.d.run != Cancelling && !w.d.touched && !Stuck(w.d)) ==>
      Settled(w.d) && RecoveredTo(old(w.d), w.d)
    ensures old(w.script.Calm? && w.alive && Current(w.d, run) && Stuck(w.d)) ==> w.d == old(w.d)
    ensures old(w.script.Calm?) ==> w.script.Calm?
  {
    assert Open(Calm) && Open(w.d);
    if run.state == Completed {
      ReplayCompleted(w);
    } else if run.state == FailedRetryable || run.state == FailedTerminal {
      CleanupSucceededTerminal(w, run);
    } else if run.state == Running || run.state == Validating {
      ResumeOpen(w, run);
    }
  }

  /** The Run is still open: look at the lease set and the journal first. */
  method ResumeOpen(w: World, run: View)
    requires w.Ok() && w.d.attempt == Succeeded && (run.state == Running || run.state == Validating)
    modifies w
    ensures w.Ok()
    ensures old(w.script.Calm? && w.alive && Current(w.d, run) && !w.d.touched && !Stuck(w.d)) ==> Settled(w.d) && Reopened(old(w.d), w.d)
    ensures old(w.script.Calm? && w.alive && Current(w.d, run) && Stuck(w.d)) ==> w.d == old(w.d)
    ensures old(w.script.Calm?) ==> w.script.Calm?
  {
    assert Open(Calm) && Open(w.d);
    var known, lease := w.GetLeaseSet();
    if !known { return; }
    var read, journal := w.GetPublication();
    if !read || lease == NoLease { return; }
    if journal == Some(Publication.Conflict) {
      var _ := TerminatePublicationConflict(w, run, lease == ActiveLease);
      return;
    }
    var guard := false;
    if lease == ActiveLease {
      guard := w.RenewLeaseSet();
      if guard {
        var fenced := w.Check();
        if !fenced { return; }
      }
    }
    if !guard && journal.None? { WithoutAuthority(w, run, lease); } else { Resume(w, run, lease, journal, guard); }
  }

  // ----------------------------------------------------------------- recover

  /** Reconcile an attempt whose scheduler fence was replaced. */
  method Reconcile(w: World, replacement: bool) returns (ok: bool, status: AttemptStatus, started: bool)
    requires w.Ok()
    modifies w
    ensures w.Ok() && SameBut(AttemptPart, old(w.d), w.d) && w.d.started == old(w.d).started && w.seen == old(w.seen)
    ensures w.d.attempt == old(w.d).attempt || (!Ended(old(w.d).attempt) && w.d.attempt == RetryableFailure)
    ensures ok ==> status == w.d.attempt && started == w.d.started
    ensures old(w.script.Calm? && w.alive) ==> w.alive && ok
    ensures old(w.script.Calm? && w.alive) ==>
      w.d == old(w.d).(attempt := if Ended(old(w.d).attempt) || !replacement then old(w.d).attempt else RetryableFailure)
    ensures old(w.script.Calm?) ==> w.script.Calm?
  {
    assert Open(Calm);
    ok, status, started := w.GetAttempt();
    if ok && !Ended(status) && replacement {
      ok := w.ReconcileAbandonedAttempts();
      if ok { ok, status, started := w.GetAttempt(); }
    }
  }

  /** `Recover`; `replacement` says the attempt belongs to another scheduler fence.

      Safety: the invariant, and with it every trace property, survives whatever
      happens. Progress: in a calm world an attempt that has ended, or whose
      scheduler was replaced, is settled, exactly unless it is stuck. */
  method Recover(w: World, replacement: bool)
    requires w.Ok()
    modifies w
    ensures w.Ok()
    ensures old(w.script.Calm? && w.alive && !w.d.touched && !Stuck(w.d) && (Ended(w.d.attempt) || replacement)) ==>
      Settled(w.d) && RecoveredTo(old(w.d), w.d)
    ensures old(w.script.Calm? && w.alive && Stuck(w.d)) ==> w.d == old(w.d) && !Settled(w.d)
    ensures old(w.script.Calm?) ==> w.script.Calm?
  {
    assert Open(Calm) && Open(w.d);
    var authorized := w.Check();
    if !authorized { return; }
    var gotRun, run := w.GetRun();
    if !gotRun { return; }
    var gotAttempt, status, started := Reconcile(w, replacement);
    if !gotAttempt || !Ended(status) { return; }
    assert Open(w.d);
    if run.state == Cancelling || run.state == Cancelled {
      RecoverCancellation(w, run, status, started);
    } else {
      Route(w, run, status);
    }
  }

  /** The recovery path of an ended attempt. A cancelled attempt never gets here:
      it was recorded under a cancelling Run, which is handled before. */
  method Route(w: World, run: View, status: AttemptStatus)
    requires w.Ok() && status == w.d.attempt && Ended(status) && RunFits(run.state, status)
    requires run.state == Preparing ==> !w.seen.launched
    requires run.state != Cancelling && run.state != Cancelled
    modifies w
    ensures w.Ok()
    ensures old(w.script.Calm? && w.alive && Current(w.d, run) && !w.d.touched && !Stuck(w.d)) ==> Settled(w.d) && RecoveredTo(old(w.d), w.d)
    ensures old(w.script.Calm? && w.alive && Current(w.d, run) && Stuck(w.d)) ==> w.d == old(w.d)
    ensures old(w.script.Calm?) ==> w.script.Calm?
  {
    assert Open(Calm) && Open(w.d);
    match status
    case RetryableFailure => FailInterrupted(w, run);
    case AttemptCancelled => assert false;
    case Blocked => RecoverNonSuccess(w, run, status);
    case TerminalFailure => RecoverNonSuccess(w, run, status);
    case Succeeded => ResumeSucceeded(w, run);
  }

  // ------------------------------------------------------- whole histories

  /** Any number of process lifetimes on one attempt: each starts after the last
      one ended or crashed and either executes or recovers the delivery. Whatever
      happens, in the whole history releases follow cleanup, Runs fail only after
      cleanup and complete only after a receipt, and attempts end honestly. */
  method Lifetimes(w: World, n: nat)
    requires w.Ok()
    modifies w
    ensures w.Ok()
    ensures ReleasesFollowCleanup(w.trace) && FailuresFollowCleanup(w.trace)
    ensures CompletionsFollowReceipts(w.trace) && AttemptsEndHonestly(w.trace) && TerminalFailuresHaveReasons(w.trace)
  {
    for i := 0 to n
      invariant w.Ok()
    {
      w.Restart();
      var recovering, replacement: bool := *, *;
      if recovering {
        Recover(w, replacement);
      } else {
        var e := new Execution(w);
        e.Execute();
      }
    }
    ReleaseFollowsCleanup(w.trace);
    FailureFollowsCleanup(w.trace);
    CompletionFollowsReceipt(w.trace);
    AttemptEndsHonestly(w.trace);
    TerminalFailureHasReason(w.trace);
  }

  /** An execution of a new delivery can leave the stuck state, and any number of
      undisturbed recoveries after it leave it there. */
  method StuckIsReachable(version: nat, recoveries: nat) returns (w: World)
    requires version >= 1
    ensures fresh(w) && w.Ok() && Stuck(w.d) && !Settled(w.d)
  {
    w := new World(AtExecute(), version);
    var e := new Execution(w);
    e.Execute();
    for i := 0 to recoveries
      invariant fresh(w) && w.Ok() && Stuck(w.d) && w.script.Calm?
    {
      w.Restart();
      var replacement: bool := *;
      Recover(w, replacement);
    }
  }
}
