/** `Pipeline.Execute`: one approved delivery from queued Run to receipt. */
module Pipeline {
  import opened Cards
  import opened Seqs
  import opened Delivery
  import opened Services
  import Publication

  /** The empty Run a failed transition answers with. */
  const NoRun := View(Draft, 0)

  /** The pipeline's last view of the Run is current. */
  ghost predicate Current(d: Durable, run: View) { run == View(d.run, d.version) }

  /** A Run this attempt status closes. */
  ghost predicate Closable(d: Durable, run: View, status: AttemptStatus) {
    && Current(d, run) && RunFits(run.state, status) && !NotBegun(run.state) && d.journal != Some(Publication.Prepared)
    && d.journal != Some(Publication.Published)
    && (status == AttemptCancelled <==> run.state == Cancelling || run.state == Cancelled)
  }

  /** The Run state that goes with an unsuccessful attempt. */
  function EndFor(status: AttemptStatus): RunState {
    match status
    case Blocked => AwaitingDecision
    case AttemptCancelled => Cancelled
    case TerminalFailure => FailedTerminal
    case _ => FailedRetryable
  }

  /** A blocked attempt parks its Run, by way of validating. */
  method CloseBlocked(w: World, run: View) returns (ok: bool)
    requires w.Ok() && w.d.attempt == Blocked && Clean(w.d)
    modifies w
    ensures w.Ok() && SameButRun(old(w.d), w.d) && w.seen == old(w.seen)
    ensures old(w.script.Calm? && w.alive && Closable(w.d, run, Blocked)) ==> Settled(w.d) && w.d.run == AwaitingDecision && w.d.ref == old(w.d.ref)
    ensures old(w.script.Calm?) ==> w.script.Calm?
  {
    assert Open(w.d) && Open(Calm);
    var v := run;
    if run.state == Running {
      ok := w.TransitionRun(run.version, Validating);
      if !ok { return; }
      v := View(Validating, run.version + 1);
    }
    if v.state == AwaitingDecision { return true; }
    if v.state != Validating { return false; }
    ok := w.TransitionRun(v.version, AwaitingDecision);
  }

  /** Move a cleaned-up Run to a state that ends it. */
  method EndRun(w: World, run: View, target: RunState) returns (ok: bool)
    requires w.Ok() && Ended(w.d.attempt) && Clean(w.d) && NonSuccess(target) && RunFits(target, w.d.attempt)
    requires target == FailedTerminal && w.d.attempt == Succeeded ==> Hopeless(w.d, w.seen)
    modifies w
    ensures w.Ok() && SameButRun(old(w.d), w.d) && w.seen == old(w.seen)
    ensures old(w.script.Calm? && w.alive && Current(w.d, run) && Allowed(w.d.run, target) && Fence(w.d.journal, target)) ==>
      Settled(w.d) && w.d.run == target && w.d.ref == old(w.d.ref)
    ensures old(w.script.Calm?) ==> w.script.Calm?
  {
    assert Open(w.d) && Open(Calm);
    ok := w.TransitionRun(run.version, target);
  }

  predicate Closes(d: Durable, target: RunState) { Fence(d.journal, target) && (d.run == target || Allowed(d.run, target)) }

  /** Close the Run in the state that goes with the attempt, unless it is there already. */
  method CloseIn(w: World, run: View, target: RunState) returns (ok: bool)
    requires w.Ok() && Ended(w.d.attempt) && Clean(w.d) && NonSuccess(target) && RunFits(target, w.d.attempt)
    requires target == FailedTerminal && w.d.attempt == Succeeded ==> Hopeless(w.d, w.seen)
    modifies w
    ensures w.Ok() && SameButRun(old(w.d), w.d) && w.seen == old(w.seen)
    ensures old(w.script.Calm? && w.alive && Current(w.d, run) && Closes(w.d, target)) ==>
      Settled(w.d) && w.d.run == target && w.d.ref == old(w.d.ref)
    ensures old(w.script.Calm?) ==> w.script.Calm?
  {
    if run.state == target { return true; }
    ok := EndRun(w, run, target);
  }

  /** `completeNonSuccess`: close the Run after a cleaned-up attempt. */
  method CompleteNonSuccess(w: World, run: View, status: AttemptStatus) returns (ok: bool)
    requires w.Ok() && Ended(w.d.attempt) && Clean(w.d)
    requires status == AttemptCancelled || (status == w.d.attempt && status != Succeeded)
    modifies w
    ensures w.Ok() && Clean(w.d) && SameButRun(old(w.d), w.d) && w.seen == old(w.seen)
    ensures old(w.script.Calm? && w.alive && Closable(w.d, run, status)) ==>
      Settled(w.d) && w.d.run == EndFor(status) && w.d.ref == old(w.d.ref)
    ensures old(w.script.Calm?) ==> w.script.Calm?
  {
    assert Open(Calm);
    match status
    case Blocked => ok := CloseBlocked(w, run);
    case AttemptCancelled =>
      if run.state != Cancelling && run.state != Cancelled { return false; }
      ok := CloseIn(w, run, Cancelled);
    case RetryableFailure => ok := CloseIn(w, run, FailedRetryable);
    case TerminalFailure => ok := CloseIn(w, run, FailedTerminal);
  }

  /** Move the worktree away, then give live leases back. */
  method Retreat(w: World, leaseActive: bool) returns (ok: bool)
    requires w.Ok() && w.d.attempt == Succeeded && (leaseActive || w.d.lease != ActiveLease)
    modifies w
    ensures w.Ok() && (old(w.d.lease) != NoLease ==> w.d.lease != NoLease)
    ensures w.d.attempt == old(w.d.attempt) && w.d.evidence == old(w.d.evidence)
    ensures w.d.journal == old(w.d.journal) && (ok ==> Clean(w.d)) && (old(w.script.Calm?) ==> w.script.Calm?)
    ensures old(w.script.Calm? && w.alive && w.d.lease != NoLease) ==>
      ok && w.alive && w.d.run == old(w.d.run) && w.d.version == old(w.d.version)
  {
    assert Open(w.d) && Open(Calm);
    var moved := w.Quarantine();
    ok := moved == Moved;
    if ok && leaseActive { ok := w.ReleaseLeaseSet(); }
  }

  /** An open Run with nothing published or about to be. */
  ghost predicate Abortable(d: Durable, run: View) {
    Current(d, run) && (d.run == Running || d.run == Validating) && Fence(d.journal, FailedTerminal) && d.lease != NoLease
  }

  /** Retreat, then fail the Run for good. */
  method Abort(w: World, run: View, leaseActive: bool) returns (ok: bool)
    requires w.Ok() && w.d.attempt == Succeeded && (leaseActive || w.d.lease != ActiveLease)
    requires w.d.evidence == Some(false) || w.d.journal == Some(Publication.Conflict)
    modifies w
    ensures w.Ok() && (old(w.d.lease) != NoLease ==> w.d.lease != NoLease)
    ensures w.d.attempt == old(w.d.attempt) && w.d.evidence == old(w.d.evidence)
    ensures old(w.script.Calm? && w.alive && Abortable(w.d, run)) ==> Settled(w.d) && w.d.run == FailedTerminal
    ensures old(w.script.Calm?) ==> w.script.Calm?
  {
    ok := Retreat(w, leaseActive);
    if ok { ok := EndRun(w, run, FailedTerminal); }
  }

  ghost predicate Conflicted(d: Durable, run: View) {
    Current(d, run) && (d.run == Running || d.run == Validating) && d.journal == Some(Publication.Conflict)
  }

  /** `terminatePublicationConflict`. */
  method TerminatePublicationConflict(w: World, run: View, leaseActive: bool) returns (ok: bool)
    requires w.Ok() && w.d.attempt == Succeeded && (leaseActive || w.d.lease != ActiveLease) && w.d.journal == Some(Publication.Conflict)
    modifies w
    ensures w.Ok() && (old(w.d.lease) != NoLease ==> w.d.lease != NoLease)
    ensures w.d.attempt == old(w.d.attempt) && w.d.evidence == old(w.d.evidence)
    ensures old(w.script.Calm? && w.alive && Conflicted(w.d, run)) ==> Settled(w.d) && w.d.run == FailedTerminal
    ensures old(w.script.Calm?) ==> w.script.Calm?
  {
    assert Open(w.d);
    ok := Abort(w, run, leaseActive);
  }

  // ---------------------------------------------- an execution that gets stuck

  function Plain(): Fate { Fate(false, None, false, Work, None) }
  function Failing(): Fate { Plain().(choice := Fail) }
  function Crashing(): Fate { Plain().(crash := true) }
  function Successful(): Fate { Plain().(report := Some(Report(Succeeded, false, true))) }

  /** The rest of a script, at each step of `Execute`, in which everything goes well
      until the leases are renewed after the worker; that call fails, the cleanup
      moves the worktree away, and the process dies before giving the leases back. */
  function AtCleanup(): Script { Then(Plain(), Then(Crashing(), Calm)) }
  function AtConclude(): Script { Then(Failing(), AtCleanup()) }
  function AtFinish(): Script { Then(Plain(), AtConclude()) }
  function AtWork(): Script { Then(Successful(), Then(Plain(), AtFinish())) }
  function AtStart(): Script { Then(Plain(), Then(Plain(), AtWork())) }
  function AtPrepare(): Script { Then(Plain(), AtStart()) }
  function AtDeliver(): Script { Then(Plain(), Then(Plain(), AtPrepare())) }
  function AtClaim(): Script { Then(Plain(), Then(Plain(), AtDeliver())) }
  function AtExecute(): Script { Then(Plain(), Then(Plain(), Then(Plain(), Then(Plain(), Then(Plain(), AtClaim()))))) }

  /** The script where it matters to a claim about this path, another one elsewhere. */
  ghost function Following(doomed: bool, s: Script): Script { if doomed then s else Then(Failing(), Calm) }

  /** An approved delivery nothing has been done for. */
  predicate Untried(d: Durable) {
    d.run == Queued && d.version >= 1 && d.attempt == AttemptQueued && d.journal.None? && d.lease == NoLease && d.tree == NoTree
  }

  ghost predicate Doomed(w: World) reads w { !w.alive && w.script.Calm? && Stuck(w.d) }

  predicate Halfway(d: Durable, a: AttemptStatus, r: RunState) {
    d.attempt == a && d.run == r && d.journal.None? && d.lease == ActiveLease && d.tree == LiveTree
  }

  // ------------------------------------------------ an execution nobody disturbs

  /** The worker's answer, a failed commit and the end of the last guard stand. */
  predicate SameVerdict(a: Seen, b: Seen) { b.answer == a.answer && b.refused == a.refused && b.held == a.held }

  function Cleaned(d: Durable): Durable { d.(tree := QuarantinedTree, lease := ReleasedLease) }

  /** What a succeeded attempt comes to: the verdict of the independent validation decides. */
  predicate Judged(d: Durable) {
    || (d.evidence == Some(true) && d.run == Completed && d.journal == Some(Publication.Published) && d.ref == AtResult
        && d.lease == ReleasedLease)
    || (d.evidence == Some(false) && d.run == FailedTerminal && d.journal.None? && d.ref == AtPrevious
        && d.lease == ReleasedLease && d.tree == QuarantinedTree)
  }

  /** What an attempt that did not succeed comes to. */
  predicate Dropped(d: Durable, status: AttemptStatus, run: RunState) {
    d.attempt == status && d.run == run && d.journal.None? && d.ref == AtPrevious && d.lease == ReleasedLease && d.tree == QuarantinedTree
  }

  /** What an attempt comes to, by the status recorded for it. */
  predicate Resolved(d: Durable, status: AttemptStatus) {
    if status == Succeeded then d.attempt == Succeeded && Judged(d) else Dropped(d, status, EndFor(status))
  }

  /** What a delivery comes to, by the answer of its worker: a success without an
      error goes on to validation, a blocked or terminally failed attempt closes its
      Run accordingly, and anything unreliable is a retryable failure. */
  predicate Concluded(d: Durable, r: Report) {
    if r.failed || !r.wellFormed || r.status == RetryableFailure || r.status == AttemptCancelled then
      Dropped(d, RetryableFailure, FailedRetryable)
    else if r.status == Blocked then Dropped(d, Blocked, AwaitingDecision)
    else if r.status == TerminalFailure then Dropped(d, TerminalFailure, FailedTerminal)
    else d.attempt == Succeeded && Judged(d)
  }

  /** One call of `Execute`, with the flags its closures share. */
  class Execution {
    const w: World
    var run: View
    var guard: bool
    var leaseOwned: bool
    var prepared: bool
    var attemptStarted: bool
    var attemptTerminal: bool
    var publicationStarted: bool
    var cleanupManaged: bool

    constructor (w: World)
      ensures this.w == w && !guard && !leaseOwned && !prepared && !attemptStarted && !attemptTerminal
      ensures !publicationStarted && !cleanupManaged
    {
      this.w := w;
      run := View(Queued, 0);
      guard, leaseOwned, prepared, attemptStarted, attemptTerminal := false, false, false, false, false;
      publicationStarted, cleanupManaged := false, false;
    }

    /** What the flags mean once the delivery leases are held. */
    ghost predicate Ok()
      reads this, w
    {
      && w.Ok() && !NotBegun(w.d.run) && w.d.lease != NoLease
      && (attemptTerminal ==> Ended(w.d.attempt))
      && (!prepared ==> MayRelease(w.seen) && w.d.tree != LiveTree)
      && (!leaseOwned ==> w.d.lease != ActiveLease)
      && (!attemptStarted ==> !w.seen.launched)
    }

    /** The worktree and the leases are held and the Run is where this execution left it. */
    ghost predicate Going(a: AttemptStatus, r: RunState)
      reads this, w
    {
      w.alive && prepared && leaseOwned && Halfway(w.d, a, r) && Current(w.d, run) && w.d.ref == AtPrevious && w.d.version >= 1
    }

    /** The deferred cleanup has nothing left to do. */
    ghost predicate Done()
      reads this, w
    {
      w.script.Calm? && (publicationStarted || cleanupManaged)
    }

    method HaltGuard() returns (ok: bool)
      requires Ok()
      modifies this`guard, w
      ensures Ok() && SameButRun(old(w.d), w.d) && !guard && (old(!guard) ==> w.seen == old(w.seen))
      ensures old(!guard) ==> w.d == old(w.d) && w.alive == old(w.alive) && w.script == old(w.script)
      ensures forall x: Script {:trigger Open(x)} :: Open(x) && x == old(w.script) ==>
        && (!old(w.alive) ==> !w.alive && w.d == old(w.d) && w.script == x)
        && (old(w.alive) && x == Calm ==> ok && w.alive && w.d == old(w.d) && w.script == x && w.seen.answer == old(w.seen.answer))
    {
      assert Open(w.script);
      ok := true;
      if guard { ok := w.StopGuard(); }
      guard := false;
    }

    /** Quarantine the worktree, or find it absent before any worker ran. */
    method MoveAway() returns (ok: bool)
      requires Ok()
      modifies this`prepared, w
      ensures Ok() && SameBut(TreePart, old(w.d), w.d) && (ok <==> !prepared)
      ensures SameVerdict(old(w.seen), w.seen)
      ensures forall x: Script {:trigger Open(x)} :: Open(x) && x == old(w.script) ==>
        && (!old(w.alive) ==> !w.alive && w.d == old(w.d) && w.script == x)
        && (old(w.alive && prepared && w.d.tree == LiveTree) && x == AtCleanup() ==>
              ok && w.alive && w.script == x.rest && w.d == old(w.d).(tree := QuarantinedTree))
        && (old(w.alive && prepared && w.d.tree == LiveTree) && x == Calm ==>
              ok && w.alive && w.script == x && w.d == old(w.d).(tree := QuarantinedTree))
    {
      assert Open(w.script);
      if prepared {
        var gone := Vacate();
        if gone { prepared := false; }
      }
      ok := !prepared;
    }

    /** The worktree is out of the way: moved, or never there before a worker ran. */
    method Vacate() returns (gone: bool)
      requires w.Ok() && (!attemptStarted ==> !w.seen.launched)
      modifies w
      ensures w.Ok() && SameBut(TreePart, old(w.d), w.d) && Cancels(old(w.d), w.d) && SameVerdict(old(w.seen), w.seen)
      ensures w.seen.launched == old(w.seen.launched) && (gone ==> MayRelease(w.seen) && w.d.tree != LiveTree)
      ensures forall x: Script {:trigger Open(x)} :: Open(x) && x == old(w.script) ==>
        && (!old(w.alive) ==> !w.alive && w.d == old(w.d) && w.script == x)
        && (old(w.alive) && Smooth(x) ==> w.alive && w.script == Rest(x))
        && (old(w.alive && w.d.tree == LiveTree) && Smooth(x) ==> gone && w.d == old(w.d).(tree := QuarantinedTree))
    {
      assert Open(w.script);
      var moved := w.Quarantine();
      gone := moved == Moved || (moved == NotFound && !attemptStarted);
    }

    method GiveBack() returns (ok: bool)
      requires Ok() && !prepared
      modifies this`leaseOwned, w
      ensures Ok() && SameBut(LeasePart, old(w.d), w.d) && (ok <==> !leaseOwned) && w.seen == old(w.seen)
      ensures forall x: Script {:trigger Open(x)} :: Open(x) && x == old(w.script) ==>
        && (!old(w.alive) ==> !w.alive && w.d == old(w.d) && w.script == x)
        && (old(w.alive && leaseOwned) && x == AtCleanup().rest ==> !w.alive && w.script.Calm? && w.d == old(w.d) && !ok)
        && (old(w.alive && leaseOwned) && x == Calm ==>
              ok && w.alive && w.script == x && w.d == old(w.d).(lease := ReleasedLease))
    {
      assert Open(w.script);
      if leaseOwned {
        var released := w.ReleaseLeaseSet();
        if released { leaseOwned := false; }
      }
      ok := !leaseOwned;
    }

    /** The leases follow the worktree. */
    method PutBack() returns (ok: bool)
      requires Ok()
      modifies this`prepared, this`leaseOwned, w
      ensures Ok() && w.d.attempt == old(w.d.attempt) && w.d.journal == old(w.d.journal) && (ok ==> Clean(w.d))
      ensures w.d.evidence == old(w.d.evidence) && SameVerdict(old(w.seen), w.seen)
      ensures forall x: Script {:trigger Open(x)} :: Open(x) && x == old(w.script) ==>
        && (!old(w.alive) ==> !w.alive && w.d == old(w.d) && w.script == x)
        && (old(w.alive && prepared && leaseOwned && Halfway(w.d, Succeeded, Running)) && x == AtCleanup() ==> !ok && Doomed(w))
        && (old(w.alive && prepared && leaseOwned && w.d.tree == LiveTree) && x == Calm ==>
              ok && w.alive && w.script == x && w.d == Cleaned(old(w.d)))
    {
      ghost var doomed := !w.alive || w.script == AtCleanup() || w.script == Calm;
      assert Open(Following(doomed, w.script));
      var moved := MoveAway();
      ok := false;
      assert Open(Following(doomed, w.script));
      if moved { ok := GiveBack(); }
    }

    /** Prove quarantine or pre-worker absence, then give the leases back. */
    method Cleanup() returns (ok: bool)
      requires Ok()
      modifies this`guard, this`prepared, this`leaseOwned, this`cleanupManaged, w
      ensures Ok() && w.d.attempt == old(w.d.attempt) && w.d.journal == old(w.d.journal) && w.d.evidence == old(w.d.evidence)
      ensures ok ==> Clean(w.d) && cleanupManaged
      ensures old(!guard) ==> SameVerdict(old(w.seen), w.seen)
      ensures forall x: Script {:trigger Open(x)} :: Open(x) && x == old(w.script) ==>
        && (!old(w.alive) ==> !w.alive && w.d == old(w.d) && w.script == x)
        && (old(w.alive && prepared && leaseOwned && !guard && Halfway(w.d, Succeeded, Running)) && x == AtCleanup() ==>
              !ok && Doomed(w))
        && (old(w.alive && prepared && leaseOwned && w.d.tree == LiveTree) && x == Calm ==>
              ok && w.alive && w.script == x && w.d == Cleaned(old(w.d)) && w.seen.answer == old(w.seen.answer))
    {
      ghost var doomed := !w.alive || w.script == AtCleanup() || w.script == Calm;
      assert Open(Following(doomed, w.script));
      ok := HaltGuard();
      assert Open(Following(doomed, w.script));
      var released := PutBack();
      ok := ok && released;
      if ok { cleanupManaged := true; }
      assert !old(w.alive) ==> !w.alive && w.d == old(w.d) && w.script == old(w.script);
      assert old(w.alive && prepared && leaseOwned && !guard && Halfway(w.d, Succeeded, Running) && w.script == AtCleanup()) ==>
        !ok && Doomed(w);
    }

    /** Renew the delivery leases, then the scheduler fence. */
    method Refresh() returns (ok: bool)
      requires Ok()
      modifies w
      ensures Ok() && SameButRun(old(w.d), w.d) && w.seen == old(w.seen)
      ensures forall x: Script {:trigger Open(x)} :: Open(x) && x == old(w.script) ==>
        && (old(w.alive) && x == AtConclude() ==> !ok && w.alive && w.script == x.rest && w.d == old(w.d))
        && (old(w.alive && w.d.lease == ActiveLease) && x == AtDeliver() ==>
              ok && w.alive && w.script == AtPrepare() && w.d == old(w.d))
        && (old(w.alive && w.d.lease == ActiveLease) && x == Calm ==> ok && w.alive && w.script == x && w.d == old(w.d))
    {
      ghost var doomed := w.script == AtConclude() || w.script == AtDeliver() || w.script == Calm;
      assert Open(Following(doomed, w.script));
      ok := w.RenewLeaseSet();
      assert Open(Following(doomed, w.script));
      if ok { ok := w.Check(); }
    }

    method FailAfterCleanup(target: RunState)
      requires Ok() && NonSuccess(target) && (attemptTerminal ==> RunFits(target, w.d.attempt))
      requires target == FailedTerminal ==> !guard && Hopeless(w.d, w.seen)
      modifies this`guard, this`prepared, this`leaseOwned, this`cleanupManaged, w
      ensures Ok()
      ensures forall x: Script {:trigger Open(x)} :: Open(x) && x == old(w.script) ==>
        && (old(w.alive && prepared && leaseOwned && !guard && Halfway(w.d, Succeeded, Running)) && x == AtCleanup() ==>
              Doomed(w))
        && (old(Going(w.d.attempt, w.d.run) && attemptTerminal && Allowed(w.d.run, target)) && x == Calm ==>
              Done() && w.d == Cleaned(old(w.d)).(run := target, version := old(w.d).version + 1) && w.seen.answer == old(w.seen.answer))
    {
      ghost var doomed := w.script == AtCleanup() || w.script == Calm;
      assert Open(Following(doomed, w.script));
      var ok := Cleanup();
      assert Open(Following(doomed, w.script));
      if ok && attemptTerminal { FailRun(target); }
    }

    /** Move a cleaned-up Run to where the failure belongs. */
    method FailRun(target: RunState)
      requires Ok() && attemptTerminal && Clean(w.d) && NonSuccess(target) && RunFits(target, w.d.attempt)
      requires target == FailedTerminal ==> Hopeless(w.d, w.seen)
      modifies w
      ensures Ok()
      ensures forall x: Script {:trigger Open(x)} :: Open(x) && x == old(w.script) ==>
        && (!old(w.alive) ==> !w.alive && w.d == old(w.d) && w.script == x)
        && (old(w.alive && Current(w.d, run) && w.d.version >= 1 && w.d.journal.None? && Allowed(w.d.run, target)) && x == Calm ==>
              w.script == x && w.d == old(w.d).(run := target, version := old(w.d).version + 1) && w.seen.answer == old(w.seen.answer))
    {
      assert Open(w.script);
      var _ := w.TransitionRun(run.version, target);
    }

    method Execute()
      requires w.Ok() && !leaseOwned && !prepared && !attemptStarted && !attemptTerminal && !guard
      modifies this, w
      ensures w.Ok()
      ensures old(w.script == AtExecute() && w.alive && Untried(w.d)) ==> Doomed(w)
      ensures old(w.script.Calm? && w.alive && Untried(w.d) && !w.d.touched) ==>
        w.seen.answer.Some? && Concluded(w.d, w.seen.answer.value)
    {
      ghost var doomed := w.script == AtExecute() || w.script == Calm;
      assert Open(w.d);
      assert Open(Following(doomed, w.script));
      var begun := Begin();
      if begun {
        assert Open(Following(doomed, w.script));
        var failed := Deliver();
        assert Open(Following(doomed, w.script));
        // The deferred cleanup of an execution that failed before publishing.
        if failed && !publicationStarted && !cleanupManaged { var _ := Cleanup(); }
      }
    }

    /** Authorization, approved state and scheduler fence. */
    method Approve() returns (ok: bool, view: View)
      requires w.Ok()
      modifies w
      ensures w.Ok() && w.seen == old(w.seen)
      ensures ok ==> w.d.attempt == AttemptQueued && view.state == Queued
      ensures forall x: Script {:trigger Open(x)} :: Open(x) && x == old(w.script) ==>
        (old(w.alive && Untried(w.d)) && (x == AtExecute() || x == Calm) ==>
           ok && view == View(w.d.run, w.d.version) && w.alive && w.d == old(w.d) && w.script == if x == Calm then x else AtClaim())
    {
      ghost var doomed := w.script == AtExecute() || w.script == Calm;
      view := NoRun;
      assert Open(Following(doomed, w.script));
      ok := w.Check();
      if !ok { return; }
      assert Open(Following(doomed, w.script));
      ok, view := w.GetRun();
      if !ok { return; }
      assert Open(Following(doomed, w.script));
      var got, status, _ := w.GetAttempt();
      if !got || view.state != Queued || status != AttemptQueued { return false, view; }
      assert Open(Following(doomed, w.script));
      ok := w.Check();
      if !ok { return; }
      assert Open(Following(doomed, w.script));
      ok := w.Check();
    }

    /** The Run goes to preparing, then the delivery leases are taken. */
    method Begin() returns (ok: bool)
      requires w.Ok() && !leaseOwned && !prepared && !attemptStarted && !attemptTerminal && !guard
      modifies this`run, this`leaseOwned, w
      ensures w.Ok()
      ensures ok ==> Ok() && leaseOwned && !w.d.started && w.d.attempt == AttemptQueued && run.state == Preparing
      ensures forall x: Script {:trigger Open(x)} :: Open(x) && x == old(w.script) ==>
        (old(w.alive && Untried(w.d)) && (x == AtExecute() || x == Calm) ==>
           && ok && w.alive && w.script == (if x == Calm then x else AtDeliver()) && Current(w.d, run)
           && w.d == old(w.d).(run := Preparing, version := old(w.d).version + 1, lease := ActiveLease))
    {
      ghost var doomed := w.script == AtExecute() || w.script == Calm;
      assert Open(Following(doomed, w.script));
      var view;
      ok, view := Approve();
      if !ok { return; }
      assert Open(Following(doomed, w.script));
      ok := Claim(view);
    }

    method Claim(view: View) returns (ok: bool)
      requires w.Ok() && !leaseOwned && !prepared && !attemptStarted && !attemptTerminal && !guard
      requires w.d.attempt == AttemptQueued && view.state == Queued
      modifies this`run, this`leaseOwned, w
      ensures w.Ok()
      ensures ok ==> Ok() && leaseOwned && !w.d.started && w.d.attempt == AttemptQueued && run.state == Preparing
      ensures forall x: Script {:trigger Open(x)} :: Open(x) && x == old(w.script) ==>
        (old(w.alive && Untried(w.d)) && Current(old(w.d), view) && (x == AtClaim() || x == Calm) ==>
           && ok && w.alive && w.script == (if x == Calm then x else AtDeliver()) && Current(w.d, run)
           && w.d == old(w.d).(run := Preparing, version := old(w.d).version + 1, lease := ActiveLease))
    {
      ghost var doomed := w.script == AtClaim() || w.script == Calm;
      assert Open(w.d) && Open(Following(doomed, w.script));
      ok := w.TransitionRun(view.version, Preparing);
      if !ok { return; }
      run := View(Preparing, view.version + 1);
      assert Open(Following(doomed, w.script));
      ok := w.AcquireLeaseSet();
      leaseOwned := ok;
    }

    /** Refresh authority, prepare the worktree, start the attempt, then the worker. */
    method Deliver() returns (failed: bool)
      requires Ok() && leaseOwned && !prepared && !attemptStarted && !attemptTerminal && !guard && run.state == Preparing
      requires !w.d.started && w.d.attempt == AttemptQueued
      modifies this, w
      ensures Ok()
      ensures forall x: Script {:trigger Open(x)} :: Open(x) && x == old(w.script) ==>
        && (old(w.alive && Current(w.d, run) && w.d.journal.None? && w.d.tree == NoTree && w.d.lease == ActiveLease) && x == AtDeliver() ==>
              Doomed(w))
        && (old(w.alive && Current(w.d, run) && w.d.journal.None? && w.d.tree == NoTree && w.d.lease == ActiveLease
                && w.d.ref == AtPrevious && w.d.version >= 1) && x == Calm ==>
              (Done() || !failed) && w.seen.answer.Some? && Concluded(w.d, w.seen.answer.value))
    {
      ghost var doomed := w.script == AtDeliver() || w.script == Calm;
      assert Open(Following(doomed, w.script));
      failed := true;
      var refreshed := Refresh();
      if !refreshed { FailAfterCleanup(FailedRetryable); return; }
      guard, prepared := true, true;
      assert Open(w.d) && Open(Following(doomed, w.script));
      var ready := w.Prepare();
      if !ready { FailAfterCleanup(FailedRetryable); return; }
      assert Open(Following(doomed, w.script));
      failed := Start();
    }

    /** Start the durable attempt and move the Run to running. */
    method Start() returns (failed: bool)
      requires Ok() && leaseOwned && prepared && !attemptStarted && !attemptTerminal && w.d.tree == LiveTree
      modifies this, w
      ensures Ok()
      ensures forall x: Script {:trigger Open(x)} :: Open(x) && x == old(w.script) ==>
        && (old(w.alive && Current(w.d, run) && Halfway(w.d, AttemptQueued, Preparing)) && x == AtStart() ==>
              Doomed(w))
        && (old(Going(AttemptQueued, Preparing)) && x == Calm ==>
              (Done() || !failed) && w.seen.answer.Some? && Concluded(w.d, w.seen.answer.value))
    {
      ghost var doomed := w.script == AtStart() || w.script == Calm;
      assert Open(Following(doomed, w.script));
      failed := true;
      var started := w.StartAttempt();
      if !started { FailAfterCleanup(FailedRetryable); return; }
      attemptStarted := true;
      assert Open(Following(doomed, w.script));
      failed := Launch();
    }

    method Launch() returns (failed: bool)
      requires Ok() && leaseOwned && prepared && attemptStarted && !attemptTerminal && w.d.attempt == AttemptRunning && w.d.started
      modifies this, w
      ensures Ok()
      ensures forall x: Script {:trigger Open(x)} :: Open(x) && x == old(w.script) ==>
        && (old(w.alive && Current(w.d, run) && Halfway(w.d, AttemptRunning, Preparing)) && x == Then(Plain(), AtWork()) ==> Doomed(w))
        && (old(Going(AttemptRunning, Preparing)) && x == Calm ==>
              (Done() || !failed) && w.seen.answer.Some? && Concluded(w.d, w.seen.answer.value))
    {
      ghost var doomed := w.script == Then(Plain(), AtWork()) || w.script == Calm;
      failed := true;
      assert Open(w.d) && Open(Following(doomed, w.script));
      var moved := w.TransitionRun(run.version, Running);
      if moved {
        run := View(Running, run.version + 1);
        assert Open(Following(doomed, w.script));
        failed := Work();
      } else {
        run := NoRun;
        GiveUp();
      }
    }

    /** Record an infrastructure failure as the attempt's end, then clean up and fail the Run. */
    method GiveUp()
      requires Ok() && w.d.attempt == AttemptRunning
      modifies this, w
      ensures Ok()
      ensures forall x: Script {:trigger Open(x)} :: Open(x) && x == old(w.script) ==>
        (old(Going(AttemptRunning, Running)) && x == Calm ==>
           Done() && Dropped(w.d, RetryableFailure, FailedRetryable) && w.seen.answer == old(w.seen.answer))
    {
      assert Open(Calm);
      var finished := w.FinishAttempt(RetryableFailure);
      if finished {
        attemptTerminal := true;
        FailAfterCleanup(FailedRetryable);
      }
    }

    /** A running worker: what is known until its attempt is finished. */
    ghost predicate Worked()
      reads this, w
    {
      Ok() && attemptStarted && prepared && leaseOwned && !attemptTerminal && w.d.attempt == AttemptRunning
      && (w.d.run == Running || w.d.run == Cancelling)
    }

    /** Run the worker, stop its guard, settle on a durable attempt status, and go on if it succeeded. */
    method Work() returns (failed: bool)
      requires Worked() && w.d.started
      modifies this, w
      ensures Ok()
      ensures forall x: Script {:trigger Open(x)} :: Open(x) && x == old(w.script) ==>
        && (old(w.alive && Halfway(w.d, AttemptRunning, Running)) && x == AtWork() ==> Doomed(w))
        && (old(Going(AttemptRunning, Running)) && x == Calm ==>
              (Done() || !failed) && w.seen.answer.Some? && Concluded(w.d, w.seen.answer.value))
    {
      ghost var doomed := w.script == AtWork() || w.script == Calm;
      assert Open(Following(doomed, w.script));
      var status, workerFailed, wellFormed := w.RunWorker();
      assert Open(Following(doomed, w.script));
      var held := w.StopGuard();
      guard := false;
      assert Open(Following(doomed, w.script));
      failed := Judge(status, workerFailed, wellFormed, held);
    }

    /** Settle on a durable status: a lost guard, an unreliable answer or a
        cancellation nobody asked for becomes a retryable failure. */
    method Judge(answer: AttemptStatus, workerErred: bool, valid: bool, held: bool) returns (failed: bool)
      requires Worked() && !guard && Ended(answer)
      requires held && valid && (workerErred ==> answer == AttemptCancelled) ==> Earned(w.seen, answer)
      modifies this, w
      ensures Ok()
      ensures forall x: Script {:trigger Open(x)} :: Open(x) && x == old(w.script) ==>
        && (old(w.alive && Halfway(w.d, AttemptRunning, Running)) && answer == Succeeded && !workerErred && valid && held && x == AtFinish() ==>
              Doomed(w))
        && (old(Going(AttemptRunning, Running)) && held && x == Calm ==>
              (Done() || !failed) && Concluded(w.d, Report(answer, workerErred, valid)) && w.seen.answer == old(w.seen.answer))
    {
      ghost var doomed := w.script == AtFinish() || w.script == Calm;
      var status, workerFailed, wellFormed := answer, workerErred, valid;
      if !held {
        status, workerFailed, wellFormed := RetryableFailure, true, true;
      } else if workerFailed && status != RetryableFailure && status != AttemptCancelled {
        status, wellFormed := RetryableFailure, true;
      }
      if status == AttemptCancelled {
        assert Open(Following(doomed, w.script));
        var gotRun, current := w.GetRun();
        if gotRun && (current.state == Cancelling || current.state == Cancelled) {
          run := current;
        } else {
          status, workerFailed, wellFormed := RetryableFailure, true, true;
        }
      }
      assert Open(Following(doomed, w.script));
      failed := Finish(status, workerFailed, !held, wellFormed);
    }

    method Finish(status: AttemptStatus, workerFailed: bool, guardLost: bool, wellFormed: bool) returns (failed: bool)
      requires Worked() && (wellFormed ==> MayEnd(w.d, w.seen, status))
      requires workerFailed ==> status == RetryableFailure || status == AttemptCancelled
      requires guardLost ==> status == RetryableFailure
      modifies this, w
      ensures Ok()
      ensures forall x: Script {:trigger Open(x)} :: Open(x) && x == old(w.script) ==>
        && (old(w.alive && !guard && Halfway(w.d, AttemptRunning, Running)) && status == Succeeded && wellFormed && x == AtFinish() ==>
              Doomed(w))
        && (old(Going(AttemptRunning, Running)) && !guardLost && status != AttemptCancelled && x == Calm ==>
              (Done() || !failed) && Resolved(w.d, if wellFormed then status else RetryableFailure) && w.seen.answer == old(w.seen.answer))
    {
      ghost var doomed := w.script == AtFinish() || w.script == Calm;
      assert Open(w.d) && Open(Following(doomed, w.script));
      failed := true;
      if !wellFormed { GiveUp(); return; }
      var finished := w.FinishAttempt(status);
      if !finished { return; }
      attemptTerminal := true;
      assert Open(Following(doomed, w.script));
      failed := Follow(status, workerFailed, guardLost);
    }

    /** Close a Run whose attempt did not succeed, or go on with its result. */
    method Follow(status: AttemptStatus, workerFailed: bool, guardLost: bool) returns (failed: bool)
      requires Ok() && attemptStarted && attemptTerminal && prepared && leaseOwned && w.d.attempt == status && w.d.journal.None?
      requires workerFailed ==> status == RetryableFailure || status == AttemptCancelled
      requires guardLost ==> status == RetryableFailure
      modifies this, w
      ensures Ok()
      ensures forall x: Script {:trigger Open(x)} :: Open(x) && x == old(w.script) ==>
        && (old(w.alive && !guard && Halfway(w.d, Succeeded, Running)) && status == Succeeded && x == AtConclude() ==> Doomed(w))
        && (old(Going(status, Running)) && !guardLost && status != AttemptCancelled && x == Calm ==>
              (Done() || !failed) && Resolved(w.d, status) && w.seen.answer == old(w.seen.answer))
    {
      ghost var doomed := w.script == AtConclude() || w.script == Calm;
      assert Open(Following(doomed, w.script));
      failed := true;
      if guardLost {
        FailAfterCleanup(FailedRetryable);
      } else if workerFailed || status != Succeeded {
        Close(status);
      } else {
        failed := Conclude();
      }
    }

    /** Clean up after an unsuccessful attempt, then close its Run. */
    method Close(status: AttemptStatus)
      requires Ok() && attemptTerminal && w.d.attempt == status && status != Succeeded
      modifies this, w
      ensures Ok()
      ensures forall x: Script {:trigger Open(x)} :: Open(x) && x == old(w.script) ==>
        (old(Going(status, Running)) && status != AttemptCancelled && x == Calm ==>
           Done() && Dropped(w.d, status, EndFor(status)) && w.seen.answer == old(w.seen.answer))
    {
      assert Open(Calm);
      var clean := Cleanup();
      if clean { var _ := CompleteNonSuccess(w, run, status); }
      assert Open(w.d);
    }

    /** A succeeded attempt whose worktree and leases are still held. */
    ghost predicate Succeeding()
      reads this, w
    {
      Ok() && attemptStarted && attemptTerminal && prepared && leaseOwned && w.d.attempt == Succeeded
    }

    /** The delivery ended as its validation says; the worker's answer stands. */
    ghost predicate CameThrough(answer: Option<Report>, failed: bool)
      reads this, w
    {
      (Done() || !failed) && w.d.attempt == Succeeded && Judged(w.d) && w.seen.answer == answer
    }

    /** Refresh authority, commit and validate the result, then publish it. */
    method Conclude() returns (failed: bool)
      requires Succeeding() && w.d.journal.None?
      modifies this, w
      ensures Ok()
      ensures forall x: Script {:trigger Open(x)} :: Open(x) && x == old(w.script) ==>
        && (old(w.alive && !guard && Halfway(w.d, Succeeded, Running)) && x == AtConclude() ==> Doomed(w))
        && (old(Going(Succeeded, Running)) && x == Calm ==> CameThrough(old(w.seen.answer), failed))
    {
      ghost var doomed := w.script == AtConclude() || w.script == Calm;
      assert Open(Following(doomed, w.script));
      failed := true;
      var refreshed := Refresh();
      assert Open(Following(doomed, w.script));
      if !refreshed { FailAfterCleanup(FailedRetryable); return; }
      guard := true;
      failed := Commit();
    }

    /** Build the result commit; a commit refused for its content fails for good. */
    method Commit() returns (failed: bool)
      requires Succeeding() && w.d.journal.None?
      modifies this, w
      ensures Ok()
      ensures forall x: Script {:trigger Open(x)} :: Open(x) && x == old(w.script) ==>
        (old(Going(Succeeded, Running)) && x == Calm ==> CameThrough(old(w.seen.answer), failed))
    {
      assert Open(Calm);
      failed := true;
      var committed := w.CreateResultCommit();
      if !committed { CommitRefused(); return; }
      var moved := w.TransitionRun(run.version, Validating);
      if !moved { run := NoRun; return; }
      run := View(Validating, run.version + 1);
      failed := Validate();
    }

    method CommitRefused()
      requires Succeeding() && (w.alive ==> w.seen.refused)
      modifies this, w
      ensures Ok()
    {
      var guarded := w.StopGuard();
      guard := false;
      var interrupted: bool := *;
      FailAfterCleanup(if !guarded || interrupted then FailedRetryable else FailedTerminal);
    }

    method Validate() returns (failed: bool)
      requires Succeeding() && w.d.journal.None?
      modifies this, w
      ensures Ok()
      ensures forall x: Script {:trigger Open(x)} :: Open(x) && x == old(w.script) ==>
        (old(Going(Succeeded, Validating)) && x == Calm ==> CameThrough(old(w.seen.answer), failed))
    {
      assert Open(Calm);
      failed := true;
      var validated, passed := w.Validate();
      if !validated { FailAfterCleanup(FailedRetryable); return; }
      if passed { failed := Publish(); } else {
        var clean := Cleanup();
        if clean { FailRun(FailedTerminal); }
      }
    }

    /** Stop the guard, refresh authority one last time, publish and complete. */
    method Publish() returns (failed: bool)
      requires Succeeding() && w.d.journal.None? && w.d.evidence == Some(true)
      modifies this, w
      ensures Ok()
      ensures forall x: Script {:trigger Open(x)} :: Open(x) && x == old(w.script) ==>
        (old(Going(Succeeded, Validating)) && x == Calm ==> CameThrough(old(w.seen.answer), failed))
    {
      assert Open(Calm);
      failed := true;
      var guarded := HaltGuard();
      if !guarded { FailAfterCleanup(FailedRetryable); return; }
      var refreshed := Refresh();
      if !refreshed { FailAfterCleanup(FailedRetryable); return; }
      failed := Submit();
    }

    method Submit() returns (failed: bool)
      requires Succeeding() && w.d.journal.None? && w.d.evidence == Some(true)
      modifies this, w
      ensures Ok()
      ensures forall x: Script {:trigger Open(x)} :: Open(x) && x == old(w.script) ==>
        (old(Going(Succeeded, Validating)) && x == Calm ==> CameThrough(old(w.seen.answer), failed))
    {
      assert Open(Calm);
      var receipt := w.Publish();
      failed := true;
      if receipt {
        publicationStarted := true;
        leaseOwned := w.d.lease == ActiveLease;
        assert Open(w.d);
        var completed := w.TransitionRun(run.version, Completed);
        failed := !completed;
      } else {
        Unpublished();
      }
    }

    /** No receipt: only a positive absence proof of the journal row permits ordinary cleanup. */
    method Unpublished()
      requires Succeeding()
      modifies this, w
      ensures Ok()
    {
      var known, journal := w.GetPublication();
      publicationStarted := !known || journal.Some?;
      if known && journal == Some(Publication.Conflict) {
        cleanupManaged := true;
        var _ := TerminatePublicationConflict(w, run, true);
        assert Open(w.d);
      } else if !publicationStarted {
        FailAfterCleanup(FailedRetryable);
      }
    }
  }
}
