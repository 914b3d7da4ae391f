/** The durable pieces of a governed delivery attempt, the invariant that ties
    them together, and the trace properties the pipeline must keep. */
module Delivery {
  import opened Cards
  import opened Seqs
  import Publication

  datatype RunState =
    | Draft | AwaitingApproval | Queued | Preparing | Running | Validating | AwaitingDecision | Completed
    | Cancelling | Cancelled | FailedRetryable | FailedTerminal

  /** `runstate.allowedTransitions`. */
  predicate Allowed(from: RunState, to: RunState) {
    match from
    case Draft => to == AwaitingApproval || to == Cancelling
    case AwaitingApproval => to == Queued || to == Cancelling
    case Queued => to == Preparing || to == Cancelling
    case Preparing => to == Running || to == Cancelling || to == FailedRetryable || to == FailedTerminal
    case Running => to == Validating || to == Cancelling || to == FailedRetryable || to == FailedTerminal
    case Validating =>
      to == AwaitingDecision || to == Completed || to == Cancelling || to == FailedRetryable || to == FailedTerminal
    case AwaitingDecision => to == Queued || to == Completed || to == Cancelling || to == FailedTerminal
    case FailedRetryable => to == Queued || to == Cancelling
    case Cancelling => to == Cancelled
    case Completed => false
    case Cancelled => false
    case FailedTerminal => false
  }

  /** A history of allowed moves from a new Run. */
  ghost predicate RunPath(path: seq<RunState>) {
    path != [] && path[0] == Draft && forall i :: 0 < i < |path| ==> Allowed(path[i-1], path[i])
  }

  /** States a Run reaches only through the given stage, unless it is stopped. */
  predicate Beyond(stage: RunState, r: RunState) {
    match stage
    case AwaitingApproval => r !in {Draft, AwaitingApproval, Cancelling, Cancelled}
    case Queued => r !in {Draft, AwaitingApproval, Queued, Cancelling, Cancelled}
    case Preparing => r in {Running, Validating, AwaitingDecision, Completed, FailedRetryable, FailedTerminal}
    case Running => r in {Validating, AwaitingDecision, Completed}
    case Validating => r in {AwaitingDecision, Completed}
    case _ => false
  }

  lemma {:induction false} StagePassed(path: seq<RunState>, i: nat, stage: RunState) returns (j: nat)
    requires RunPath(path) && i < |path| && Beyond(stage, path[i])
    ensures j < i && path[j] == stage
  {
    assert Allowed(path[i-1], path[i]);
    if path[i-1] == stage { j := i - 1; } else { j := StagePassed(path, i - 1, stage); }
  }

  /** A completed Run has awaited approval, been queued, prepared, run and validated, in that order. */
  lemma CompletionIsEarned(path: seq<RunState>, i: nat) returns (a: nat, q: nat, p: nat, r: nat, v: nat)
    requires RunPath(path) && i < |path| && path[i] == Completed
    ensures a < q < p < r < v < i && path[a] == AwaitingApproval && path[q] == Queued
    ensures path[p] == Preparing && path[r] == Running && path[v] == Validating
  {
    v := StagePassed(path, i, Validating);
    r := StagePassed(path, v, Running);
    p := StagePassed(path, r, Preparing);
    q := StagePassed(path, p, Queued);
    a := StagePassed(path, q, AwaitingApproval);
  }

  /** Nothing follows a Run that completed, was cancelled or failed for good. */
  lemma EndsAreFinal(path: seq<RunState>, i: nat)
    requires RunPath(path) && i + 1 < |path|
    ensures path[i] !in {Completed, Cancelled, FailedTerminal}
  {
    assert Allowed(path[i + 1 - 1], path[i + 1]);
  }

  datatype AttemptStatus =
    | AttemptQueued | AttemptRunning | Succeeded | Blocked | RetryableFailure | TerminalFailure | AttemptCancelled

  predicate Ended(a: AttemptStatus) { a != AttemptQueued && a != AttemptRunning }

  datatype Lease = NoLease | ActiveLease | ReleasedLease
  datatype Tree = NoTree | LiveTree | QuarantinedTree
  datatype Place = AtPrevious | AtResult | Elsewhere

  /** Everything that survives a crash. `evidence` is the persisted validation
      report (passed or not); `touched` records that an outside writer moved the ref. */
  datatype Durable = Durable(
    run: RunState, version: nat, attempt: AttemptStatus, started: bool, lease: Lease,
    journal: Option<Publication.Phase>, ref: Place, tree: Tree, evidence: Option<bool>, touched: bool)

  /** The fence between the journal and Run transitions. */
  predicate Fence(journal: Option<Publication.Phase>, to: RunState) {
    journal != Some(Publication.Prepared) && (journal == Some(Publication.Published) ==> to == Completed)
  }

  // -------------------------------------------------------------------- trace

  /** A worker's answer; `failed` says that its supervisor reported an error. */
  datatype Report = Report(status: AttemptStatus, failed: bool, wellFormed: bool)

  datatype Event =
    | PrepareCalled
    | WorkerLaunched
    | WorkerReturned(report: Report)
    | GuardStopped(lost: bool)
    | CommitFailed
    | QuarantineSucceeded
    | AbsentReported
    | ReleaseIssued
    | ReceiptReturned
    | AttemptEnded(end: AttemptStatus, run: RunState)
    | RunMoved(to: RunState, at: Durable)

  /** What a trace has shown: which events occurred, the last answer of a worker,
      and whether the guard was stopped after it, and after the last failed commit,
      without having lost its leases. */
  datatype Seen = Seen(
    prepared: bool, launched: bool, quarantined: bool, absent: bool, receipt: bool, refused: bool, answer: Option<Report>, held: bool)

  function Noted(m: Seen, e: Event): Seen {
    match e
    case PrepareCalled => m.(prepared := true)
    case WorkerLaunched => m.(launched := true)
    case WorkerReturned(report) => m.(answer := Some(report), held := false)
    case GuardStopped(lost) => m.(held := !lost)
    case CommitFailed => m.(refused := true, held := false)
    case QuarantineSucceeded => m.(quarantined := true)
    case AbsentReported => m.(absent := true)
    case ReceiptReturned => m.(receipt := true)
    case ReleaseIssued => m
    case AttemptEnded(_, _) => m
    case RunMoved(_, _) => m
  }

  function Unseen(): Seen { Seen(false, false, false, false, false, false, None, false) }

  /** What the first `i` events show. */
  function SeenTo(t: seq<Event>, i: nat): Seen
    requires i <= |t|
  {
    if i == 0 then Unseen() else Noted(SeenTo(t, i - 1), t[i - 1])
  }

  function SeenIn(t: seq<Event>): Seen { SeenTo(t, |t|) }

  /** A Run state that ends a delivery without publication. */
  predicate NonSuccess(r: RunState) {
    r == FailedRetryable || r == FailedTerminal || r == Cancelled || r == AwaitingDecision
  }

  predicate Clean(d: Durable) { d.lease != ActiveLease && d.tree != LiveTree }

  /** What must have happened before the pipeline itself gives its leases back. */
  predicate MayRelease(m: Seen) { m.quarantined || !m.prepared || (m.absent && !m.launched) }

  /** A status other than a retryable failure is the worker's own well-formed
      answer under a guard that held; only a cancellation may come with an error. */
  predicate Earned(m: Seen, status: AttemptStatus) {
    m.held && m.answer.Some? && m.answer.value.status == status && m.answer.value.wellFormed
    && (m.answer.value.failed ==> status == AttemptCancelled)
  }

  /** A succeeded attempt is given up for good only when its validation rejected it,
      another writer took the ref, or its commit failed while its leases were held. */
  predicate Hopeless(d: Durable, m: Seen) {
    d.evidence == Some(false) || d.journal == Some(Publication.Conflict) || (m.refused && m.held)
  }

  predicate SafeEvent(m: Seen, e: Event) {
    match e
    case ReleaseIssued => MayRelease(m)
    case RunMoved(to, at) =>
      && (NonSuccess(to) ==> Ended(at.attempt) && Clean(at))
      && (to == FailedTerminal && at.attempt == Succeeded ==> Hopeless(at, m))
      && (to == Completed ==> at.journal == Some(Publication.Published) && at.evidence == Some(true) && m.receipt)
    case AttemptEnded(status, run) =>
      && (status != RetryableFailure ==> Earned(m, status))
      && (status == AttemptCancelled ==> run == Cancelling || run == Cancelled)
    case _ => true
  }

  /** Every event of the trace was safe when it happened. */
  ghost predicate Safe(t: seq<Event>) { forall i {:trigger SafeAt(t, i)} :: 0 <= i < |t| ==> SafeAt(t, i) }

  ghost predicate SafeAt(t: seq<Event>, i: nat)
    requires i < |t|
  {
    SafeEvent(SeenTo(t, i), t[i])
  }

  lemma {:induction false} SeenKept(t: seq<Event>, e: Event, i: nat)
    requires i <= |t|
    ensures SeenTo(t + [e], i) == SeenTo(t, i)
  {
    if i > 0 {
      SeenKept(t, e, i - 1);
      assert (t + [e])[i - 1] == t[i - 1];
    }
  }

  lemma SafeGrows(t: seq<Event>, e: Event)
    requires Safe(t)
    ensures SeenIn(t + [e]) == Noted(SeenIn(t), e)
    ensures SafeEvent(SeenIn(t), e) ==> Safe(t + [e])
  {
    var u := t + [e];
    SeenKept(t, e, |t|);
    if SafeEvent(SeenIn(t), e) {
      forall i | 0 <= i < |u| ensures SafeAt(u, i) {
        SeenKept(t, e, i);
        if i < |t| { assert SafeAt(t, i); }
      }
    }
  }

  // ---------------------------------------------------------------- invariant

  predicate NotBegun(r: RunState) { r == Draft || r == AwaitingApproval || r == Queued }

  /** Which Run states an attempt status can meet. */
  predicate RunFits(r: RunState, a: AttemptStatus) {
    match a
    case AttemptQueued => NotBegun(r) || r == Preparing || r == Cancelling
    case AttemptRunning => r == Preparing || r == Running || r == Cancelling
    case Succeeded =>
      r == Running || r == Validating || r == Completed || r == FailedRetryable || r == FailedTerminal || r == Cancelling || r == Cancelled
    case Blocked => r == Running || r == Validating || r == AwaitingDecision || r == Cancelling || r == Cancelled
    case RetryableFailure =>
      NotBegun(r) || r == Preparing || r == Running || r == FailedRetryable || r == Cancelling || r == Cancelled
    case TerminalFailure => r == Running || r == FailedTerminal || r == Cancelling || r == Cancelled
    case AttemptCancelled => r == Cancelling || r == Cancelled
  }

  /** Without outside writers the ref is where the journal says. */
  predicate RefFits(journal: Option<Publication.Phase>, ref: Place) {
    && ref != Elsewhere
    && (journal.None? || journal.value == Publication.Abandoned ==> ref == AtPrevious)
    && (journal == Some(Publication.Published) ==> ref == AtResult)
    && journal != Some(Publication.Conflict)
  }

  predicate AttemptFits(d: Durable) {
    && (d.attempt == AttemptQueued ==> !d.started)
    && (Ended(d.attempt) && d.attempt != RetryableFailure ==> d.started)
    && (d.attempt == AttemptRunning || d.run == Running ==> d.started)
    && RunFits(d.run, d.attempt)
  }

  predicate JournalFits(d: Durable) {
    && (d.journal.Some? ==> d.attempt == Succeeded && d.lease != NoLease && d.evidence == Some(true))
    && (d.journal == Some(Publication.Prepared) ==> d.run == Validating)
    && (d.journal == Some(Publication.Published) ==> d.run == Validating || d.run == Completed)
    && (d.run == Completed ==> d.journal == Some(Publication.Published))
    && (d.run == Running ==> d.journal.None?)
    && (!d.touched ==> RefFits(d.journal, d.ref))
  }

  predicate TreeFits(d: Durable, m: Seen) {
    && (d.lease == NoLease ==> !m.prepared)
    && (!m.prepared ==> d.tree == NoTree)
    && (d.tree == QuarantinedTree ==> m.quarantined)
    && (m.launched ==> d.started && !NotBegun(d.run) && d.run != Preparing)
    && (d.started ==> d.tree != NoTree)
  }

  /** What holds of the durable pieces at every moment, crashes included. */
  predicate Inv(d: Durable, m: Seen) {
    && d.version >= 1 && AttemptFits(d) && JournalFits(d) && TreeFits(d, m)
    && (NotBegun(d.run) ==> d.lease == NoLease)
    && (NonSuccess(d.run) ==> Ended(d.attempt) && Clean(d))
  }

  /** The invariant, unfolded only for states a proof names with `Open`. */
  ghost predicate Sound(d: Durable, m: Seen) { forall x: Durable {:trigger Open(x)} :: Open(x) && x == d ==> Inv(x, m) }

  // ------------------------------------------------------------- environment

  /** An outsider may cancel the Run, as the fence allows, and move the ref. */
  predicate Cancels(a: Durable, b: Durable) {
    || (b.run == a.run && b.version == a.version)
    || (Allowed(a.run, Cancelling) && Fence(a.journal, Cancelling) && b.run == Cancelling && b.version == a.version + 1)
  }

  /** All but the fields an outsider may touch. */
  predicate SameButRun(a: Durable, b: Durable) {
    && b.attempt == a.attempt && b.started == a.started && b.lease == a.lease
    && b.journal == a.journal && b.tree == a.tree && b.evidence == a.evidence
  }

  datatype Part = AttemptPart | LeasePart | JournalPart | TreePart | EvidencePart

  /** All but one part and the fields an outsider may touch. */
  predicate SameBut(p: Part, a: Durable, b: Durable) {
    && (p != AttemptPart ==> b.attempt == a.attempt && b.started == a.started)
    && (p != LeasePart && p != JournalPart ==> b.lease == a.lease)
    && (p != JournalPart ==> b.journal == a.journal)
    && (p != TreePart ==> b.tree == a.tree)
    && (p != EvidencePart ==> b.evidence == a.evidence)
  }

  predicate Env(a: Durable, b: Durable) {
    && SameButRun(a, b) && Cancels(a, b)
    && (a.touched ==> b.touched) && (b.ref != a.ref ==> b.touched)
  }

  lemma EnvKeepsInv(a: Durable, b: Durable, m: Seen)
    requires Sound(a, m) && Env(a, b)
    ensures Sound(b, m)
  {
    assert Open(a);
  }

  // --------------------------------------------------------------- Run moves

  /** What the pipeline must know before it asks for a Run transition. */
  predicate MayMove(d: Durable, m: Seen, to: RunState) {
    && RunFits(to, d.attempt) && !NotBegun(to) && to != Cancelling
    && (NonSuccess(to) ==> Ended(d.attempt) && Clean(d))
    && (to == FailedTerminal && d.attempt == Succeeded ==> Hopeless(d, m))
    && (to == Completed ==> d.journal == Some(Publication.Published) && m.receipt)
    && (to == Preparing ==> !m.launched)
    && (to == Running ==> d.journal.None? && d.started)
  }

  lemma MoveKeepsInv(d: Durable, m: Seen, to: RunState)
    requires Sound(d, m) && MayMove(d, m, to) && Allowed(d.run, to) && Fence(d.journal, to)
    ensures Sound(d.(run := to, version := d.version + 1), m) && SafeEvent(m, RunMoved(to, d))
  {
    assert Open(d);
  }

  // ----------------------------------------------------------------- settled

  /** Nothing is left to do for this attempt. */
  predicate Settled(d: Durable) {
    || (d.run == Completed && d.journal == Some(Publication.Published) && d.lease == ReleasedLease)
    || (NonSuccess(d.run) && Ended(d.attempt) && Clean(d))
    || (NotBegun(d.run) && d.lease == NoLease && d.tree == NoTree)
  }

  /** The one family recovery cannot settle while the leases live: the attempt
      succeeded and nothing was journaled, but a cleanup stopped between moving
      the worktree away and giving the leases back. Recovery then tries to build
      the commit from a worktree that is gone. */
  predicate Stuck(d: Durable) {
    && d.attempt == Succeeded && (d.run == Running || d.run == Validating) && d.journal.None?
    && d.lease == ActiveLease && d.tree == QuarantinedTree
  }

  // --------------------------------------------------------- what traces say

  /** Every release the pipeline issues follows a quarantine of the attempt, or
      nothing was ever prepared, or the worktree was reported absent and no worker
      process had been launched. */
  ghost predicate ReleasesFollowCleanup(t: seq<Event>) {
    forall i :: 0 <= i < |t| && t[i] == ReleaseIssued ==>
      || (exists j :: 0 <= j < i && t[j] == QuarantineSucceeded)
      || (forall j :: 0 <= j < i ==> t[j] != PrepareCalled)
      || ((exists j :: 0 <= j < i && t[j] == AbsentReported) && forall j :: 0 <= j < i ==> t[j] != WorkerLaunched)
  }

  /** A Run is completed only after a published receipt was returned, and only when
      the independent validation passed. */
  ghost predicate CompletionsFollowReceipts(t: seq<Event>) {
    forall i :: 0 <= i < |t| && t[i].RunMoved? && t[i].to == Completed ==>
      && t[i].at.journal == Some(Publication.Published) && t[i].at.evidence == Some(true)
      && exists j :: 0 <= j < i && t[j] == ReceiptReturned
  }

  /** A Run is failed, cancelled or parked only when its attempt has durably ended
      and cleanup has given the leases back and moved the worktree away. */
  ghost predicate FailuresFollowCleanup(t: seq<Event>) {
    forall i :: 0 <= i < |t| && t[i].RunMoved? && NonSuccess(t[i].to) ==>
      Ended(t[i].at.attempt) && t[i].at.lease != ActiveLease && t[i].at.tree != LiveTree
  }

  /** A succeeded attempt fails its Run for good only for one of three reasons. */
  ghost predicate TerminalFailuresHaveReasons(t: seq<Event>) {
    forall i :: 0 <= i < |t| && t[i].RunMoved? && t[i].to == FailedTerminal && t[i].at.attempt == Succeeded ==>
      || t[i].at.evidence == Some(false) || t[i].at.journal == Some(Publication.Conflict)
      || (exists j, k :: 0 <= j < k < i && t[j] == CommitFailed && t[k] == GuardStopped(false))
  }

  /** Events `j` and `k` before `i` are the last answer of a worker, without an
      error unless it is a cancellation, and the healthy end of its guard. */
  ghost predicate EarnedAt(t: seq<Event>, i: nat, j: nat, k: nat, status: AttemptStatus)
    requires i <= |t|
  {
    && j < k < i && t[j].WorkerReturned? && t[j].report.status == status && t[j].report.wellFormed
    && (t[j].report.failed ==> status == AttemptCancelled) && t[k] == GuardStopped(false)
    && forall m :: j < m < i ==> !t[m].WorkerReturned? && (t[m].GuardStopped? ==> m <= k)
  }

  /** An attempt is recorded with what its worker answered under a guard that held,
      or else as a retryable failure; as cancelled only under a cancelled Run. */
  ghost predicate AttemptsEndHonestly(t: seq<Event>) {
    forall i :: 0 <= i < |t| && t[i].AttemptEnded? ==>
      && (t[i].end != RetryableFailure ==> exists j, k :: EarnedAt(t, i, j, k, t[i].end))
      && (t[i].end == AttemptCancelled ==> t[i].run == Cancelling || t[i].run == Cancelled)
  }

  ghost predicate Occurs(t: seq<Event>, i: nat, e: Event)
    requires i <= |t|
  {
    exists j :: 0 <= j < i && t[j] == e
  }

  /** One mark, read off the trace. */
  function Mark(m: Seen, e: Event): bool {
    match e
    case PrepareCalled => m.prepared
    case WorkerLaunched => m.launched
    case QuarantineSucceeded => m.quarantined
    case AbsentReported => m.absent
    case ReceiptReturned => m.receipt
    case CommitFailed => m.refused
    case _ => false
  }

  predicate Marking(e: Event) {
    e.PrepareCalled? || e.WorkerLaunched? || e.QuarantineSucceeded? || e.AbsentReported? || e.ReceiptReturned? || e.CommitFailed?
  }

  /** The marks mean what their names say. */
  lemma {:induction false} MarkMeans(t: seq<Event>, i: nat, e: Event)
    requires i <= |t| && Marking(e)
    ensures Mark(SeenTo(t, i), e) <==> Occurs(t, i, e)
  {
    if i > 0 {
      MarkMeans(t, i - 1, e);
    }
  }

  lemma SeenMeans(t: seq<Event>, i: nat)
    requires i <= |t|
    ensures var m := SeenTo(t, i);
      && (m.prepared <==> Occurs(t, i, PrepareCalled)) && (m.launched <==> Occurs(t, i, WorkerLaunched))
      && (m.quarantined <==> Occurs(t, i, QuarantineSucceeded)) && (m.absent <==> Occurs(t, i, AbsentReported))
      && (m.receipt <==> Occurs(t, i, ReceiptReturned))
  {
    MarkMeans(t, i, PrepareCalled);
    MarkMeans(t, i, WorkerLaunched);
    MarkMeans(t, i, QuarantineSucceeded);
    MarkMeans(t, i, AbsentReported);
    MarkMeans(t, i, ReceiptReturned);
  }

  lemma ReleaseFollowsCleanup(t: seq<Event>)
    requires Safe(t)
    ensures ReleasesFollowCleanup(t)
  {
    forall i | 0 <= i < |t| && t[i] == ReleaseIssued
      ensures || (exists j :: 0 <= j < i && t[j] == QuarantineSucceeded)
        || (forall j :: 0 <= j < i ==> t[j] != PrepareCalled)
        || ((exists j :: 0 <= j < i && t[j] == AbsentReported) && forall j :: 0 <= j < i ==> t[j] != WorkerLaunched) {
      assert SafeAt(t, i);
      SeenMeans(t, i);
    }
  }

  lemma CompletionFollowsReceipt(t: seq<Event>)
    requires Safe(t)
    ensures CompletionsFollowReceipts(t)
  {
    forall i | 0 <= i < |t| && t[i].RunMoved? && t[i].to == Completed
      ensures t[i].at.journal == Some(Publication.Published) && t[i].at.evidence == Some(true) && exists j :: 0 <= j < i && t[j] == ReceiptReturned {
      assert SafeAt(t, i);
      SeenMeans(t, i);
    }
  }

  lemma FailureFollowsCleanup(t: seq<Event>)
    requires Safe(t)
    ensures FailuresFollowCleanup(t)
  {
    forall i | 0 <= i < |t| && t[i].RunMoved? && NonSuccess(t[i].to)
      ensures Ended(t[i].at.attempt) && t[i].at.lease != ActiveLease && t[i].at.tree != LiveTree {
      assert SafeAt(t, i);
    }
  }

  lemma AnswerStands(m: Seen, e: Event)
    requires !e.WorkerReturned?
    ensures Noted(m, e).answer == m.answer && (!e.GuardStopped? && !e.CommitFailed? ==> Noted(m, e).held == m.held)
  {
    match e
    case PrepareCalled =>
    case WorkerLaunched =>
    case GuardStopped(_) =>
    case CommitFailed =>
    case QuarantineSucceeded =>
    case AbsentReported =>
    case ReceiptReturned =>
    case ReleaseIssued =>
    case AttemptEnded(_, _) =>
    case RunMoved(_, _) =>
  }

  /** Where the last answer of a prefix is. */
  lemma {:induction false} AnswerAt(t: seq<Event>, i: nat) returns (j: nat)
    requires i <= |t| && SeenTo(t, i).answer.Some?
    ensures j < i && t[j] == WorkerReturned(SeenTo(t, i).answer.value)
    ensures forall m :: j < m < i ==> !t[m].WorkerReturned?
  {
    var last := t[i - 1];
    if last.WorkerReturned? {
      j := i - 1;
    } else {
      AnswerStands(SeenTo(t, i - 1), last);
      j := AnswerAt(t, i - 1);
    }
  }

  /** Where the guard was stopped after an answer or a failed commit. */
  lemma {:induction false} GuardAt(t: seq<Event>, i: nat, j: nat) returns (k: nat)
    requires j < i <= |t| && SeenTo(t, i).held && (t[j].WorkerReturned? || t[j].CommitFailed?)
    ensures j < k < i && t[k] == GuardStopped(false)
    ensures forall m :: k < m < i ==> !t[m].GuardStopped?
  {
    var last := t[i - 1];
    if last.GuardStopped? {
      k := i - 1;
    } else {
      assert !last.WorkerReturned? && !last.CommitFailed?;
      AnswerStands(SeenTo(t, i - 1), last);
      k := GuardAt(t, i - 1, j);
    }
  }

  lemma AttemptEndsHonestly(t: seq<Event>)
    requires Safe(t)
    ensures AttemptsEndHonestly(t)
  {
    forall i | 0 <= i < |t| && t[i].AttemptEnded?
      ensures t[i].end != RetryableFailure ==> exists j, k :: EarnedAt(t, i, j, k, t[i].end)
      ensures t[i].end == AttemptCancelled ==> t[i].run == Cancelling || t[i].run == Cancelled {
      assert SafeAt(t, i);
      if t[i].end != RetryableFailure {
        var j := AnswerAt(t, i);
        var k := GuardAt(t, i, j);
        assert EarnedAt(t, i, j, k, t[i].end);
      }
    }
  }

  lemma TerminalFailureHasReason(t: seq<Event>)
    requires Safe(t)
    ensures TerminalFailuresHaveReasons(t)
  {
    forall i | 0 <= i < |t| && t[i].RunMoved? && t[i].to == FailedTerminal && t[i].at.attempt == Succeeded
      ensures || t[i].at.evidence == Some(false) || t[i].at.journal == Some(Publication.Conflict)
        || (exists j, k :: 0 <= j < k < i && t[j] == CommitFailed && t[k] == GuardStopped(false)) {
      assert SafeAt(t, i);
      var m := SeenTo(t, i);
      if m.refused && m.held {
        MarkMeans(t, i, CommitFailed);
        var j :| 0 <= j < i && t[j] == CommitFailed;
        var k := GuardAt(t, i, j);
      }
    }
  }
}
