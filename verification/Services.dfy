/** The services a pipeline calls, as one world shared by every run and restart.

    Each call first lets the environment act and the process crash, then does its
    work, fails, or does its work and loses the reply. A crashed process stays
    silent: its later calls reach nothing. What befalls the coming calls is the
    world's script, any finite list of fates; after it the world is calm, nothing
    fails and nobody interferes. No service assumes anything of its caller; what a caller
    must respect for the invariant to survive is the antecedent of a guarantee. */
module Services {
  import opened Cards
  import opened Seqs
  import opened Delivery
  import Publication

  datatype Choice = Work | Fail | Lost
  datatype View = View(state: RunState, version: nat)
  /** What befalls one call: an outsider cancels the Run or moves the ref, the
      process crashes, the call fails or loses its reply; `report` is what a
      worker answers when it is given. */
  datatype Fate = Fate(cancel: bool, move: Option<Place>, crash: bool, choice: Choice, report: Option<Report>)

  datatype Script = Calm | Then(fate: Fate, rest: Script)

  function Rest(s: Script): Script { if s.Calm? then s else s.rest }

  /** How a call leaves the process and the script. */
  predicate Passes(x: Script, was: bool, script: Script, alive: bool) {
    && script == (if was then Rest(x) else x) && (!was ==> !alive) && (was && Smooth(x) ==> alive)
  }

  /** No outsider acts before the next call. */
  predicate Quiet(s: Script) { s.Then? ==> !s.fate.cancel && s.fate.move.None? }

  /** The next call fails and nothing else happens. */
  predicate Refused(s: Script) { s.Then? && Quiet(s) && !s.fate.crash && s.fate.choice == Fail }

  /** The process dies before the next call. */
  predicate Fatal(s: Script) { s.Then? && Quiet(s) && s.fate.crash }

  /** Nothing disturbs the next call. */
  predicate Smooth(s: Script) { s.Then? ==> Quiet(s) && !s.fate.crash && s.fate.choice == Work }

  predicate IsMove(e: Event, to: RunState) { e.RunMoved? && e.to == to }

  datatype Moving = Moved | NotFound | MoveFailed
  datatype Loaded = Found(passed: bool) | Missing | LoadFailed

  // ----------------------------------------------- value-level preservation

  lemma MayMoveAfterEnv(a: Durable, d: Durable, m: Seen, to: RunState)
    requires Env(a, d) && MayMove(a, m, to)
    ensures MayMove(d, m, to)
  {}

  predicate MayAcquire(d: Durable) { !NotBegun(d.run) && !NonSuccess(d.run) && d.run != Completed }

  lemma AcquireKeepsInv(d: Durable, m: Seen)
    requires Sound(d, m) && MayAcquire(d) && d.lease == NoLease
    ensures Sound(d.(lease := ActiveLease), m)
  {
    assert Open(d);
  }

  predicate MayPrepare(d: Durable) { d.lease != NoLease && !NonSuccess(d.run) && !d.started }

  lemma PrepareKeepsInv(d: Durable, m: Seen, tree: Tree)
    requires Sound(d, m) && MayPrepare(d) && (tree == d.tree || (d.tree == NoTree && tree == LiveTree))
    ensures Sound(d.(tree := tree), m.(prepared := true))
  {
    assert Open(d);
  }

  predicate MayStart(d: Durable) { d.tree != NoTree && !NotBegun(d.run) }

  lemma StartKeepsInv(d: Durable, m: Seen)
    requires Sound(d, m) && MayStart(d) && d.attempt == AttemptQueued
    ensures Sound(d.(attempt := AttemptRunning, started := true), m)
  {
    assert Open(d);
  }

  predicate MayLaunch(d: Durable) { d.started && !NotBegun(d.run) && d.run != Preparing }

  lemma LaunchKeepsInv(d: Durable, m: Seen, report: Report)
    requires Sound(d, m) && MayLaunch(d)
    ensures Sound(d, m.(launched := true, answer := Some(report), held := false))
  {
    assert Open(d);
  }

  lemma GuardKeepsInv(d: Durable, m: Seen, held: bool)
    requires Sound(d, m)
    ensures Sound(d, m.(held := held))
  {
    assert Open(d);
  }

  lemma RefusalKeepsInv(d: Durable, m: Seen)
    requires Sound(d, m)
    ensures Sound(d, m.(refused := true, held := false))
  {
    assert Open(d);
  }

  predicate MayEnd(d: Durable, m: Seen, status: AttemptStatus) {
    && Ended(status)
    && (status != RetryableFailure ==> Earned(m, status) && (d.run == Running || d.run == Cancelling || d.run == Cancelled))
    && (status == AttemptCancelled ==> d.run == Cancelling || d.run == Cancelled)
  }

  lemma EndKeepsInv(d: Durable, m: Seen, status: AttemptStatus)
    requires Sound(d, m) && MayEnd(d, m, status) && d.attempt == AttemptRunning
    ensures Sound(d.(attempt := status), m) && SafeEvent(m, AttemptEnded(status, d.run))
  {
    assert Open(d);
  }

  lemma ReconcileKeepsInv(d: Durable, m: Seen)
    requires Sound(d, m) && !Ended(d.attempt)
    ensures Sound(d.(attempt := RetryableFailure), m)
  {
    assert Open(d);
  }

  lemma QuarantineKeepsInv(d: Durable, m: Seen)
    requires Sound(d, m)
    ensures d.tree != NoTree ==> Sound(d.(tree := QuarantinedTree), m.(quarantined := true))
    ensures Sound(d, m.(absent := true))
  {
    assert Open(d);
  }

  lemma ReleaseKeepsInv(d: Durable, m: Seen, lease: Lease)
    requires Sound(d, m) && (lease == d.lease || (d.lease == ActiveLease && lease == ReleasedLease))
    ensures Sound(d.(lease := lease), m)
  {
    assert Open(d);
  }

  /** A report is not replaced once something is journaled on it. */
  predicate MayValidate(d: Durable) { d.journal.None? }

  lemma EvidenceKeepsInv(d: Durable, m: Seen, passed: bool)
    requires Sound(d, m) && MayValidate(d)
    ensures Sound(d.(evidence := Some(passed)), m)
  {
    assert Open(d);
  }

  /** The effects a publication call can have, as `PublicationEffects.CallsPublish`
      derives them from the publication protocol: the row only advances, the ref only moves from the approved previous
      commit to the result, a receipt needs a published row, and leases are given
      back only once the row is published or abandoned. A row appears only under
      a validating Run, a succeeded attempt and live leases. */
  predicate Publishes(a: Durable, b: Durable, receipt: bool) {
    && b == a.(journal := b.journal, ref := b.ref, lease := b.lease)
    && (a.journal != b.journal ==>
          if a.journal.None? then a.run == Validating && a.attempt == Succeeded && a.lease == ActiveLease && b.journal.Some?
          else a.journal.value == Publication.Prepared && b.journal.Some?)
    && (a.ref != b.ref ==> a.ref == AtPrevious && b.ref == AtResult && b.journal.Some?)
    && (!b.touched && RefFits(a.journal, a.ref) ==> RefFits(b.journal, b.ref))
    && (a.lease != b.lease ==>
          b.lease == ReleasedLease && b.journal.Some? && b.journal.value in {Publication.Published, Publication.Abandoned})
    && (receipt ==> b.journal == Some(Publication.Published))
  }

  /** Only a result whose persisted report passed is handed to the publisher. */
  predicate MayPublish(d: Durable) { d.journal.None? ==> d.evidence == Some(true) }

  lemma PublishKeepsInv(a: Durable, b: Durable, receipt: bool, m: Seen)
    requires Sound(a, m) && MayPublish(a) && Publishes(a, b, receipt)
    ensures Sound(b, m) && Sound(b, m.(receipt := true))
  {
    assert Open(a);
  }

  /** What a publication does when nothing disturbs it, by `PublicationEffects.PublishableLeads`. */
  predicate Publishable(d: Durable) {
    d.journal.None? && d.run == Validating && d.attempt == Succeeded && d.lease == ActiveLease && d.ref == AtPrevious
  }

  function PublishedFrom(d: Durable): Durable {
    d.(journal := Some(Publication.Published), ref := AtResult, lease := ReleasedLease)
  }

  /** What a publication recovery does, by `PublicationEffects.FinishableLeads` and `AbandonableLeads`. */
  predicate Finishable(d: Durable) {
    d.journal.Some? && d.journal.value in {Publication.Prepared, Publication.Published} && d.ref == AtResult && d.lease != NoLease
  }

  predicate Abandonable(d: Durable) {
    d.journal.Some? && d.journal.value in {Publication.Prepared, Publication.Abandoned} && d.ref == AtPrevious && d.lease != NoLease
  }

  function AbandonedFrom(d: Durable): Durable { d.(journal := Some(Publication.Abandoned), lease := ReleasedLease) }

  // ------------------------------------------------------------------- world

  class World {
    var d: Durable
    var alive: bool
    var script: Script
    ghost var trace: seq<Event>
    ghost var seen: Seen

    ghost predicate Ok() reads this { Safe(trace) && seen == SeenIn(trace) && Sound(d, seen) }

    /** A new delivery: an approved queued Run, its queued attempt, and nothing else. */
    constructor (script: Script, version: nat)
      requires version >= 1
      ensures Ok() && alive && trace == [] && seen == Unseen() && this.script == script
      ensures d == Durable(Queued, version, AttemptQueued, false, NoLease, None, AtPrevious, NoTree, None, false)
    {
      this.script := script;
      d := Durable(Queued, version, AttemptQueued, false, NoLease, None, AtPrevious, NoTree, None, false);
      alive := true;
      trace, seen := [], Unseen();
    }

    /** The trace grows by one event. */
    ghost method Note(e: Event)
      modifies this`trace, this`seen
      ensures trace == old(trace) + [e] && seen == Noted(old(seen), e)
      ensures old(Safe(trace) && seen == SeenIn(trace)) && SafeEvent(old(seen), e) ==> Safe(trace) && seen == SeenIn(trace)
    {
      if Safe(trace) { SafeGrows(trace, e); }
      trace, seen := trace + [e], Noted(seen, e);
    }

    /** A new process after a crash. */
    method Restart()
      modifies this`alive
      ensures alive
    {
      alive := true;
    }

    /** What outsiders do before a call. */
    method Disturb(f: Fate)
      modifies this`d
      ensures Env(old(d), d) && (old(Ok()) ==> Ok())
      ensures !f.cancel && f.move.None? ==> d == old(d)
    {
      if f.cancel && Allowed(d.run, Cancelling) && Fence(d.journal, Cancelling) {
        d := d.(run := Cancelling, version := d.version + 1);
      }
      if f.move.Some? { d := d.(ref := f.move.value, touched := true); }
      if old(Ok()) { EnvKeepsInv(old(d), d, seen); }
    }

    /** The environment's move, then this call's fate. */
    method Turn() returns (c: Choice)
      modifies this`d, this`alive, this`script
      ensures Env(old(d), d) && (old(Ok()) ==> Ok()) && (c != Fail ==> alive && old(alive))
      ensures forall x: Script {:trigger Open(x)} :: Open(x) && x == old(script) ==>
        && Passes(x, old(alive), script, alive)
        && (!old(alive) ==> c == Fail && d == old(d))
        && (old(alive) && Quiet(x) ==> d == old(d) && alive == !(x.Then? && x.fate.crash))
        && (old(alive) && x.Then? && !x.fate.crash ==> c == x.fate.choice)
        && (old(alive) && Smooth(x) ==> c == Work)
    {
      assert Open(script);
      c := Fail;
      if alive && script.Calm? {
        c := Work;
      } else if alive {
        var f := script.fate;
        Disturb(f);
        script := script.rest;
        if f.crash { alive := false; } else { c := f.choice; }
      }
    }

    // ---------------------------------------------------------------- reads

    method Check() returns (ok: bool)
      modifies this`d, this`alive, this`script
      ensures Env(old(d), d) && (old(Ok()) ==> Ok())
      ensures forall x: Script {:trigger Open(x)} :: Open(x) && x == old(script) ==>
        && Passes(x, old(alive), script, alive)
        && (!old(alive) ==> !ok && d == old(d))
        && (old(alive) && Smooth(x) ==> ok && d == old(d))
        && (old(alive) && Refused(x) ==> alive && !ok && d == old(d))
    {
      assert Open(script);
      var c := Turn();
      ok := c == Work;
    }

    method GetRun() returns (ok: bool, view: View)
      modifies this`d, this`alive, this`script
      ensures Env(old(d), d) && (old(Ok()) ==> Ok()) && (ok ==> view == View(d.run, d.version))
      ensures forall x: Script {:trigger Open(x)} :: Open(x) && x == old(script) ==>
        && Passes(x, old(alive), script, alive)
        && (!old(alive) ==> !ok && d == old(d))
        && (old(alive) && Smooth(x) ==> ok && d == old(d))
    {
      assert Open(script);
      ok := Check();
      view := View(d.run, d.version);
    }

    /** Reads of the attempt, the lease set and the journal return what is stored. */
    method GetAttempt() returns (ok: bool, status: AttemptStatus, started: bool)
      modifies this`d, this`alive, this`script
      ensures Env(old(d), d) && (old(Ok()) ==> Ok()) && (ok ==> status == d.attempt && started == d.started)
      ensures forall x: Script {:trigger Open(x)} :: Open(x) && x == old(script) ==>
        && Passes(x, old(alive), script, alive)
        && (!old(alive) ==> !ok && d == old(d))
        && (old(alive) && Smooth(x) ==> ok && d == old(d))
    {
      assert Open(script);
      ok := Check();
      status, started := d.attempt, d.started;
    }

    method GetLeaseSet() returns (ok: bool, lease: Lease)
      modifies this`d, this`alive, this`script
      ensures Env(old(d), d) && (old(Ok()) ==> Ok()) && (ok ==> lease == d.lease)
      ensures forall x: Script {:trigger Open(x)} :: Open(x) && x == old(script) ==>
        && Passes(x, old(alive), script, alive)
        && (!old(alive) ==> !ok && d == old(d))
        && (old(alive) && Smooth(x) ==> ok && d == old(d))
    {
      assert Open(script);
      ok := Check();
      lease := d.lease;
    }

    method GetPublication() returns (ok: bool, journal: Option<Publication.Phase>)
      modifies this`d, this`alive, this`script
      ensures Env(old(d), d) && (old(Ok()) ==> Ok()) && (ok ==> journal == d.journal)
      ensures forall x: Script {:trigger Open(x)} :: Open(x) && x == old(script) ==>
        && Passes(x, old(alive), script, alive)
        && (!old(alive) ==> !ok && d == old(d))
        && (old(alive) && Smooth(x) ==> ok && d == old(d))
    {
      assert Open(script);
      ok := Check();
      journal := d.journal;
    }

    method LoadEvidence() returns (r: Loaded)
      modifies this`d, this`alive, this`script
      ensures Env(old(d), d) && (old(Ok()) ==> Ok())
      ensures (r.Found? ==> d.evidence == Some(r.passed)) && (r == Missing ==> d.evidence.None?)
      ensures forall x: Script {:trigger Open(x)} :: Open(x) && x == old(script) ==>
        && Passes(x, old(alive), script, alive)
        && (!old(alive) ==> r == LoadFailed && d == old(d))
        && (old(alive) && Smooth(x) ==> r != LoadFailed && d == old(d))
    {
      assert Open(script);
      var ok := Check();
      r := if !ok then LoadFailed else if d.evidence.Some? then Found(d.evidence.value) else Missing;
    }

    /** Renewing the delivery lease set works only while it is active. */
    method RenewLeaseSet() returns (ok: bool)
      modifies this`d, this`alive, this`script
      ensures Env(old(d), d) && (old(Ok()) ==> Ok()) && (ok ==> d.lease == ActiveLease)
      ensures forall x: Script {:trigger Open(x)} :: Open(x) && x == old(script) ==>
        && Passes(x, old(alive), script, alive)
        && (!old(alive) ==> !ok && d == old(d))
        && (old(alive) && Smooth(x) ==> d == old(d) && (ok <==> d.lease == ActiveLease))
        && (old(alive) && Refused(x) ==> alive && !ok && d == old(d))
    {
      assert Open(script);
      ok := Check();
      ok := ok && d.lease == ActiveLease;
    }

    /** Building the result commit needs the worktree in place. */
    method CreateResultCommit() returns (ok: bool)
      modifies this
      ensures Env(old(d), d) && (old(Ok()) ==> Ok()) && (ok ==> d.tree == LiveTree)
      ensures trace == if alive && !ok then old(trace) + [CommitFailed] else old(trace)
      ensures seen == if alive && !ok then old(seen).(refused := true, held := false) else old(seen)
      ensures forall x: Script {:trigger Open(x)} :: Open(x) && x == old(script) ==>
        && Passes(x, old(alive), script, alive)
        && (!old(alive) ==> !ok && d == old(d))
        && (old(alive) && Smooth(x) ==> d == old(d) && (ok <==> d.tree == LiveTree))
    {
      assert Open(script);
      ok := Check();
      ok := ok && d.tree == LiveTree;
      if alive && !ok {
        if old(Ok()) { RefusalKeepsInv(d, seen); }
        Note(CommitFailed);
      }
    }

    // --------------------------------------------------------------- changes

    method MoveRun(to: RunState)
      requires Allowed(d.run, to) && Fence(d.journal, to)
      modifies this`d, this`trace, this`seen
      ensures d == old(d).(run := to, version := old(d).version + 1) && seen == old(seen)
      ensures trace == old(trace) + [RunMoved(to, old(d))]
      ensures old(Ok() && MayMove(d, seen, to)) ==> Ok()
    {
      if Ok() && MayMove(d, seen, to) { MoveKeepsInv(d, seen, to); }
      Note(RunMoved(to, d));
      d := d.(run := to, version := d.version + 1);
    }

    /** The stored Run moves if it has the expected version and may go there. */
    method MoveIf(version: nat, to: RunState) returns (moved: bool)
      modifies this`d, this`trace, this`seen
      ensures moved <==> version >= 1 && old(d).version == version && Allowed(old(d).run, to) && Fence(old(d).journal, to)
      ensures d == if moved then old(d).(run := to, version := version + 1) else old(d)
      ensures seen == old(seen) && trace == if moved then old(trace) + [RunMoved(to, old(d))] else old(trace)
      ensures old(Ok() && MayMove(d, seen, to)) ==> Ok()
    {
      moved := version >= 1 && d.version == version && Allowed(d.run, to) && Fence(d.journal, to);
      if moved { MoveRun(to); }
    }

    /** `TransitionRun`: versions start at one; optimistic on the version, bound by the state machine and the fence. */
    method TransitionRun(version: nat, to: RunState) returns (ok: bool)
      modifies this
      ensures SameButRun(old(d), d) && seen == old(seen)
      ensures trace == old(trace) || (|trace| == |old(trace)| + 1 && trace[..|old(trace)|] == old(trace) && IsMove(trace[|old(trace)|], to))
      ensures ok ==> d.run == to && d.version == version + 1
      ensures d.run == old(d).run || d.run == Cancelling || d.run == to
      ensures old(Ok() && MayMove(d, seen, to)) ==> Ok()
      ensures forall x: Script {:trigger Open(x)} :: Open(x) && x == old(script) ==>
        && Passes(x, old(alive), script, alive)
        && (!old(alive) ==> !ok && d == old(d))
        && (old(alive) && Smooth(x) ==> (ok <==> version >= 1 && old(d).version == version && Allowed(old(d).run, to) && Fence(old(d).journal, to)))
        && (old(alive) && Smooth(x) ==> d == if ok then old(d).(run := to, version := version + 1) else old(d))
    {
      assert Open(script);
      var c := Turn();
      ok := false;
      if c != Fail {
        if old(MayMove(d, seen, to)) { MayMoveAfterEnv(old(d), d, seen, to); }
        var moved := MoveIf(version, to);
        ok := moved && c == Work;
      }
    }

    method AcquireLeaseSet() returns (ok: bool)
      modifies this`d, this`alive, this`script
      ensures SameBut(LeasePart, old(d), d) && Cancels(old(d), d)
      ensures d.lease == old(d).lease || (old(d).lease == NoLease && d.lease == ActiveLease)
      ensures ok ==> d.lease == ActiveLease && old(d).lease == NoLease
      ensures old(Ok() && MayAcquire(d)) ==> Ok()
      ensures forall x: Script {:trigger Open(x)} :: Open(x) && x == old(script) ==>
        && Passes(x, old(alive), script, alive)
        && (!old(alive) ==> !ok && d == old(d))
        && (old(alive) && Smooth(x) ==> (ok <==> old(d).lease == NoLease))
        && (old(alive) && Smooth(x) ==> d == old(d).(lease := if ok then ActiveLease else old(d).lease))
    {
      assert Open(script);
      var c := Turn();
      ok := false;
      if c != Fail && d.lease == NoLease {
        if old(Ok() && MayAcquire(d)) { AcquireKeepsInv(d, seen); }
        d := d.(lease := ActiveLease);
        ok := c == Work;
      }
    }

    /** `Prepare` may leave bytes behind even when it fails. */
    method Prepare() returns (ok: bool)
      modifies this
      ensures SameBut(TreePart, old(d), d) && Cancels(old(d), d)
      ensures d.tree == old(d).tree || (old(d).tree == NoTree && d.tree == LiveTree)
      ensures trace == if alive then old(trace) + [PrepareCalled] else old(trace)
      ensures seen == if alive then old(seen).(prepared := true) else old(seen)
      ensures ok ==> d.tree == LiveTree
      ensures old(Ok() && MayPrepare(d)) ==> Ok()
      ensures forall x: Script {:trigger Open(x)} :: Open(x) && x == old(script) ==>
        && Passes(x, old(alive), script, alive)
        && (!old(alive) ==> !ok && d == old(d))
        && (old(alive) && Smooth(x) ==> (ok <==> old(d).tree != QuarantinedTree))
        && (old(alive) && Smooth(x) ==> d == old(d).(tree := if ok then LiveTree else old(d).tree))
    {
      assert Open(script);
      var c := Turn();
      ok := false;
      if alive {
        var left: bool := *;
        var tree := if d.tree == NoTree && (c == Work || left) then LiveTree else d.tree;
        if old(Ok() && MayPrepare(d)) { PrepareKeepsInv(d, seen, tree); }
        Note(PrepareCalled);
        d := d.(tree := tree);
        ok := c == Work && d.tree == LiveTree;
      }
    }

    method StartAttempt() returns (ok: bool)
      modifies this`d, this`alive, this`script
      ensures SameBut(AttemptPart, old(d), d) && Cancels(old(d), d)
      ensures (d.attempt == old(d).attempt && d.started == old(d).started)
        || (old(d).attempt == AttemptQueued && d.attempt == AttemptRunning && d.started)
      ensures ok ==> d.attempt == AttemptRunning && d.started
      ensures old(Ok() && MayStart(d)) ==> Ok()
      ensures forall x: Script {:trigger Open(x)} :: Open(x) && x == old(script) ==>
        && Passes(x, old(alive), script, alive)
        && (!old(alive) ==> !ok && d == old(d))
        && (old(alive) && Smooth(x) ==> (ok <==> old(d).attempt == AttemptQueued))
        && (old(alive) && Smooth(x) ==> d == if ok then old(d).(attempt := AttemptRunning, started := true) else old(d))
    {
      assert Open(script);
      var c := Turn();
      ok := false;
      if c != Fail && d.attempt == AttemptQueued {
        if old(Ok() && MayStart(d)) { StartKeepsInv(d, seen); }
        d := d.(attempt := AttemptRunning, started := true);
        ok := c == Work;
      }
    }

    /** The worker ran and answered. */
    ghost method Answered(report: Report)
      modifies this`trace, this`seen
      ensures trace == old(trace) + [WorkerLaunched] + [WorkerReturned(report)]
      ensures seen == old(seen).(launched := true, answer := Some(report), held := false)
      ensures old(Ok() && MayLaunch(d)) ==> Ok()
    {
      if Ok() && MayLaunch(d) { LaunchKeepsInv(d, seen, report); }
      Note(WorkerLaunched);
      Note(WorkerReturned(report));
    }

    /** The worker process: any result, reliable or not, well-formed or not. */
    method RunWorker() returns (status: AttemptStatus, failed: bool, wellFormed: bool)
      modifies this
      ensures Env(old(d), d) && Ended(status)
      ensures trace == if alive then old(trace) + [WorkerLaunched] + [WorkerReturned(Report(status, failed, wellFormed))] else old(trace)
      ensures seen == if alive
        then old(seen).(launched := true, answer := Some(Report(status, failed, wellFormed)), held := false) else old(seen)
      ensures old(Ok() && MayLaunch(d)) ==> Ok()
      ensures forall x: Script {:trigger Open(x)} :: Open(x) && x == old(script) ==>
        && Passes(x, old(alive), script, alive)
        && (!old(alive) ==> d == old(d))
        && (old(alive) && Smooth(x) ==> d == old(d))
        && (old(alive) && Smooth(x) && x.Then? && x.fate.report.Some? && Ended(x.fate.report.value.status) ==>
             Report(status, failed, wellFormed) == x.fate.report.value)
    {
      assert Open(script);
      var told := if script.Then? then script.fate.report else None;
      var c := Turn();
      status, failed, wellFormed := *, *, *;
      if told.Some? { status, failed, wellFormed := told.value.status, told.value.failed, told.value.wellFormed; }
      if !Ended(status) { status := RetryableFailure; }
      if c != Work { failed := true; }
      if alive { Answered(Report(status, failed, wellFormed)); }
    }

    /** Stopping the lease guard tells whether it held its leases to the end. */
    method StopGuard() returns (ok: bool)
      modifies this
      ensures Env(old(d), d) && (old(Ok()) ==> Ok())
      ensures trace == if alive then old(trace) + [GuardStopped(!ok)] else old(trace)
      ensures seen == if alive then old(seen).(held := ok) else old(seen)
      ensures ok ==> alive && old(alive)
      ensures forall x: Script {:trigger Open(x)} :: Open(x) && x == old(script) ==>
        && Passes(x, old(alive), script, alive)
        && (!old(alive) ==> !ok && d == old(d))
        && (old(alive) && Smooth(x) ==> ok && d == old(d))
    {
      assert Open(script);
      var c := Turn();
      ok := c == Work;
      if alive {
        if old(Ok()) { GuardKeepsInv(d, seen, ok); }
        Note(GuardStopped(!ok));
      }
    }

    method EndAttempt(status: AttemptStatus)
      requires d.attempt == AttemptRunning
      modifies this`d, this`trace, this`seen
      ensures d == old(d).(attempt := status) && seen == old(seen) && trace == old(trace) + [AttemptEnded(status, d.run)]
      ensures old(Ok() && MayEnd(d, seen, status)) ==> Ok()
    {
      if Ok() && MayEnd(d, seen, status) { EndKeepsInv(d, seen, status); }
      Note(AttemptEnded(status, d.run));
      d := d.(attempt := status);
    }

    method FinishAttempt(status: AttemptStatus) returns (ok: bool)
      modifies this
      ensures SameBut(AttemptPart, old(d), d) && d.started == old(d).started && seen == old(seen) && Cancels(old(d), d)
      ensures trace == old(trace) || exists r :: trace == old(trace) + [AttemptEnded(status, r)]
      ensures d.attempt == old(d).attempt || (old(d).attempt == AttemptRunning && d.attempt == status)
      ensures ok ==> d.attempt == status
      ensures old(Ok() && MayEnd(d, seen, status)) ==> Ok()
      ensures forall x: Script {:trigger Open(x)} :: Open(x) && x == old(script) ==>
        && Passes(x, old(alive), script, alive)
        && (!old(alive) ==> !ok && d == old(d))
        && (old(alive) && Smooth(x) ==> (ok <==> old(d).attempt == AttemptRunning))
        && (old(alive) && Smooth(x) ==> d == if ok then old(d).(attempt := status) else old(d))
    {
      assert Open(script);
      var c := Turn();
      ok := false;
      if c != Fail && d.attempt == AttemptRunning {
        EndAttempt(status);
        ok := c == Work;
      }
    }

    /** Fenced reconciliation: an attempt whose scheduler is gone becomes retryable. */
    method ReconcileAbandonedAttempts() returns (ok: bool)
      modifies this
      ensures SameBut(AttemptPart, old(d), d) && d.started == old(d).started && seen == old(seen) && Cancels(old(d), d)
      ensures trace == old(trace) || exists r :: trace == old(trace) + [AttemptEnded(RetryableFailure, r)]
      ensures d.attempt == old(d).attempt || (!Ended(old(d).attempt) && d.attempt == RetryableFailure)
      ensures old(Ok()) ==> Ok()
      ensures forall x: Script {:trigger Open(x)} :: Open(x) && x == old(script) ==>
        && Passes(x, old(alive), script, alive)
        && (!old(alive) ==> !ok && d == old(d))
        && (old(alive) && Smooth(x) ==> ok)
        && (old(alive) && Smooth(x) ==> d == old(d).(attempt := if Ended(old(d).attempt) then old(d).attempt else RetryableFailure))
    {
      assert Open(script);
      var c := Turn();
      ok := c == Work;
      if c != Fail && !Ended(d.attempt) {
        if old(Ok()) { ReconcileKeepsInv(d, seen); }
        Note(AttemptEnded(RetryableFailure, d.run));
        d := d.(attempt := RetryableFailure);
      }
    }

    /** The worktree is moved, or found absent. */
    method PutAway() returns (there: bool)
      modifies this`d, this`trace, this`seen
      ensures there == (old(d).tree != NoTree) && d == old(d).(tree := if there then QuarantinedTree else NoTree)
      ensures trace == old(trace) + [if there then QuarantineSucceeded else AbsentReported]
      ensures seen == if there then old(seen).(quarantined := true) else old(seen).(absent := true)
      ensures old(Ok()) ==> Ok()
    {
      there := d.tree != NoTree;
      if old(Ok()) { QuarantineKeepsInv(d, seen); }
      if there {
        Note(QuarantineSucceeded);
        d := d.(tree := QuarantinedTree);
      } else {
        Note(AbsentReported);
      }
    }

    /** Moves the worktree away, once; a second call finds it already moved. */
    method Quarantine() returns (r: Moving)
      modifies this
      ensures SameBut(TreePart, old(d), d) && Cancels(old(d), d)
      ensures d.tree == old(d).tree || (old(d).tree == LiveTree && d.tree == QuarantinedTree)
      ensures trace == old(trace) || trace == old(trace) + [QuarantineSucceeded] || trace == old(trace) + [AbsentReported]
      ensures seen == old(seen).(quarantined := seen.quarantined, absent := seen.absent)
      ensures (old(seen).quarantined ==> seen.quarantined) && (old(seen).absent ==> seen.absent)
      ensures r == Moved ==> d.tree == QuarantinedTree && seen.quarantined
      ensures r == NotFound ==> d.tree == NoTree && seen.absent
      ensures old(Ok()) ==> Ok()
      ensures forall x: Script {:trigger Open(x)} :: Open(x) && x == old(script) ==>
        && Passes(x, old(alive), script, alive)
        && (!old(alive) ==> r == MoveFailed && d == old(d))
        && (old(alive) && Smooth(x) ==> (r == if old(d).tree == NoTree then NotFound else Moved))
        && (old(alive) && Smooth(x) ==> d == old(d).(tree := if old(d).tree == NoTree then NoTree else QuarantinedTree))
    {
      assert Open(script);
      var c := Turn();
      r := Fetch(c);
    }

    /** The move itself, by the fate of the call. */
    method Fetch(c: Choice) returns (r: Moving)
      modifies this`d, this`trace, this`seen
      ensures d == old(d).(tree := if c != Fail && old(d).tree == LiveTree then QuarantinedTree else old(d).tree)
      ensures trace == old(trace) || trace == old(trace) + [QuarantineSucceeded] || trace == old(trace) + [AbsentReported]
      ensures seen == old(seen).(quarantined := seen.quarantined, absent := seen.absent)
      ensures (old(seen).quarantined ==> seen.quarantined) && (old(seen).absent ==> seen.absent)
      ensures r == if c != Work then MoveFailed else if old(d).tree == NoTree then NotFound else Moved
      ensures (r == Moved ==> seen.quarantined) && (r == NotFound ==> seen.absent)
      ensures old(Ok()) ==> Ok()
    {
      r := MoveFailed;
      if c != Fail {
        var there := PutAway();
        if c == Work { r := if there then Moved else NotFound; }
      }
    }

    method ReleaseLeaseSet() returns (ok: bool)
      modifies this
      ensures SameBut(LeasePart, old(d), d) && Cancels(old(d), d) && seen == old(seen)
      ensures trace == if alive then old(trace) + [ReleaseIssued] else old(trace)
      ensures d.lease == old(d).lease || (old(d).lease == ActiveLease && d.lease == ReleasedLease)
      ensures ok ==> d.lease == ReleasedLease
      ensures old(Ok() && MayRelease(seen)) ==> Ok()
      ensures forall x: Script {:trigger Open(x)} :: Open(x) && x == old(script) ==>
        && Passes(x, old(alive), script, alive)
        && (!old(alive) ==> !ok && d == old(d))
        && (old(alive) && Fatal(x) ==> !alive && !ok && d == old(d))
        && (old(alive) && Smooth(x) ==> (ok <==> old(d).lease != NoLease))
        && (old(alive) && Smooth(x) ==> d == old(d).(lease := if ok then ReleasedLease else NoLease))
    {
      assert Open(script);
      var c := Turn();
      ok := false;
      if alive {
        var lease := if c != Fail && d.lease == ActiveLease then ReleasedLease else d.lease;
        if old(Ok() && MayRelease(seen)) { ReleaseKeepsInv(d, seen, lease); }
        Note(ReleaseIssued);
        d := d.(lease := lease);
        ok := c == Work && d.lease == ReleasedLease;
      }
    }

    /** Independent validation persists its report. */
    method Validate() returns (ok: bool, passed: bool)
      modifies this`d, this`alive, this`script
      ensures SameBut(EvidencePart, old(d), d) && Cancels(old(d), d) && (ok ==> d.evidence == Some(passed))
      ensures old(Ok() && MayValidate(d)) ==> Ok()
      ensures forall x: Script {:trigger Open(x)} :: Open(x) && x == old(script) ==>
        && Passes(x, old(alive), script, alive)
        && (!old(alive) ==> !ok && d == old(d))
        && (old(alive) && Smooth(x) ==> ok && d == old(d).(evidence := Some(passed)))
    {
      assert Open(script);
      var c := Turn();
      ok, passed := c == Work, *;
      if c != Fail {
        if old(Ok() && MayValidate(d)) { EvidenceKeepsInv(d, seen, passed); }
        d := d.(evidence := Some(passed));
      }
    }

    method Publish() returns (receipt: bool)
      modifies this
      ensures SameBut(JournalPart, old(d), d) && Cancels(old(d), d)
      ensures old(d).journal.Some? ==> d.journal.Some?
      ensures d.lease == old(d).lease || (d.lease == ReleasedLease && d.journal.Some?)
      ensures trace == if receipt then old(trace) + [ReceiptReturned] else old(trace)
      ensures seen == if receipt then old(seen).(receipt := true) else old(seen)
      ensures receipt ==> d.journal == Some(Publication.Published)
      ensures old(Ok() && MayPublish(d)) ==> Ok()
      ensures forall x: Script {:trigger Open(x)} :: Open(x) && x == old(script) ==>
        && Passes(x, old(alive), script, alive)
        && (!old(alive) ==> !receipt && d == old(d))
        && (old(alive) && Smooth(x) ==> (Publishable(old(d)) ==> receipt && d == PublishedFrom(old(d))))
    {
      assert Open(script);
      receipt := PublicationCall(Publishable(d), PublishedFrom(d), true);
    }

    method RecoverPublication() returns (receipt: bool)
      modifies this
      ensures SameBut(JournalPart, old(d), d) && Cancels(old(d), d)
      ensures old(d).journal.Some? ==> d.journal.Some?
      ensures d.lease == old(d).lease || (d.lease == ReleasedLease && d.journal.Some?)
      ensures trace == if receipt then old(trace) + [ReceiptReturned] else old(trace)
      ensures seen == if receipt then old(seen).(receipt := true) else old(seen)
      ensures receipt ==> d.journal == Some(Publication.Published)
      ensures old(Ok() && MayPublish(d)) ==> Ok()
      ensures forall x: Script {:trigger Open(x)} :: Open(x) && x == old(script) ==>
        && Passes(x, old(alive), script, alive)
        && (!old(alive) ==> !receipt && d == old(d))
        && (old(alive) && Smooth(x) ==> (Finishable(old(d)) ==> receipt && d == PublishedFrom(old(d))))
        && (old(alive) && Smooth(x) ==> (Abandonable(old(d)) ==> !receipt && d == AbandonedFrom(old(d))))
    {
      assert Open(script);
      if Finishable(d) {
        receipt := PublicationCall(true, PublishedFrom(d), true);
      } else {
        receipt := PublicationCall(Abandonable(d), AbandonedFrom(d), false);
      }
    }

    method Adopt(next: Durable, receipt: bool)
      requires Publishes(d, next, receipt)
      modifies this`d, this`trace, this`seen
      ensures d == next && trace == (if receipt then old(trace) + [ReceiptReturned] else old(trace))
      ensures seen == if receipt then old(seen).(receipt := true) else old(seen)
      ensures old(Ok() && MayPublish(d)) ==> Ok()
    {
      if Ok() && MayPublish(d) { PublishKeepsInv(d, next, receipt, seen); }
      if receipt { Note(ReceiptReturned); }
      d := next;
    }

    /** One call into the publication protocol; `fixed` is its outcome in a calm world. */
    method PublicationCall(expected: bool, fixed: Durable, answer: bool) returns (receipt: bool)
      requires expected ==> Publishes(d, fixed, answer)
      modifies this
      ensures SameBut(JournalPart, old(d), d) && Cancels(old(d), d)
      ensures old(d).journal.Some? ==> d.journal.Some?
      ensures d.lease == old(d).lease || (d.lease == ReleasedLease && d.journal.Some?)
      ensures trace == if receipt then old(trace) + [ReceiptReturned] else old(trace)
      ensures seen == if receipt then old(seen).(receipt := true) else old(seen)
      ensures receipt ==> d.journal == Some(Publication.Published)
      ensures old(Ok() && MayPublish(d)) ==> Ok()
      ensures forall x: Script {:trigger Open(x)} :: Open(x) && x == old(script) ==>
        && Passes(x, old(alive), script, alive)
        && (!old(alive) ==> !receipt && d == old(d))
        && (old(alive) && Smooth(x) && expected ==> receipt == answer && d == fixed)
    {
      assert Open(script);
      var smooth := alive && Smooth(script);
      var c := Turn();
      receipt := false;
      if c != Fail {
        var next, got := fixed, answer;
        if !smooth || !expected {
          assert Publishes(d, d, false);
          next, got :| Publishes(d, next, got);
        }
        assert Publishes(d, next, got);
        receipt := got && c == Work;
        Adopt(next, receipt);
      }
    }
  }
}
