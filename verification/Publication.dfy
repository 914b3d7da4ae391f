/** `PublicationService`: any number of Publish and Recover calls on one delivery
    attempt, interleaved with each other, with crashes and with outside writers.

    One atomic step is one journal transaction, one Git read or one Git update.
    Checks that touch nothing shared ride along with the step before them. A call
    may fail before taking effect (`Fail`) or after it (`Lost`). */
module Publication {
  import opened Cards
  import opened Seqs

  // ------------------------------------------------------------------- values

  datatype Request = Request(authority: string, previous: Option<string>)
  datatype Commit = Commit(id: string, tree: string, patch: string, paths: seq<string>)
  datatype Times = Times(created: int, published: int)

  /** What a caller supplies; `now` is the clock it reads, `fences` its lease proof. */
  datatype Input = Input(request: Request, result: Commit, evidence: string, fences: seq<string>, now: int)

  datatype Receipt = Receipt(request: Request, result: Commit, evidence: string, fences: seq<string>, times: Times)

  /** The digests of the code are injective, so the intent is its content. */
  datatype Intent = Intent(request: Request, result: string, receipt: Receipt)

  function PublishIntent(x: Input, t: Times): Intent {
    Intent(x.request, x.result.id, Receipt(x.request, x.result, x.evidence, x.fences, t))
  }

  /** `journaledRecoveryIntent`: the journaled receipt, if it matches what the caller knows. */
  predicate Recoverable(x: Input, r: Receipt) {
    && r.request == x.request && r.result == x.result && r.fences == x.fences
    && r.times.created != 0 && r.times.created <= r.times.published
  }

  function RecoveryIntent(x: Input, r: Receipt): Intent { Intent(x.request, x.result.id, r) }

  predicate TimesOk(t: Times) { t.created != 0 && t.published != 0 && t.created <= t.published }

  datatype Phase = Prepared | Published | Abandoned | Conflict
  datatype Row = Row(intent: Intent, phase: Phase)

  /** The ref: absent, at a commit, or not a plain commit ref. */
  datatype Ref = Missing | At(commit: string) | Invalid

  function Previous(i: Intent): Ref { if i.request.previous.Some? then At(i.request.previous.value) else Missing }

  // ------------------------------------------------------------------ threads

  datatype Ending = Failed | NotApplied | Conflicted | Result(receipt: Receipt, replayed: bool, released: bool)

  /** Where a call stands. */
  datatype Pc =
    | PublishStart
    | Prepare(intent: Intent)
    | Reread(intent: Intent)
    | Complete(intent: Intent)
    | CasObserve(intent: Intent)
    | CasWrite(intent: Intent)
    | CasReobserve(intent: Intent)
    | CasDone(intent: Intent)
    | MarkConflict(intent: Intent)
    | Observe(intent: Intent, ran: bool)
    | Release(intent: Intent, replayed: bool)
    | ReleaseAbandoned(intent: Intent)
    | RecoverStart
    | RecoverObserve(intent: Intent, phase: Phase)
    | RecoverRow(intent: Intent)
    | Abandon(intent: Intent)
    | AbandonObserve(intent: Intent)
    | AbandonCommit(intent: Intent)
    | Done(ending: Ending)

  datatype Thread = Thread(input: Input, pc: Pc)

  datatype Event =
    | RefWritten(thread: nat, from: Ref, to: Ref, row: Option<Row>)
    | Journaled(thread: nat, phase: Phase)
    | Observed(thread: nat, ref: Ref)
    | Returned(thread: nat, receipt: Receipt)

  datatype Choice = Work | Fail | Lost

  /** What one step of one thread does to the shared pieces. */
  datatype Move = Move(row: Option<Row>, ref: Ref, lock: Option<nat>, events: seq<Event>, pc: Pc, releases: bool := false)

  /** The shared pieces a step sees; `lock` is the journal's advisory lock, and
      `released` says that the leases of the attempt were given back. */
  datatype Shared = Shared(row: Option<Row>, ref: Ref, lock: Option<nat>, released: bool)

  function Moved(s: Shared, m: Move): Shared { Shared(m.row, m.ref, m.lock, s.released || m.releases) }

  function Stay(s: Shared, pc: Pc): Move { Move(s.row, s.ref, s.lock, [], pc) }
  function Unlock(s: Shared, pc: Pc): Move { Move(s.row, s.ref, None, [], pc) }

  /** How a publisher goes on from a record it holds an exact intent for. */
  function FromRecord(r: Row, i: Intent, whenPrepared: Pc): Pc {
    if r.intent != i then Done(Failed)
    else match r.phase
      case Published => Observe(i, false)
      case Abandoned => ReleaseAbandoned(i)
      case Conflict => Done(Conflicted)
      case Prepared => whenPrepared
  }

  function PublishRead(s: Shared, x: Input, c: Choice): Pc {
    if c != Work then Done(Failed)
    else if s.row.None? then Prepare(PublishIntent(x, Times(x.now, x.now)))
    else
      var t := s.row.value.intent.receipt.times;
      if !TimesOk(t) then Done(Failed)
      else var i := PublishIntent(x, t); FromRecord(s.row.value, i, Prepare(i))
  }

  /** `PrepareDeliveryPublication`; anything but success leads to a second read. */
  function PrepareMove(s: Shared, tid: nat, i: Intent, c: Choice): Move {
    if c == Fail || (s.row.Some? && (c == Lost || s.row.value.intent != i)) then Stay(s, Reread(i))
    else if s.row.Some? then Stay(s, FromRecord(s.row.value, i, Complete(i)))
    else Move(Some(Row(i, Prepared)), s.ref, s.lock, [Journaled(tid, Prepared)], if c == Work then Complete(i) else Reread(i))
  }

  function RereadPc(s: Shared, x: Input, c: Choice): Pc {
    if c != Work || s.row.None? then Done(Failed)
    else
      var t := s.row.value.intent.receipt.times;
      if !TimesOk(t) then Done(Failed)
      else var i := PublishIntent(x, t); FromRecord(s.row.value, i, Complete(i))
  }

  /** `CompleteDeliveryPublication` up to its callbacks: the lock is kept across them. */
  function CompleteMove(s: Shared, tid: nat, i: Intent, c: Choice): Move {
    if c != Work || s.row.None? || s.row.value.intent != i then Stay(s, Done(Failed))
    else if s.row.value.phase == Published then Stay(s, Observe(i, false))
    else if s.row.value.phase != Prepared then Stay(s, Done(Failed))
    else Move(s.row, s.ref, Some(tid), [], CasObserve(i))
  }

  /** The first read of `applyPublicationCAS`. */
  function CasObserveMove(s: Shared, tid: nat, i: Intent, c: Choice): Move {
    if c != Work then Unlock(s, Done(Failed))
    else if s.ref == At(i.result) then Stay(s, CasDone(i))
    else if s.ref != Previous(i) then Unlock(s, MarkConflict(i))
    else Stay(s, CasWrite(i))
  }

  /** `git update-ref` with the approved previous commit as the expected value.
      A failing authority check before or after it leaves what a crash leaves. */
  function CasWriteMove(s: Shared, tid: nat, i: Intent, c: Choice): Move {
    if c == Fail || s.ref != Previous(i) then Stay(s, CasReobserve(i))
    else Move(s.row, At(i.result), s.lock, [RefWritten(tid, s.ref, At(i.result), s.row)],
              if c == Work then CasDone(i) else CasReobserve(i))
  }

  function CasReobserveMove(s: Shared, tid: nat, i: Intent, c: Choice): Move {
    if c != Work then Unlock(s, Done(Failed))
    else if s.ref == At(i.result) then Stay(s, CasDone(i))
    else if s.ref != Previous(i) then Unlock(s, MarkConflict(i))
    else Unlock(s, Done(Failed))
  }

  /** The journal update and commit that end `CompleteDeliveryPublication`. */
  function CasDoneMove(s: Shared, tid: nat, i: Intent, c: Choice): Move {
    if c == Fail || s.row.None? || s.row.value.phase != Prepared then Unlock(s, Done(Failed))
    else Move(Some(s.row.value.(phase := Published)), s.ref, None, [Journaled(tid, Published)],
              if c == Work then Observe(i, true) else Done(Failed))
  }

  /** `transitionPublicationWithoutLease`. */
  function RetireMove(s: Shared, tid: nat, i: Intent, phase: Phase, c: Choice, next: Pc, failed: Ending): Move {
    if c == Fail || s.row.None? || s.row.value.intent != i then Stay(s, Done(failed))
    else if s.row.value.phase == phase then Stay(s, if c == Work then next else Done(failed))
    else if s.row.value.phase != Prepared then Stay(s, Done(failed))
    else Move(Some(s.row.value.(phase := phase)), s.ref, s.lock, [Journaled(tid, phase)], if c == Work then next else Done(failed))
  }

  function ObserveMove(s: Shared, tid: nat, i: Intent, ran: bool, c: Choice): Move {
    if c != Work then Stay(s, Done(Failed))
    else Move(s.row, s.ref, s.lock, [Observed(tid, s.ref)], if s.ref == At(i.result) then Release(i, !ran) else Done(Conflicted))
  }

  function RecoverRead(s: Shared, x: Input, c: Choice): Pc {
    if c != Work || s.row.None? || !Recoverable(x, s.row.value.intent.receipt) then Done(Failed)
    else
      var r := s.row.value;
      var i := RecoveryIntent(x, r.intent.receipt);
      if r.intent != i then Done(Failed)
      else if r.phase == Abandoned then ReleaseAbandoned(i) else RecoverObserve(i, r.phase)
  }

  function RecoverObserveMove(s: Shared, tid: nat, i: Intent, phase: Phase, c: Choice): Move {
    if c != Work then Stay(s, Done(Failed))
    else if phase == Published then
      Move(s.row, s.ref, s.lock, [Observed(tid, s.ref)], if s.ref == At(i.result) then Release(i, true) else Done(Conflicted))
    else if phase != Prepared then Stay(s, Done(if s.ref == Invalid then Conflicted else Failed))
    else if s.ref == At(i.result) then Stay(s, RecoverRow(i))
    else if s.ref == Previous(i) then Stay(s, Abandon(i))
    else Stay(s, MarkConflict(i))
  }

  function AbandonMove(s: Shared, tid: nat, i: Intent, c: Choice): Move {
    if c != Work || s.row.None? || s.row.value.intent != i then Stay(s, Done(Failed))
    else match s.row.value.phase
      case Published => Stay(s, Observe(i, false))
      case Abandoned => Stay(s, ReleaseAbandoned(i))
      case Conflict => Stay(s, Done(Failed))
      case Prepared => Move(s.row, s.ref, Some(tid), [], AbandonObserve(i))
  }

  function AbandonObserveMove(s: Shared, tid: nat, i: Intent, c: Choice): Move {
    if c != Work then Unlock(s, Done(Failed))
    else if s.ref == Invalid then Unlock(s, MarkConflict(i))
    else if s.ref != Previous(i) then Unlock(s, Done(Failed))
    else Stay(s, AbandonCommit(i))
  }

  function AbandonCommitMove(s: Shared, tid: nat, i: Intent, c: Choice): Move {
    if c == Fail || s.row.None? || s.row.value.phase != Prepared then Unlock(s, Done(Failed))
    else Move(Some(s.row.value.(phase := Abandoned)), s.ref, None, [Journaled(tid, Abandoned)],
              if c == Work then ReleaseAbandoned(i) else Done(Failed))
  }

  function ReleaseMove(s: Shared, tid: nat, i: Intent, replayed: bool, c: Choice): Move {
    Move(s.row, s.ref, s.lock, [Returned(tid, i.receipt)], Done(Result(i.receipt, replayed, c == Work)), c != Fail)
  }

  /** Steps that begin a journal transaction and so wait for the lock. */
  predicate NeedsLock(pc: Pc) {
    pc.Prepare? || pc.Complete? || pc.MarkConflict? || pc.RecoverRow? || pc.Abandon?
  }

  function MoveOf(s: Shared, tid: nat, t: Thread, c: Choice): Move {
    match t.pc
    case PublishStart => Stay(s, PublishRead(s, t.input, c))
    case Prepare(i) => PrepareMove(s, tid, i, c)
    case Reread(i) => Stay(s, RereadPc(s, t.input, c))
    case Complete(i) => CompleteMove(s, tid, i, c)
    case CasObserve(i) => CasObserveMove(s, tid, i, c)
    case CasWrite(i) => CasWriteMove(s, tid, i, c)
    case CasReobserve(i) => CasReobserveMove(s, tid, i, c)
    case CasDone(i) => CasDoneMove(s, tid, i, c)
    case MarkConflict(i) => RetireMove(s, tid, i, Conflict, c, Done(Conflicted), Conflicted)
    case Observe(i, ran) => ObserveMove(s, tid, i, ran, c)
    case Release(i, replayed) => ReleaseMove(s, tid, i, replayed, c)
    case ReleaseAbandoned(i) => Move(s.row, s.ref, s.lock, [], Done(NotApplied), c != Fail)
    case RecoverStart => Stay(s, RecoverRead(s, t.input, c))
    case RecoverObserve(i, phase) => RecoverObserveMove(s, tid, i, phase, c)
    case RecoverRow(i) => RetireMove(s, tid, i, Published, c, Observe(i, false), Failed)
    case Abandon(i) => AbandonMove(s, tid, i, c)
    case AbandonObserve(i) => AbandonObserveMove(s, tid, i, c)
    case AbandonCommit(i) => AbandonCommitMove(s, tid, i, c)
    case Done(e) => Stay(s, Done(e))
  }

  // -------------------------------------------------------------------- system

  datatype State = State(shared: Shared, threads: map<nat, Thread>, log: seq<Event>)

  datatype Action =
    | Spawn(thread: nat, input: Input, recovering: bool)
    | Run(thread: nat, choice: Choice)
    | Crash(thread: nat)
    | Outside(ref: Ref)

  function Init(ref: Ref): State { State(Shared(None, ref, None, false), map[], []) }

  /** One step; an action that is not enabled changes nothing. A crash closes the
      connection, which rolls its transaction back and frees the lock. */
  function Apply(s: State, a: Action): State {
    match a
    case Spawn(t, x, recovering) =>
      if t in s.threads then s
      else s.(threads := s.threads[t := Thread(x, if recovering then RecoverStart else PublishStart)])
    case Run(t, c) =>
      if t !in s.threads || (NeedsLock(s.threads[t].pc) && s.shared.lock.Some?) then s
      else
        var m := MoveOf(s.shared, t, s.threads[t], c);
        State(Moved(s.shared, m), s.threads[t := s.threads[t].(pc := m.pc)], s.log + m.events)
    case Crash(t) =>
      if t !in s.threads then s
      else State(s.shared.(lock := if s.shared.lock == Some(t) then None else s.shared.lock),
                 s.threads[t := s.threads[t].(pc := Done(Failed))], s.log)
    case Outside(r) => s.(shared := s.shared.(ref := r))
  }

  function RunAll(s: State, actions: seq<Action>): State {
    if actions == [] then s else Apply(RunAll(s, actions[..|actions|-1]), actions[|actions|-1])
  }

  // ----------------------------------------------------------------- invariant

  predicate Terminal(p: Phase) { p != Prepared }

  /** The row keeps its intent and never leaves a terminal phase. */
  ghost predicate Advances(a: Option<Row>, b: Option<Row>) {
    a.Some? ==> b.Some? && b.value.intent == a.value.intent && (a.value.phase == b.value.phase || a.value.phase == Prepared)
  }

  ghost predicate Holds(row: Option<Row>, i: Intent) { row.Some? && row.value.intent == i }
  ghost predicate HoldsIn(row: Option<Row>, i: Intent, p: Phase) { row == Some(Row(i, p)) }

  predicate Locked(pc: Pc) {
    pc.CasObserve? || pc.CasWrite? || pc.CasReobserve? || pc.CasDone? || pc.AbandonObserve? || pc.AbandonCommit?
  }

  /** A published row was journaled and the ref then seen at the result by this thread. */
  ghost predicate Witnessed(log: seq<Event>, tid: nat, commit: string) {
    exists i, j :: 0 <= i < j < |log| && log[i].Journaled? && log[i].phase == Published && log[j] == Observed(tid, At(commit))
  }

  ghost predicate PcOk(row: Option<Row>, lock: Option<nat>, log: seq<Event>, tid: nat, pc: Pc) {
    && (Locked(pc) ==> lock == Some(tid) && HoldsIn(row, pc.intent, Prepared))
    && (pc.Complete? || pc.MarkConflict? || pc.RecoverRow? || pc.Abandon? ==> Holds(row, pc.intent))
    && (pc.RecoverObserve? ==> Holds(row, pc.intent) && (Terminal(pc.phase) ==> row.value.phase == pc.phase))
    && (pc.Observe? ==> HoldsIn(row, pc.intent, Published))
    && (pc.Release? ==> HoldsIn(row, pc.intent, Published) && Witnessed(log, tid, pc.intent.result))
    && (pc.ReleaseAbandoned? ==> HoldsIn(row, pc.intent, Abandoned))
    && (pc.Done? && pc.ending.NotApplied? ==> row.Some? && row.value.phase == Abandoned)
    && (pc.Done? && pc.ending.Result? ==>
          row.Some? && row.value.phase == Published && row.value.intent.receipt == pc.ending.receipt)
  }

  /** The leases are given back only when the row is published or abandoned. */
  predicate Finished(row: Option<Row>) { row.Some? && (row.value.phase == Published || row.value.phase == Abandoned) }

  ghost predicate Ends(e: Event, p: Phase) { e.Journaled? && e.phase == p && Terminal(p) }

  /** A service write to the ref: the approved step, under a prepared row. */
  ghost predicate ApprovedWrite(e: Event, row: Option<Row>) {
    !e.RefWritten?
    || (row.Some? && e.row == Some(Row(row.value.intent, Prepared))
        && e.from == Previous(row.value.intent) && e.to == At(row.value.intent.result))
  }

  /** What a returned result rests on. */
  ghost predicate Grounded(log: seq<Event>, k: nat, row: Option<Row>)
    requires k < |log|
  {
    !log[k].Returned?
    || (row.Some? && log[k].receipt == row.value.intent.receipt
        && Witnessed(log[..k], log[k].thread, row.value.intent.result))
  }

  ghost predicate LogOk(row: Option<Row>, log: seq<Event>) {
    && (forall e :: e in log ==> ApprovedWrite(e, row))
    && (forall k :: 0 <= k < |log| ==> Grounded(log, k, row))
    && (forall e :: e in log && e.Journaled? && Terminal(e.phase) ==> row.Some? && row.value.phase == e.phase)
    && (row.Some? && Terminal(row.value.phase) ==> exists i :: 0 <= i < |log| && Ends(log[i], row.value.phase))
    && (forall i, j :: 0 <= i < j < |log| && log[i].Journaled? && Terminal(log[i].phase) ==> !log[j].RefWritten?)
  }

  ghost predicate Inv(s: State) {
    && (forall t :: t in s.threads ==> PcOk(s.shared.row, s.shared.lock, s.log, t, s.threads[t].pc))
    && (s.shared.lock.Some? ==> s.shared.lock.value in s.threads && Locked(s.threads[s.shared.lock.value].pc))
    && LogOk(s.shared.row, s.log) && (s.shared.released ==> Finished(s.shared.row))
  }

  // ------------------------------------------------------- every step keeps it

  lemma WitnessKept(log: seq<Event>, events: seq<Event>, tid: nat, commit: string)
    requires Witnessed(log, tid, commit)
    ensures Witnessed(log + events, tid, commit)
  {
    var i, j :| 0 <= i < j < |log| && log[i].Journaled? && log[i].phase == Published && log[j] == Observed(tid, At(commit));
    assert (log + events)[i] == log[i] && (log + events)[j] == log[j];
  }

  /** Threads that do not hold the lock cannot be hurt by a row that advances. */
  lemma PcKept(row: Option<Row>, lock: Option<nat>, log: seq<Event>, next: Option<Row>, after: Option<nat>, events: seq<Event>,
               tid: nat, pc: Pc)
    requires PcOk(row, lock, log, tid, pc) && Advances(row, next)
    requires lock == Some(tid) ==> after == lock && next == row
    ensures PcOk(next, after, log + events, tid, pc)
  {
    if pc.Release? { WitnessKept(log, events, tid, pc.intent.result); }
  }

  /** What one thread's move must satisfy. */
  ghost predicate MoveOk(s: Shared, log: seq<Event>, tid: nat, m: Move) {
    && Advances(s.row, m.row)
    && (m.row != s.row ==> s.lock.None? || s.lock == Some(tid))
    && (m.lock == s.lock || (m.lock.None? && s.lock == Some(tid)) || (m.lock == Some(tid) && s.lock.None?))
    && (m.lock == Some(tid) <==> Locked(m.pc))
    && PcOk(m.row, m.lock, log + m.events, tid, m.pc)
    && LogOk(m.row, log + m.events) && (m.releases ==> Finished(m.row))
  }

  lemma QuietLog(row: Option<Row>, log: seq<Event>)
    requires LogOk(row, log)
    ensures LogOk(row, log + [])
  {
    assert log + [] == log;
  }

  lemma GroundedKept(row: Option<Row>, log: seq<Event>, next: Option<Row>, e: Event)
    requires forall k :: 0 <= k < |log| ==> Grounded(log, k, row)
    requires Advances(row, next) && !e.Returned?
    ensures forall k :: 0 <= k < |log + [e]| ==> Grounded(log + [e], k, next)
  {
    var longer := log + [e];
    forall k | 0 <= k < |longer| ensures Grounded(longer, k, next) {
      if k < |log| { assert longer[..k] == log[..k] && Grounded(log, k, row); }
    }
  }

  /** Journaling a new phase of the row. */
  lemma JournalLog(row: Option<Row>, log: seq<Event>, i: Intent, phase: Phase, tid: nat)
    requires LogOk(row, log) && ((row.None? && phase == Prepared) || (HoldsIn(row, i, Prepared) && Terminal(phase)))
    ensures LogOk(Some(Row(i, phase)), log + [Journaled(tid, phase)])
  {
    var e := Journaled(tid, phase);
    GroundedKept(row, log, Some(Row(i, phase)), e);
    assert (log + [e])[|log|] == e;
    if Terminal(phase) { assert Ends((log + [e])[|log|], phase); }
  }

  lemma WriteLog(row: Option<Row>, log: seq<Event>, i: Intent, tid: nat)
    requires LogOk(row, log) && HoldsIn(row, i, Prepared)
    ensures LogOk(row, log + [RefWritten(tid, Previous(i), At(i.result), row)])
  {
    GroundedKept(row, log, row, RefWritten(tid, Previous(i), At(i.result), row));
  }

  lemma EndsStay(log: seq<Event>, e: Event, p: Phase)
    requires exists i :: 0 <= i < |log| && Ends(log[i], p)
    ensures exists i :: 0 <= i < |log + [e]| && Ends((log + [e])[i], p)
  {
    var i :| 0 <= i < |log| && Ends(log[i], p);
    assert Ends((log + [e])[i], p);
  }

  lemma ObserveLog(row: Option<Row>, log: seq<Event>, tid: nat, ref: Ref)
    requires LogOk(row, log)
    ensures LogOk(row, log + [Observed(tid, ref)])
  {
    GroundedKept(row, log, row, Observed(tid, ref));
    if row.Some? && Terminal(row.value.phase) { EndsStay(log, Observed(tid, ref), row.value.phase); }
  }

  lemma ReturnLog(row: Option<Row>, log: seq<Event>, i: Intent, tid: nat)
    requires LogOk(row, log) && HoldsIn(row, i, Published) && Witnessed(log, tid, i.result)
    ensures LogOk(row, log + [Returned(tid, i.receipt)])
  {
    var e := Returned(tid, i.receipt);
    var longer := log + [e];
    forall k | 0 <= k < |longer| ensures Grounded(longer, k, row) {
      assert longer[..k] == log[..k];
      if k < |log| { assert Grounded(log, k, row); } else { assert log[..k] == log; }
    }
    EndsStay(log, e, Published);
  }

  /** Seeing the ref at the result after the row was published. */
  lemma Witness(row: Option<Row>, log: seq<Event>, i: Intent, tid: nat)
    requires LogOk(row, log) && HoldsIn(row, i, Published)
    ensures Witnessed(log + [Observed(tid, At(i.result))], tid, i.result)
  {
    var k :| 0 <= k < |log| && Ends(log[k], Published);
    var longer := log + [Observed(tid, At(i.result))];
    assert longer[k] == log[k] && longer[|log|] == Observed(tid, At(i.result));
  }

  ghost predicate Ready(s: Shared, log: seq<Event>, tid: nat, pc: Pc) {
    && PcOk(s.row, s.lock, log, tid, pc) && LogOk(s.row, log)
    && (NeedsLock(pc) ==> s.lock.None?) && (s.lock == Some(tid) ==> Locked(pc))
  }

  lemma ReadMoveOk(s: Shared, log: seq<Event>, tid: nat, t: Thread, c: Choice)
    requires Ready(s, log, tid, t.pc)
    requires t.pc.PublishStart? || t.pc.Reread? || t.pc.RecoverStart? || t.pc.ReleaseAbandoned? || t.pc.Done?
    ensures MoveOk(s, log, tid, MoveOf(s, tid, t, c))
  {
    QuietLog(s.row, log);
    assert log + [] == log;
  }

  lemma PrepareMoveOk(s: Shared, log: seq<Event>, tid: nat, i: Intent, c: Choice)
    requires Ready(s, log, tid, Prepare(i))
    ensures MoveOk(s, log, tid, PrepareMove(s, tid, i, c))
  {
    QuietLog(s.row, log);
    if s.row.None? { JournalLog(s.row, log, i, Prepared, tid); }
  }

  lemma CompleteMoveOk(s: Shared, log: seq<Event>, tid: nat, i: Intent, c: Choice)
    requires Ready(s, log, tid, Complete(i))
    ensures MoveOk(s, log, tid, CompleteMove(s, tid, i, c))
  {
    QuietLog(s.row, log);
  }

  lemma CasReadMoveOk(s: Shared, log: seq<Event>, tid: nat, i: Intent, c: Choice)
    requires Ready(s, log, tid, CasObserve(i))
    ensures MoveOk(s, log, tid, CasObserveMove(s, tid, i, c)) && MoveOk(s, log, tid, CasReobserveMove(s, tid, i, c))
  {
    QuietLog(s.row, log);
  }

  lemma CasWriteMoveOk(s: Shared, log: seq<Event>, tid: nat, i: Intent, c: Choice)
    requires Ready(s, log, tid, CasWrite(i))
    ensures MoveOk(s, log, tid, CasWriteMove(s, tid, i, c))
  {
    QuietLog(s.row, log);
    WriteLog(s.row, log, i, tid);
  }

  lemma CasDoneMoveOk(s: Shared, log: seq<Event>, tid: nat, i: Intent, c: Choice)
    requires Ready(s, log, tid, CasDone(i))
    ensures MoveOk(s, log, tid, CasDoneMove(s, tid, i, c))
  {
    QuietLog(s.row, log);
    JournalLog(s.row, log, i, Published, tid);
  }

  lemma ConflictMoveOk(s: Shared, log: seq<Event>, tid: nat, i: Intent, c: Choice)
    requires Ready(s, log, tid, MarkConflict(i))
    ensures MoveOk(s, log, tid, RetireMove(s, tid, i, Conflict, c, Done(Conflicted), Conflicted))
  {
    QuietLog(s.row, log);
    if HoldsIn(s.row, i, Prepared) { JournalLog(s.row, log, i, Conflict, tid); }
  }

  lemma RecoverRowMoveOk(s: Shared, log: seq<Event>, tid: nat, i: Intent, c: Choice)
    requires Ready(s, log, tid, RecoverRow(i))
    ensures MoveOk(s, log, tid, RetireMove(s, tid, i, Published, c, Observe(i, false), Failed))
  {
    QuietLog(s.row, log);
    if HoldsIn(s.row, i, Prepared) { JournalLog(s.row, log, i, Published, tid); }
  }

  lemma ObserveMoveOk(s: Shared, log: seq<Event>, tid: nat, i: Intent, ran: bool, c: Choice)
    requires Ready(s, log, tid, Observe(i, ran))
    ensures MoveOk(s, log, tid, ObserveMove(s, tid, i, ran, c))
  {
    QuietLog(s.row, log);
    ObserveLog(s.row, log, tid, s.ref);
    Witness(s.row, log, i, tid);
  }

  lemma ReleaseMoveOk(s: Shared, log: seq<Event>, tid: nat, i: Intent, replayed: bool, c: Choice)
    requires Ready(s, log, tid, Release(i, replayed))
    ensures MoveOk(s, log, tid, ReleaseMove(s, tid, i, replayed, c))
  {
    ReturnLog(s.row, log, i, tid);
  }

  lemma RecoverObserveMoveOk(s: Shared, log: seq<Event>, tid: nat, i: Intent, phase: Phase, c: Choice)
    requires Ready(s, log, tid, RecoverObserve(i, phase))
    ensures MoveOk(s, log, tid, RecoverObserveMove(s, tid, i, phase, c))
  {
    QuietLog(s.row, log);
    ObserveLog(s.row, log, tid, s.ref);
    if phase == Published { Witness(s.row, log, i, tid); }
  }

  lemma AbandonMoveOk(s: Shared, log: seq<Event>, tid: nat, i: Intent, c: Choice)
    requires Ready(s, log, tid, Abandon(i))
    ensures MoveOk(s, log, tid, AbandonMove(s, tid, i, c))
  {
    QuietLog(s.row, log);
  }

  lemma AbandonObserveMoveOk(s: Shared, log: seq<Event>, tid: nat, i: Intent, c: Choice)
    requires Ready(s, log, tid, AbandonObserve(i))
    ensures MoveOk(s, log, tid, AbandonObserveMove(s, tid, i, c))
  {
    QuietLog(s.row, log);
  }

  lemma AbandonCommitMoveOk(s: Shared, log: seq<Event>, tid: nat, i: Intent, c: Choice)
    requires Ready(s, log, tid, AbandonCommit(i))
    ensures MoveOk(s, log, tid, AbandonCommitMove(s, tid, i, c))
  {
    QuietLog(s.row, log);
    JournalLog(s.row, log, i, Abandoned, tid);
  }

  lemma ThreadMoveOk(s: Shared, log: seq<Event>, tid: nat, t: Thread, c: Choice)
    requires Ready(s, log, tid, t.pc)
    ensures MoveOk(s, log, tid, MoveOf(s, tid, t, c))
  {
    match t.pc
    case PublishStart => ReadMoveOk(s, log, tid, t, c);
    case Prepare(i) => PrepareMoveOk(s, log, tid, i, c);
    case Reread(i) => ReadMoveOk(s, log, tid, t, c);
    case Complete(i) => CompleteMoveOk(s, log, tid, i, c);
    case CasObserve(i) => CasReadMoveOk(s, log, tid, i, c);
    case CasWrite(i) => CasWriteMoveOk(s, log, tid, i, c);
    case CasReobserve(i) => CasReadMoveOk(s, log, tid, i, c);
    case CasDone(i) => CasDoneMoveOk(s, log, tid, i, c);
    case MarkConflict(i) => ConflictMoveOk(s, log, tid, i, c);
    case Observe(i, ran) => ObserveMoveOk(s, log, tid, i, ran, c);
    case Release(i, replayed) => ReleaseMoveOk(s, log, tid, i, replayed, c);
    case ReleaseAbandoned(i) => ReadMoveOk(s, log, tid, t, c);
    case RecoverStart => ReadMoveOk(s, log, tid, t, c);
    case RecoverObserve(i, phase) => RecoverObserveMoveOk(s, log, tid, i, phase, c);
    case RecoverRow(i) => RecoverRowMoveOk(s, log, tid, i, c);
    case Abandon(i) => AbandonMoveOk(s, log, tid, i, c);
    case AbandonObserve(i) => AbandonObserveMoveOk(s, log, tid, i, c);
    case AbandonCommit(i) => AbandonCommitMoveOk(s, log, tid, i, c);
    case Done(_) => ReadMoveOk(s, log, tid, t, c);
  }

  // --------------------------------------------------------------- whole runs

  lemma RunKeepsInv(s: State, tid: nat, c: Choice)
    requires Inv(s)
    ensures Inv(Apply(s, Run(tid, c))) && Advances(s.shared.row, Apply(s, Run(tid, c)).shared.row)
  {
    if tid in s.threads && !(NeedsLock(s.threads[tid].pc) && s.shared.lock.Some?) {
      var m := MoveOf(s.shared, tid, s.threads[tid], c);
      ThreadMoveOk(s.shared, s.log, tid, s.threads[tid], c);
      forall t | t in s.threads && t != tid ensures PcOk(m.row, m.lock, s.log + m.events, t, s.threads[t].pc) {
        PcKept(s.shared.row, s.shared.lock, s.log, m.row, m.lock, m.events, t, s.threads[t].pc);
      }
    }
  }

  lemma CrashKeepsInv(s: State, tid: nat)
    requires Inv(s)
    ensures Inv(Apply(s, Crash(tid)))
  {
    if tid in s.threads {
      var lock := if s.shared.lock == Some(tid) then None else s.shared.lock;
      assert s.log + [] == s.log;
      forall t | t in s.threads && t != tid ensures PcOk(s.shared.row, lock, s.log, t, s.threads[t].pc) {
        PcKept(s.shared.row, s.shared.lock, s.log, s.shared.row, lock, [], t, s.threads[t].pc);
      }
    }
  }

  lemma StepKeepsInv(s: State, a: Action)
    requires Inv(s)
    ensures Inv(Apply(s, a)) && Advances(s.shared.row, Apply(s, a).shared.row)
  {
    match a
    case Spawn(t, x, recovering) =>
    case Run(t, c) => RunKeepsInv(s, t, c);
    case Crash(t) => CrashKeepsInv(s, t);
    case Outside(r) =>
  }

  lemma {:induction false} RunsKeepInv(s: State, actions: seq<Action>)
    requires Inv(s)
    ensures Inv(RunAll(s, actions)) && Advances(s.shared.row, RunAll(s, actions).shared.row)
  {
    if actions != [] {
      var most := actions[..|actions|-1];
      RunsKeepInv(s, most);
      StepKeepsInv(RunAll(s, most), actions[|actions|-1]);
    }
  }

  /** Over every interleaving, crash and outside write, starting from any ref:
      the service writes the ref only from the approved previous commit to the
      result and only while the row is prepared; once the row is abandoned (or
      otherwise retired) it never writes it again; and a result is returned only
      after the row was published and that caller then saw the ref at the result. */
  lemma PublicationSafety(ref: Ref, actions: seq<Action>)
    ensures var s := RunAll(Init(ref), actions);
      && (forall e :: e in s.log && e.RefWritten? ==>
            s.shared.row.Some? && e.from == Previous(s.shared.row.value.intent) && e.to == At(s.shared.row.value.intent.result)
            && e.row == Some(Row(s.shared.row.value.intent, Prepared)))
      && (forall i, j :: 0 <= i < j < |s.log| && s.log[i].Journaled? && Terminal(s.log[i].phase) ==> !s.log[j].RefWritten?)
      && (forall k :: 0 <= k < |s.log| && s.log[k].Returned? ==>
            s.shared.row.Some? && Witnessed(s.log[..k], s.log[k].thread, s.shared.row.value.intent.result))
  {
    var s := RunAll(Init(ref), actions);
    RunsKeepInv(Init(ref), actions);
    assert forall e :: e in s.log ==> ApprovedWrite(e, s.shared.row);
    forall k | 0 <= k < |s.log| && s.log[k].Returned?
      ensures s.shared.row.Some? && Witnessed(s.log[..k], s.log[k].thread, s.shared.row.value.intent.result) {
      assert Grounded(s.log, k, s.shared.row);
    }
  }

  /** All published results ever returned carry the one journaled receipt. */
  lemma OneReceipt(ref: Ref, actions: seq<Action>, j: nat, k: nat)
    requires j < |RunAll(Init(ref), actions).log| && k < |RunAll(Init(ref), actions).log|
    requires RunAll(Init(ref), actions).log[j].Returned? && RunAll(Init(ref), actions).log[k].Returned?
    ensures var s := RunAll(Init(ref), actions);
      s.log[j].receipt == s.log[k].receipt && s.shared.row.Some? && s.log[j].receipt == s.shared.row.value.intent.receipt
  {
    var s := RunAll(Init(ref), actions);
    RunsKeepInv(Init(ref), actions);
    assert Grounded(s.log, j, s.shared.row) && Grounded(s.log, k, s.shared.row);
  }

  lemma {:induction false} RunsJoin(s: State, a: seq<Action>, b: seq<Action>)
    ensures RunAll(s, a + b) == RunAll(RunAll(s, a), b)
  {
    if b == [] {
      assert a + b == a;
    } else {
      assert (a + b)[..|a + b| - 1] == a + b[..|b|-1];
      RunsJoin(s, a, b[..|b|-1]);
    }
  }

  /** A retired row is final: whatever happens later, it is never touched again. */
  lemma RetiredForever(ref: Ref, before: seq<Action>, after: seq<Action>)
    requires var row := RunAll(Init(ref), before).shared.row; row.Some? && Terminal(row.value.phase)
    ensures RunAll(Init(ref), before + after).shared.row == RunAll(Init(ref), before).shared.row
  {
    RunsJoin(Init(ref), before, after);
    RunsKeepInv(Init(ref), before);
    RunsKeepInv(RunAll(Init(ref), before), after);
  }

  /** No call reports "not applied" once another returned a published result, and
      the other way round: the two answers exclude each other forever. */
  lemma AnswersExclusive(ref: Ref, actions: seq<Action>, t: nat, u: nat)
    requires var s := RunAll(Init(ref), actions);
      t in s.threads && u in s.threads && s.threads[t].pc == Done(NotApplied) && s.threads[u].pc.Done?
    ensures !RunAll(Init(ref), actions).threads[u].pc.ending.Result?
  {
    var s := RunAll(Init(ref), actions);
    RunsKeepInv(Init(ref), actions);
    assert PcOk(s.shared.row, s.shared.lock, s.log, t, s.threads[t].pc);
    assert PcOk(s.shared.row, s.shared.lock, s.log, u, s.threads[u].pc);
  }

  // ------------------------------------------------------------- it gets there

  /** One thread running alone, every call succeeding. */
  function Alone(s: State, t: nat, n: nat): State { if n == 0 then s else Apply(Alone(s, t, n - 1), Run(t, Work)) }

  ghost predicate Stands(s: State, t: nat, shared: Shared, x: Input, pc: Pc) {
    s.shared == shared && t in s.threads && s.threads[t] == Thread(x, pc)
  }

  /** Running alone, the thread gets to this point. A proof unfolds it only where it mentions `Open`. */
  ghost predicate Reaches(s: State, t: nat, shared: Shared, x: Input, pc: Pc) {
    forall k: int {:trigger Open(k)} :: Open(k) ==> exists n: nat :: Stands(Alone(s, t, n), t, shared, x, pc)
  }

  lemma ReachesStart(s: State, t: nat, shared: Shared, x: Input, pc: Pc)
    requires Stands(s, t, shared, x, pc)
    ensures Reaches(s, t, shared, x, pc)
  {
    assert Open(0) && Alone(s, t, 0) == s;
  }

  lemma StepStands(s: State, t: nat, before: Shared, x: Input, pc: Pc, m: Move)
    requires Stands(s, t, before, x, pc) && (NeedsLock(pc) ==> before.lock.None?) && m == MoveOf(before, t, Thread(x, pc), Work)
    ensures Stands(Apply(s, Run(t, Work)), t, Moved(before, m), x, m.pc)
  {
    assert Run(t, Work).Run?;
  }

  /** One more step of the lone thread, read off its move. */
  lemma ReachesNext(s: State, t: nat, before: Shared, x: Input, pc: Pc, after: Shared, next: Pc)
    requires Reaches(s, t, before, x, pc) && (NeedsLock(pc) ==> before.lock.None?)
    requires var m := MoveOf(before, t, Thread(x, pc), Work); Moved(before, m) == after && m.pc == next
    ensures Reaches(s, t, after, x, next)
  {
    assert Open(0);
    var n: nat :| Stands(Alone(s, t, n), t, before, x, pc);
    StepStands(Alone(s, t, n), t, before, x, pc, MoveOf(before, t, Thread(x, pc), Work));
    assert Alone(s, t, n + 1) == Apply(Alone(s, t, n), Run(t, Work));
  }

  /** What a recovering caller finds: a row it can match, and nobody holding the lock. */
  ghost predicate Recovering(s: State, t: nat, x: Input, i: Intent, phase: Phase, ref: Ref) {
    Stands(s, t, Shared(Some(Row(i, phase)), ref, None, s.shared.released), x, RecoverStart)
    && Recoverable(x, i.receipt) && i == RecoveryIntent(x, i.receipt)
  }

  /** If the update had reached the ref, recovery publishes and returns the journaled receipt. */
  lemma RecoverFinishes(s: State, t: nat, x: Input, i: Intent, phase: Phase)
    requires Recovering(s, t, x, i, phase, At(i.result)) && phase in {Prepared, Published}
    ensures Reaches(s, t, Shared(Some(Row(i, Published)), At(i.result), None, true), x, Done(Result(i.receipt, true, true)))
  {
    var a := Shared(Some(Row(i, phase)), At(i.result), None, s.shared.released);
    var b := a.(row := Some(Row(i, Published)));
    ReachesStart(s, t, a, x, RecoverStart);
    ReachesNext(s, t, a, x, RecoverStart, a, RecoverObserve(i, phase));
    if phase == Published {
      ReachesNext(s, t, a, x, RecoverObserve(i, phase), a, Release(i, true));
      ReachesNext(s, t, a, x, Release(i, true), a.(released := true), Done(Result(i.receipt, true, true)));
    } else {
      ReachesNext(s, t, a, x, RecoverObserve(i, phase), a, RecoverRow(i));
      ReachesNext(s, t, a, x, RecoverRow(i), b, Observe(i, false));
      ReachesNext(s, t, b, x, Observe(i, false), b, Release(i, true));
      ReachesNext(s, t, b, x, Release(i, true), b.(released := true), Done(Result(i.receipt, true, true)));
    }
  }

  lemma PreparedAbandons(s: State, t: nat, x: Input, i: Intent)
    requires Recovering(s, t, x, i, Prepared, Previous(i)) && Previous(i) != At(i.result)
    ensures Reaches(s, t, Shared(Some(Row(i, Abandoned)), Previous(i), None, true), x, Done(NotApplied))
  {
    var a := Shared(Some(Row(i, Prepared)), Previous(i), None, s.shared.released);
    ReachesStart(s, t, a, x, RecoverStart);
    ReachesNext(s, t, a, x, RecoverStart, a, RecoverObserve(i, Prepared));
    ReachesNext(s, t, a, x, RecoverObserve(i, Prepared), a, Abandon(i));
    AbandoningEnds(s, t, x, i, a);
  }

  lemma AbandoningEnds(s: State, t: nat, x: Input, i: Intent, a: Shared)
    requires Reaches(s, t, a, x, Abandon(i)) && a == Shared(Some(Row(i, Prepared)), Previous(i), None, a.released)
    ensures Reaches(s, t, Shared(Some(Row(i, Abandoned)), Previous(i), None, true), x, Done(NotApplied))
  {
    var b := a.(row := Some(Row(i, Abandoned)));
    var held := a.(lock := Some(t));
    ReachesNext(s, t, a, x, Abandon(i), held, AbandonObserve(i));
    ReachesNext(s, t, held, x, AbandonObserve(i), held, AbandonCommit(i));
    ReachesNext(s, t, held, x, AbandonCommit(i), b, ReleaseAbandoned(i));
    ReachesNext(s, t, b, x, ReleaseAbandoned(i), b.(released := true), Done(NotApplied));
  }

  /** If it had not, recovery retires the attempt for good and leaves the ref alone. */
  lemma RecoverAbandons(s: State, t: nat, x: Input, i: Intent, phase: Phase)
    requires Recovering(s, t, x, i, phase, Previous(i)) && Previous(i) != At(i.result) && phase in {Prepared, Abandoned}
    ensures Reaches(s, t, Shared(Some(Row(i, Abandoned)), Previous(i), None, true), x, Done(NotApplied))
  {
    if phase == Prepared {
      PreparedAbandons(s, t, x, i);
    } else {
      var a := Shared(Some(Row(i, phase)), Previous(i), None, s.shared.released);
      ReachesStart(s, t, a, x, RecoverStart);
      ReachesNext(s, t, a, x, RecoverStart, a, ReleaseAbandoned(i));
      ReachesNext(s, t, a, x, ReleaseAbandoned(i), a.(released := true), Done(NotApplied));
    }
  }

  /** A lone publisher starting from the approved previous commit moves the ref
      to the result and returns the receipt it built from its own clock. */
  lemma PublishPublishes(s: State, t: nat, x: Input, i: Intent)
    requires i == PublishIntent(x, Times(x.now, x.now)) && Previous(i) != At(i.result)
    requires Stands(s, t, Shared(None, Previous(i), None, false), x, PublishStart)
    ensures Reaches(s, t, Shared(Some(Row(i, Published)), At(i.result), None, true), x, Done(Result(i.receipt, false, true)))
  {
    var z, a := Shared(None, Previous(i), None, false), Shared(Some(Row(i, Prepared)), Previous(i), None, false);
    var held, moved := a.(lock := Some(t)), a.(lock := Some(t), ref := At(i.result));
    var b := Shared(Some(Row(i, Published)), At(i.result), None, false);
    ReachesStart(s, t, z, x, PublishStart);
    ReachesNext(s, t, z, x, PublishStart, z, Prepare(i));
    ReachesNext(s, t, z, x, Prepare(i), a, Complete(i));
    ReachesNext(s, t, a, x, Complete(i), held, CasObserve(i));
    ReachesNext(s, t, held, x, CasObserve(i), held, CasWrite(i));
    ReachesNext(s, t, held, x, CasWrite(i), moved, CasDone(i));
    ReachesNext(s, t, moved, x, CasDone(i), b, Observe(i, true));
    ReachesNext(s, t, b, x, Observe(i, true), b, Release(i, false));
    ReachesNext(s, t, b, x, Release(i, false), b.(released := true), Done(Result(i.receipt, false, true)));
  }
}
