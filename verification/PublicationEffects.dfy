/** What the pipeline may rely on when it calls the publication service, derived
    from the interleaved protocol: every stretch of protocol steps shows, in the
    durable pieces of the delivery, one of the effects `Services.Publishes` allows. */
module PublicationEffects {
  import opened Cards
  import opened Seqs
  import opened Delivery
  import opened Services
  import P = Publication

  // ------------------------------------------------------ the approved request

  function Start(previous: Option<string>): P.Ref { if previous.Some? then P.At(previous.value) else P.Missing }

  /** The approved request fixes the previous commit, and a result is a new commit. */
  predicate Approved(i: P.Intent, previous: Option<string>) { i.request.previous == previous && previous != Some(i.result) }

  predicate ApprovedInput(x: P.Input, previous: Option<string>) {
    x.request.previous == previous && previous != Some(x.result.id)
  }

  // ------------------------------------------------------- without outsiders

  /** The ref is where the row says. */
  predicate RowFits(row: Option<P.Row>, ref: P.Ref, previous: Option<string>) {
    if row.None? then ref == Start(previous)
    else
      && Approved(row.value.intent, previous) && row.value.phase != P.Conflict
      && (ref == Start(previous) || ref == P.At(row.value.intent.result))
      && (row.value.phase == P.Abandoned ==> ref == Start(previous))
      && (row.value.phase == P.Published ==> ref == P.At(row.value.intent.result))
  }

  /** What a thread knows about the ref while nobody else writes it. */
  predicate PcFits(pc: P.Pc, ref: P.Ref, previous: Option<string>) {
    && (!pc.PublishStart? && !pc.RecoverStart? && !pc.Done? ==> Approved(pc.intent, previous))
    && !pc.MarkConflict?
    && (pc.CasDone? || pc.RecoverRow? ==> ref == P.At(pc.intent.result))
    && (pc.AbandonCommit? ==> ref == Start(previous))
  }

  ghost predicate Undisturbed(s: P.State, previous: Option<string>) {
    && RowFits(s.shared.row, s.shared.ref, previous)
    && forall t :: t in s.threads ==>
         ApprovedInput(s.threads[t].input, previous) && PcFits(s.threads[t].pc, s.shared.ref, previous)
  }

  /** What a step of one thread does to the ref and to its own knowledge. */
  predicate StepFits(s: P.Shared, tid: nat, m: P.Move, previous: Option<string>) {
    && RowFits(m.row, m.ref, previous) && PcFits(m.pc, m.ref, previous)
    && (m.ref != s.ref ==> s.ref == Start(previous) && s.lock == Some(tid) && s.row.Some? && m.ref == P.At(s.row.value.intent.result))
  }

  ghost predicate Standing(s: P.Shared, log: seq<P.Event>, tid: nat, t: P.Thread, previous: Option<string>) {
    P.Ready(s, log, tid, t.pc) && RowFits(s.row, s.ref, previous)
    && ApprovedInput(t.input, previous) && PcFits(t.pc, s.ref, previous)
  }

  lemma PublishingStep(s: P.Shared, log: seq<P.Event>, tid: nat, t: P.Thread, c: P.Choice, previous: Option<string>)
    requires Standing(s, log, tid, t, previous)
    requires t.pc.PublishStart? || t.pc.Prepare? || t.pc.Reread? || t.pc.Complete?
    ensures StepFits(s, tid, P.MoveOf(s, tid, t, c), previous)
  {}

  lemma SwappingStep(s: P.Shared, log: seq<P.Event>, tid: nat, t: P.Thread, c: P.Choice, previous: Option<string>)
    requires Standing(s, log, tid, t, previous)
    requires t.pc.CasObserve? || t.pc.CasWrite? || t.pc.CasReobserve? || t.pc.CasDone?
    ensures StepFits(s, tid, P.MoveOf(s, tid, t, c), previous)
  {}

  lemma RecoveringStep(s: P.Shared, log: seq<P.Event>, tid: nat, t: P.Thread, c: P.Choice, previous: Option<string>)
    requires Standing(s, log, tid, t, previous)
    requires t.pc.RecoverStart? || t.pc.RecoverObserve? || t.pc.RecoverRow? || t.pc.Abandon? || t.pc.AbandonObserve? || t.pc.AbandonCommit?
    ensures StepFits(s, tid, P.MoveOf(s, tid, t, c), previous)
  {}

  lemma EndingStep(s: P.Shared, log: seq<P.Event>, tid: nat, t: P.Thread, c: P.Choice, previous: Option<string>)
    requires Standing(s, log, tid, t, previous)
    requires t.pc.Observe? || t.pc.Release? || t.pc.ReleaseAbandoned? || t.pc.Done?
    ensures StepFits(s, tid, P.MoveOf(s, tid, t, c), previous)
  {}

  lemma EveryStep(s: P.Shared, log: seq<P.Event>, tid: nat, t: P.Thread, c: P.Choice, previous: Option<string>)
    requires Standing(s, log, tid, t, previous)
    ensures StepFits(s, tid, P.MoveOf(s, tid, t, c), previous)
  {
    if t.pc.PublishStart? || t.pc.Prepare? || t.pc.Reread? || t.pc.Complete? {
      PublishingStep(s, log, tid, t, c, previous);
    } else if t.pc.CasObserve? || t.pc.CasWrite? || t.pc.CasReobserve? || t.pc.CasDone? {
      SwappingStep(s, log, tid, t, c, previous);
    } else if t.pc.Observe? || t.pc.Release? || t.pc.ReleaseAbandoned? || t.pc.Done? {
      EndingStep(s, log, tid, t, c, previous);
    } else {
      RecoveringStep(s, log, tid, t, c, previous);
    }
  }

  /** The other threads' knowledge survives the step: only the holder of the lock
      moves the ref, and only away from the previous commit. */
  lemma OthersKept(s: P.Shared, log: seq<P.Event>, tid: nat, m: P.Move, u: nat, pc: P.Pc, previous: Option<string>)
    requires StepFits(s, tid, m, previous) && u != tid
    requires P.PcOk(s.row, s.lock, log, u, pc) && PcFits(pc, s.ref, previous)
    ensures PcFits(pc, m.ref, previous)
  {}

  predicate Inside(a: P.Action, previous: Option<string>) {
    !a.Outside? && (a.Spawn? ==> ApprovedInput(a.input, previous))
  }

  lemma RunStaysUndisturbed(s: P.State, tid: nat, c: P.Choice, previous: Option<string>)
    requires P.Inv(s) && Undisturbed(s, previous)
    ensures var s' := P.Apply(s, P.Run(tid, c));
      Undisturbed(s', previous) && (s'.shared.ref == s.shared.ref || (s.shared.ref == Start(previous) && s'.shared.row.Some?))
  {
    if tid in s.threads && !(P.NeedsLock(s.threads[tid].pc) && s.shared.lock.Some?) {
      var t := s.threads[tid];
      var m := P.MoveOf(s.shared, tid, t, c);
      EveryStep(s.shared, s.log, tid, t, c, previous);
      P.ThreadMoveOk(s.shared, s.log, tid, t, c);
      forall u | u in s.threads && u != tid ensures PcFits(s.threads[u].pc, m.ref, previous) {
        OthersKept(s.shared, s.log, tid, m, u, s.threads[u].pc, previous);
      }
    }
  }

  lemma StepStaysUndisturbed(s: P.State, a: P.Action, previous: Option<string>)
    requires P.Inv(s) && Undisturbed(s, previous) && Inside(a, previous)
    ensures var s' := P.Apply(s, a);
      Undisturbed(s', previous) && (s'.shared.ref == s.shared.ref || (s.shared.ref == Start(previous) && s'.shared.row.Some?))
  {
    match a
    case Spawn(t, x, recovering) =>
    case Run(t, c) => RunStaysUndisturbed(s, t, c, previous);
    case Crash(t) =>
  }

  lemma {:induction false} StaysUndisturbed(s: P.State, actions: seq<P.Action>, previous: Option<string>)
    requires P.Inv(s) && Undisturbed(s, previous) && forall a :: a in actions ==> Inside(a, previous)
    ensures var s' := P.RunAll(s, actions);
      Undisturbed(s', previous) && (s'.shared.ref == s.shared.ref || (s.shared.ref == Start(previous) && s'.shared.row.Some?))
  {
    if actions != [] {
      var most := actions[..|actions| - 1];
      StaysUndisturbed(s, most, previous);
      P.RunsKeepInv(s, most);
      P.StepKeepsInv(P.RunAll(s, most), actions[|actions| - 1]);
      StepStaysUndisturbed(P.RunAll(s, most), actions[|actions| - 1], previous);
    }
  }

  // ------------------------------------------------------------ what is shown

  function PhaseOf(s: P.Shared): Option<P.Phase> { if s.row.Some? then Some(s.row.value.phase) else None }

  function PlaceOf(s: P.Shared, previous: Option<string>): Place {
    if s.ref == Start(previous) then AtPrevious
    else if s.row.Some? && s.ref == P.At(s.row.value.intent.result) then AtResult
    else Elsewhere
  }

  /** The durable pieces after the protocol has reached `s`. */
  function After(d: Durable, s: P.Shared, previous: Option<string>): Durable {
    d.(journal := PhaseOf(s), ref := PlaceOf(s, previous), lease := if s.released then ReleasedLease else d.lease)
  }

  predicate Shows(s: P.Shared, d: Durable, previous: Option<string>) { After(d, s, previous) == d }

  predicate Returned(s: P.State, t: nat) { t in s.threads && s.threads[t].pc.Done? && s.threads[t].pc.ending.Result? }

  /** The store journals a new intent only under these conditions. */
  predicate Journalable(d: Durable) { d.run == Validating && d.attempt == Succeeded && d.lease == ActiveLease }

  /** Under a closed gate every attempt to journal a new row fails. */
  ghost predicate Refused(s: P.State, actions: seq<P.Action>) {
    forall k :: 0 <= k < |actions| ==> RefusedAt(P.RunAll(s, actions[..k]), actions[k])
  }

  ghost predicate RefusedAt(s: P.State, a: P.Action) {
    a.Run? && a.thread in s.threads && s.threads[a.thread].pc.Prepare? && s.shared.row.None? ==> a.choice == P.Fail
  }

  lemma StaysEmpty(s: P.State, a: P.Action)
    requires P.Inv(s) && s.shared.row.None? && RefusedAt(s, a)
    ensures P.Apply(s, a).shared.row.None?
  {
    if a.Run? && a.thread in s.threads {
      assert P.PcOk(s.shared.row, s.shared.lock, s.log, a.thread, s.threads[a.thread].pc);
    }
  }

  lemma {:induction false} NothingJournaled(s: P.State, actions: seq<P.Action>)
    requires P.Inv(s) && s.shared.row.None? && Refused(s, actions)
    ensures P.RunAll(s, actions).shared.row.None?
  {
    if actions != [] {
      var most := actions[..|actions| - 1];
      forall k | 0 <= k < |most| ensures RefusedAt(P.RunAll(s, most[..k]), most[k]) {
        assert most[..k] == actions[..k] && RefusedAt(P.RunAll(s, actions[..k]), actions[k]);
      }
      NothingJournaled(s, most);
      P.RunsKeepInv(s, most);
      assert RefusedAt(P.RunAll(s, most), actions[|actions| - 1]);
      StaysEmpty(P.RunAll(s, most), actions[|actions| - 1]);
    }
  }

  /** The journal side of the bound, whoever interferes. */
  lemma RowEffects(s: P.State, actions: seq<P.Action>, t: nat, d: Durable)
    requires P.Inv(s) && d.journal == PhaseOf(s.shared) && (s.shared.released ==> d.lease == ReleasedLease)
    requires d.journal.None? && !Journalable(d) ==> Refused(s, actions)
    ensures var s' := P.RunAll(s, actions);
      && (d.journal != PhaseOf(s'.shared) ==>
            PhaseOf(s'.shared).Some? && if d.journal.None? then Journalable(d) else d.journal.value == P.Prepared)
      && (s'.shared.released ==> P.Finished(s'.shared.row))
      && (Returned(s', t) ==> PhaseOf(s'.shared) == Some(P.Published))
  {
    var s' := P.RunAll(s, actions);
    P.RunsKeepInv(s, actions);
    if d.journal.None? && !Journalable(d) { NothingJournaled(s, actions); }
    if Returned(s', t) { assert P.PcOk(s'.shared.row, s'.shared.lock, s'.log, t, s'.threads[t].pc); }
  }

  // ---------------------------------------------------------------- theorems

  /** Without an outside writer, whatever calls run, interleave, fail and crash
      between two moments, the durable pieces change as `Publishes` says, and the
      ref is where the journal says. */
  lemma CallsPublish(s: P.State, actions: seq<P.Action>, previous: Option<string>, t: nat, d: Durable)
    requires P.Inv(s) && Undisturbed(s, previous) && Shows(s.shared, d, previous)
    requires forall a :: a in actions ==> Inside(a, previous)
    requires d.journal.None? && !Journalable(d) ==> Refused(s, actions)
    ensures var s' := P.RunAll(s, actions);
      && Publishes(d, After(d, s'.shared, previous), Returned(s', t))
      && RefFits(PhaseOf(s'.shared), PlaceOf(s'.shared, previous))
  {
    RowEffects(s, actions, t, d);
    StaysUndisturbed(s, actions, previous);
  }

  /** From the first call on: the premises of `CallsPublish` hold after every run
      without outsiders, so it covers every stretch of every such history. */
  lemma HistoryUndisturbed(previous: Option<string>, actions: seq<P.Action>)
    requires forall a :: a in actions ==> Inside(a, previous)
    ensures var s := P.RunAll(P.Init(Start(previous)), actions);
      && P.Inv(s) && Undisturbed(s, previous) && RefFits(PhaseOf(s.shared), PlaceOf(s.shared, previous))
  {
    P.RunsKeepInv(P.Init(Start(previous)), actions);
    StaysUndisturbed(P.Init(Start(previous)), actions, previous);
  }

  /** With outside writers as well, the effect is one outside write of the ref
      followed by an effect `Publishes` allows. */
  lemma DisturbedCallsPublish(s: P.State, actions: seq<P.Action>, previous: Option<string>, t: nat, d: Durable)
    requires P.Inv(s) && d.journal == PhaseOf(s.shared) && (s.shared.released ==> d.lease == ReleasedLease)
    requires d.journal.None? && !Journalable(d) ==> Refused(s, actions)
    ensures var s' := P.RunAll(s, actions);
      var e := d.(ref := PlaceOf(s'.shared, previous), touched := true);
      Env(d, e) && Publishes(e, After(e, s'.shared, previous), Returned(s', t))
  {
    RowEffects(s, actions, t, d);
  }

  /** A thread running alone ends with these durable pieces and this answer. */
  ghost predicate Leads(s: P.State, t: nat, previous: Option<string>, d: Durable, next: Durable, receipt: bool) {
    exists n: nat :: After(d, P.Alone(s, t, n).shared, previous) == next && t in P.Alone(s, t, n).threads
      && P.Alone(s, t, n).threads[t].pc.Done? && Returned(P.Alone(s, t, n), t) == receipt
  }

  lemma Reached(s: P.State, t: nat, shared: P.Shared, x: P.Input, ending: P.Ending, previous: Option<string>, d: Durable, next: Durable)
    requires P.Reaches(s, t, shared, x, P.Done(ending)) && After(d, shared, previous) == next
    ensures Leads(s, t, previous, d, next, ending.Result?)
  {
    assert Open(0);
    var n: nat :| P.Stands(P.Alone(s, t, n), t, shared, x, P.Done(ending));
  }

  /** An undisturbed publisher does what the pipeline expects of it. */
  lemma PublishableLeads(s: P.State, t: nat, x: P.Input, previous: Option<string>, d: Durable)
    requires Publishable(d) && Shows(s.shared, d, previous) && s.shared.lock.None? && ApprovedInput(x, previous)
    requires t in s.threads && s.threads[t] == P.Thread(x, P.PublishStart)
    ensures Leads(s, t, previous, d, PublishedFrom(d), true)
  {
    var i := P.PublishIntent(x, P.Times(x.now, x.now));
    P.PublishPublishes(s, t, x, i);
    Reached(s, t, P.Shared(Some(P.Row(i, P.Published)), P.At(i.result), None, true), x,
            P.Result(i.receipt, false, true), previous, d, PublishedFrom(d));
  }

  /** A recovering caller that can match the journaled receipt. */
  ghost predicate Matching(s: P.State, t: nat, x: P.Input, previous: Option<string>) {
    && s.shared.row.Some? && s.shared.lock.None? && t in s.threads && s.threads[t] == P.Thread(x, P.RecoverStart)
    && Approved(s.shared.row.value.intent, previous)
    && var i := s.shared.row.value.intent; P.Recoverable(x, i.receipt) && i == P.RecoveryIntent(x, i.receipt)
  }

  lemma FinishableLeads(s: P.State, t: nat, x: P.Input, previous: Option<string>, d: Durable)
    requires Finishable(d) && Shows(s.shared, d, previous) && Matching(s, t, x, previous)
    ensures Leads(s, t, previous, d, PublishedFrom(d), true)
  {
    var i := s.shared.row.value.intent;
    P.RecoverFinishes(s, t, x, i, s.shared.row.value.phase);
    Reached(s, t, P.Shared(Some(P.Row(i, P.Published)), P.At(i.result), None, true), x,
            P.Result(i.receipt, true, true), previous, d, PublishedFrom(d));
  }

  lemma AbandonableLeads(s: P.State, t: nat, x: P.Input, previous: Option<string>, d: Durable)
    requires Abandonable(d) && Shows(s.shared, d, previous) && Matching(s, t, x, previous)
    ensures Leads(s, t, previous, d, AbandonedFrom(d), false)
  {
    var i := s.shared.row.value.intent;
    P.RecoverAbandons(s, t, x, i, s.shared.row.value.phase);
    Reached(s, t, P.Shared(Some(P.Row(i, P.Abandoned)), P.Previous(i), None, true), x,
            P.NotApplied, previous, d, AbandonedFrom(d));
  }
}
