// The alarm, a routine's signals and the sweep keep every kind
// (worker/src/coordinate/watchdog.ts, routine-signal.ts, reconcile.ts).

module WatchdogKeeps {
  import opened Wrappers
  import opened Graph
  import opened Labels
  import opened Items
  import opened Apply
  import opened Deliveries
  import opened Webhook
  import opened Watchdog
  import opened Kinds
  import opened Keeps
  import opened GateKeeps
  import opened WebhookKeeps

  /** Kinds that stand across an alarm, a signal or the sweep, which replace
      or end the pending fire without any rule. */
  predicate Lasting(k: Kind) {
    Handled(k) && !k.Quiet? && !k.Unmatched? && FromGithub(k)
  }

  /** An id not yet seen is one of GitHub's: the Worker's own come as it goes. */
  predicate FromGithub(k: Kind) {
    k.Unseen? ==> k.id.Github?
  }

  // --- recovery ---

  lemma OpenStays(c: Ctx, k: Kind, s: Item, st: Step<Result>)
    requires Ready(c, k, s) && KeptOpen(c, k, st) && !k.Unmatched?
    ensures Ready(c, k, st.s)
  {
    hide Holds, NoFailures;
    if Ready(c, Opened(k), st.s) {
      OpenedIsEnough(c, k, st.s);
    }
  }

  lemma KeepRecovered(c: Ctx, k: Kind, s: Item, f: Fire, r: Result)
    requires Ready(c, k, s) && !k.Quiet?
    ensures Ready(c, k, Recovered(c, s, f, r).s)
  {
    hide Ready, Log, NoFailures;
    KeepLog(c, k, s);
    KeepDisarm(c, k, Log(c, s).s);
  }

  lemma NotesFit(k: Kind, f: Fire, n: Note)
    requires Handled(k)
    ensures Fits(k, Replay(f, n).payload) && Replay(f, n).id.RecoverId?
  {
  }

  lemma {:induction false} KeepTryNotes(c: Ctx, k: Kind, s: Item, f: Fire, notes: seq<Note>, j: nat)
    requires j <= |notes| && Ready(c, k, s) && Handled(k) && !k.Unmatched? && FromGithub(k)
    ensures Ready(c, k, TryNotes(c, s, f, notes, j).s)
    decreases j
  {
    hide Ready, CoordinateWebhook, Recovered, NoFailures, Opened, Fits, Handled;
    if j > 0 {
      var n := notes[j - 1];
      if n.createdAt < f.firedAt || n.remark.routine != Some(f.run) {
        KeepTryNotes(c, k, s, f, notes, j - 1);
      } else {
        NotesFit(k, f, n);
        KeepDelivery(c, k, s, Replay(f, n));
        var st := CoordinateWebhook(c, s, Replay(f, n));
        OpenStays(c, k, s, st);
        if st.Ret? && st.v.Applied? {
          KeepRecoveredOpen(c, k, s, st.s, f, st.v);
        } else if st.Ret? {
          KeepTryNotes(c, k, st.s, f, notes, j - 1);
        }
      }
    }
  }

  lemma KeepRecoveredOpen(c: Ctx, k: Kind, s: Item, t: Item, f: Fire, r: Result)
    requires Ready(c, k, s) && Ready(c, Opened(k), t) && !k.Unmatched?
    ensures Ready(c, k, Recovered(c, t, f, r).s)
  {
    hide Ready, Recovered;
    KeepRecovered(c, Opened(k), t, f, r);
    OpenedAgain(c, k, s, Recovered(c, t, f, r).s);
  }

  lemma KeepMaybeRecover(c: Ctx, k: Kind, s: Item, f: Fire)
    requires Ready(c, k, s) && Handled(k) && !k.Unmatched? && FromGithub(k)
    ensures Ready(c, k, MaybeRecover(c, s, f).s)
  {
    hide Ready, Holds, Read, TryNotes, NoFailures, NoEdits, StuckFree, Handled;
    ReadGlances(c, s);
    var s1 := Read(c, s).s;
    KeepGlanced(c, k, s, s1);
    if Read(c, s).Ret? {
      var notes := Read(c, s).v.notes;
      KeepTryNotes(c, k, s1, f, notes, |notes|);
    }
    KeepUnexpired(c, k, RecoverOutcome(c, s, f).s);
  }

  /** A comment's delivery that applies nothing leaves the pending fire. */
  lemma QuietNote(c: Ctx, s: Item, f: Fire, n: Note)
    requires SameFire(s, f)
    ensures var st := CoordinateWebhook(c, s, Replay(f, n));
      st.Ret? && !st.v.Applied? ==> st.s.pending == s.pending && st.s.alarm == s.alarm
  {
    hide CoordinateWebhook, NoFailures, Tally;
    var n0 := Tally(s.trace, Matches);
    var still := Quiet(n0, s.pending, s.alarm, Fired(s.trace));
    KeepDelivery(c, Unmatched(n0), s, Replay(f, n));
    KeepDelivery(c, still, s, Replay(f, n));
  }

  lemma {:induction false} TryNotesStay(c: Ctx, s: Item, f: Fire, notes: seq<Note>, j: nat)
    requires j <= |notes| && SameFire(s, f)
    ensures var st := TryNotes(c, s, f, notes, j); st.Ret? && st.v.None? ==> SameFire(st.s, f)
    decreases j
  {
    hide CoordinateWebhook, Recovered;
    if j > 0 {
      var n := notes[j - 1];
      if n.createdAt < f.firedAt || n.remark.routine != Some(f.run) {
        TryNotesStay(c, s, f, notes, j - 1);
      } else {
        var st := CoordinateWebhook(c, s, Replay(f, n));
        QuietNote(c, s, f, n);
        if st.Ret? && !st.v.Applied? {
          TryNotesStay(c, st.s, f, notes, j - 1);
        } else if st.Ret? {
          RecoveredIsSome(c, st.s, f, st.v);
        }
      }
    }
  }

  lemma RecoveredIsSome(c: Ctx, s: Item, f: Fire, r: Result)
    ensures var st := Recovered(c, s, f, r); st.Ret? ==> st.v.Some?
  {
  }

  lemma MaybeRecoverStays(c: Ctx, s: Item, f: Fire)
    requires SameFire(s, f)
    ensures var st := MaybeRecover(c, s, f); st.Ret? && st.v.None? ==> SameFire(st.s, f)
  {
    hide TryNotes;
    if Read(c, s).Ret? {
      TryNotesStay(c, Read(c, s).s, f, Read(c, s).v.notes, |Read(c, s).v.notes|);
    }
  }

  // --- a deferred fire's alarm ---

  /** A fire pending at the handler's start may be fired again. */
  lemma PendingFits(c: Ctx, k: Kind, s: Item, run: Routine)
    requires Ready(c, k, s) && Lasting(k) && Running(s, run)
    requires k.Dry? ==> Deferred(s)
    ensures FireOk(k, s, true, run)
  {
    hide Tally, LastEntry, NoEdits, StuckFree, NoFailures;
  }

  lemma KeepSent(c: Ctx, k: Kind, s: Item, f: Fire)
    requires Ready(c, k, s) && Lasting(k) && s.pending == Some(f) && f.deferUntil.Some?
    ensures Ready(c, k, FireUnwatched(c, s, true, f.run, true).s)
    ensures Ready(c, k, FireWatched(c, s, true, f.run, f.retried, true).s)
  {
    hide Ready, FireOk, FireUnwatched, FireWatched, NoFailures, NoEdits, StuckFree, Lasting;
    PendingFits(c, k, s, f.run);
    KeepFireUnwatched(c, k, s, true, f.run, true);
    KeepFireWatched(c, k, s, true, f.run, f.retried, true);
  }

  lemma NotDry(c: Ctx, k: Kind, s: Item)
    requires Ready(c, k, s)
    ensures Deferred(s) ==> !k.Dry?
  {
  }

  lemma KeepDropDeferred(c: Ctx, k: Kind, s: Item)
    requires Ready(c, k, s) && Lasting(k) && !k.Dry?
    ensures Ready(c, k, DropDeferred(c, s))
  {
    hide Ready, Log, Comment, NoFailures, NoEdits, StuckFree;
    KeepLog(c, k, s);
    var s1 := Log(c, s).s;
    KeepComment(c, k, s1, true);
    KeepDisarm(c, k, s1);
    KeepDisarm(c, k, Comment(c, s1, true).s);
  }

  lemma KeepReportDeferred(c: Ctx, k: Kind, s: Item)
    requires Ready(c, k, s) && !k.Dry?
    ensures Ready(c, k, ReportDeferredFailed(c, s))
  {
    hide Ready, Log, Comment, NoFailures, NoEdits, StuckFree;
    KeepLog(c, k, s);
    KeepComment(c, k, Log(c, s).s, true);
  }

  lemma KeepSendDeferred(c: Ctx, k: Kind, s: Item, f: Fire)
    requires Ready(c, k, s) && Lasting(k) && s.pending == Some(f) && f.deferUntil.Some?
    ensures Ready(c, k, SendDeferred(c, s, f).s)
  {
    hide Ready, Holds, GetLabels, DropDeferred, ReportDeferredFailed, FireUnwatched, FireWatched, StillWanted, DeriveState, Lasting,
      NoEdits, StuckFree;
    LabelsGlance(c, s);
    var s1 := GetLabels(c, s).s;
    KeepGlanced(c, k, s, s1);
    NotDry(c, k, s1);
    KeepDropDeferred(c, k, s1);
    KeepSent(c, k, s1, f);
    var sent := if f.unwatched then FireUnwatched(c, s1, true, f.run, true)
                else FireWatched(c, s1, true, f.run, f.retried, true);
    KeepReportDeferred(c, k, sent.s);
  }

  // --- the expiry ---

  /** An expiry's own record: only for the run that was pending. */
  lemma KeepExpiry(c: Ctx, k: Kind, s: Item, f: Fire)
    requires Ready(c, k, s) && (OfStuck(k) ==> SameFire(s, f))
    ensures var t := if c.Enforced(WatchdogExpired) then PutExpired(s, f.run == ReworkLoop) else s;
      Ready(c, k, t) && (OfStuck(k) && c.Enforced(WatchdogExpired) && t.reworkExpired ==> Running(t, ReworkLoop))
  {
    hide Tally, LastEntry, NoEdits, StuckFree, NoFailures, Passed;
  }

  lemma KeepAlert(c: Ctx, k: Kind, s: Item)
    requires Ready(c, k, s)
    ensures var st := Say(c, s, c.Enforced(WatchdogExpired), CommentWrite(true));
      Ready(c, k, st.s) && Steady(c, s, st.s) && st.s.pending == s.pending
  {
    hide Ready, Say, NoEdits, StuckFree, NoFailures;
    DryIsShadow(c, k, s);
    KeepSay(c, k, s, c.Enforced(WatchdogExpired), CommentWrite(true));
    SayFrames(c, s, c.Enforced(WatchdogExpired), CommentWrite(true));
  }

  lemma ExpiryReads(c: Ctx, k: Kind, s: Item, t: Item, cl: set<Label>)
    requires Reads(k, s, cl) && t.labels == s.labels
    requires OfStuck(k) && c.Enforced(WatchdogExpired) && t.reworkExpired ==> Running(t, ReworkLoop)
    ensures Reads(k, t, cl) && EventOk(c, k, t, WatchdogExpired, cl)
  {
    hide RuleFor;
  }

  /** The expiry's event, and its record taken back where it moved nothing. */
  lemma KeepExpiredEvent(c: Ctx, k: Kind, s: Item, f: Fire, cl: set<Label>, back: bool)
    requires Ready(c, k, s) && Reads(k, s, cl) && Lasting(k) && (OfStuck(k) ==> SameFire(s, f))
    ensures var s1 := if c.Enforced(WatchdogExpired) then PutExpired(s, f.run == ReworkLoop) else s;
      var st := ApplyEvent(c, s1, WatchdogExpired, cl, false);
      Ready(c, k, st.s) && Ready(c, k, Disarm(if back then PutExpired(st.s, false) else st.s))
  {
    hide Ready, Holds, ApplyEvent, RuleFor, NoEdits, StuckFree, NoFailures, Reads, EventOk;
    KeepExpiry(c, k, s, f);
    var s1 := if c.Enforced(WatchdogExpired) then PutExpired(s, f.run == ReworkLoop) else s;
    ExpiryReads(c, k, s, s1, cl);
    var st := ApplyEvent(c, s1, WatchdogExpired, cl, false);
    KeepApply(c, k, s1, WatchdogExpired, cl, false);
    if !Ready(c, k, st.s) {
      OpenedAgain(c, k, s, st.s);
    }
    KeepUnexpired(c, k, st.s);
    KeepDisarm(c, k, st.s);
    KeepDisarm(c, k, PutExpired(st.s, false));
  }

  lemma KeepExpire(c: Ctx, k: Kind, s: Item, f: Fire)
    requires Ready(c, k, s) && Lasting(k) && (OfStuck(k) ==> SameFire(s, f))
    ensures Ready(c, k, Expire(c, s, f).s)
  {
    hide Ready, Holds, GetLabels, Say, ApplyEvent, DeriveState, Lasting, NoEdits, StuckFree, NoFailures, Reads;
    LabelsGlance(c, s);
    var g := GetLabels(c, s);
    KeepGlanced(c, k, s, g.s);
    if g.Ret? {
      KeepAlert(c, k, g.s);
      var a := Say(c, g.s, c.Enforced(WatchdogExpired), CommentWrite(true));
      if a.Ret? {
        ReadsOwn(c, k, g.s, a.s, g.v);
        KeepExpiredEvent(c, k, a.s, f, g.v, true);
        KeepExpiredEvent(c, k, a.s, f, g.v, false);
      }
    }
  }

  lemma ReadsOwn(c: Ctx, k: Kind, s: Item, t: Item, cl: set<Label>)
    requires Ready(c, k, s) && cl == s.labels && Steady(c, s, t)
    ensures Reads(k, t, cl)
  {
    hide Holds, NoEdits, StuckFree;
  }

  // --- the one retry, and the alarm ---

  lemma KeepRetryOnce(c: Ctx, k: Kind, s: Item, f: Fire)
    requires Ready(c, k, s) && Lasting(k) && SameFire(s, f) && !k.Dry?
    ensures var st := RetryOnce(c, s, f);
      Ready(c, k, st.s) && (NoFailures(c) && st.Ret? ==> st.v.Some?)
  {
    hide Ready, FireWatched, Comment, Log, Lasting, NoEdits, StuckFree, NoFailures;
    PendingFits(c, k, s, f.run);
    KeepFireWatched(c, k, s, true, f.run, true, false);
    var w := FireWatched(c, s, true, f.run, true, false);
    if w.Ret? {
      KeepComment(c, k, w.s, true);
      KeepLog(c, k, Comment(c, w.s, true).s);
    }
  }

  lemma SameGlanced(c: Ctx, k: Kind, s: Item, t: Item, f: Fire)
    requires Ready(c, k, s) && Glanced(c, s, t)
    ensures Ready(c, k, t) && (SameFire(s, f) ==> SameFire(t, f))
  {
    hide Holds, NoEdits, StuckFree;
    KeepGlanced(c, k, s, t);
  }

  lemma KeepMaybeRetry(c: Ctx, k: Kind, s: Item, f: Fire)
    requires Ready(c, k, s) && Lasting(k) && SameFire(s, f)
    ensures var st := MaybeRetry(c, s, f);
      Ready(c, k, st.s) && (NoFailures(c) && st.Ret? && st.v.None? ==> SameFire(st.s, f))
  {
    hide Ready, GetLabels, RetryOnce, DeriveState, Decide, Lasting, NoEdits, StuckFree, NoFailures, SameFire;
    DryIsShadow(c, k, s);
    LabelsGlance(c, s);
    var s1 := GetLabels(c, s).s;
    SameGlanced(c, k, s, s1, f);
    if c.Enforced(WatchdogExpired) {
      KeepRetryOnce(c, k, s1, f);
    }
  }

  lemma KeepExpireOrRetry(c: Ctx, k: Kind, s: Item, f: Fire)
    requires Ready(c, k, s) && Lasting(k) && SameFire(s, f)
    ensures Ready(c, k, ExpireOrRetry(c, s, f).s)
  {
    hide Ready, Holds, MaybeRetry, Expire, Lasting, NoEdits, StuckFree, SameFire;
    KeepMaybeRetry(c, k, s, f);
    StuckReturns(c, k, s);
    var m := MaybeRetry(c, s, f);
    if m.Ret? && m.v.None? {
      KeepExpire(c, k, m.s, f);
    }
  }

  /** The alarm keeps every lasting kind. */
  lemma KeepAlarm(c: Ctx, k: Kind, s: Item)
    requires Ready(c, k, s) && Lasting(k)
    ensures Ready(c, k, OnAlarm(c, s).s)
  {
    hide Ready, SendDeferred, MaybeRecover, ExpireOrRetry, Early;
    if s.pending.Some? {
      var f := s.pending.value;
      if f.deferUntil.Some? {
        KeepSendDeferred(c, k, s, f);
      } else {
        KeepMaybeRecover(c, k, s, f);
        MaybeRecoverStays(c, s, f);
        var m := MaybeRecover(c, s, f);
        if m.Ret? && m.v.None? {
          KeepExpireOrRetry(c, k, m.s, f);
        }
      }
    }
  }
}

module SignalKeeps {
  import opened Wrappers
  import opened Graph
  import opened Items
  import opened Deliveries
  import opened Webhook
  import opened Watchdog
  import opened Signals
  import opened Kinds
  import opened Keeps
  import opened WebhookKeeps
  import opened WatchdogKeeps
  import O = Outcomes

  /** A live fire may be armed again by its own run. */
  lemma RearmFits(c: Ctx, k: Kind, s: Item, f: Fire, g: Fire)
    requires Ready(c, k, s) && Lasting(k) && s.pending == Some(f) && f.deferUntil.None?
    requires g.run == f.run && g.deferUntil.None?
    ensures Ready(c, k, Arm(c, s, g))
  {
    hide Tally, LastEntry, NoEdits, StuckFree, NoFailures, Passed;
  }

  lemma KeepEnded(c: Ctx, k: Kind, s: Item)
    requires Ready(c, k, s) && Lasting(k)
    ensures Ready(c, k, Disarm(s)) && Ready(c, k, Disarm(s).(completed := Some(s.now)))
    ensures Ready(c, k, s.(completed := Some(s.now)))
  {
    hide Ready;
    KeepDisarm(c, k, s);
    KeepSame(c, k, s, s.(completed := Some(s.now)));
    KeepSame(c, k, Disarm(s), Disarm(s).(completed := Some(s.now)));
  }

  lemma KeepApplyOutcome(c: Ctx, k: Kind, s: Item, f: Fire, o: O.Outcome, quotesMark: bool)
    requires Ready(c, k, s) && Lasting(k)
    ensures Ready(c, k, ApplyOutcome(c, s, f, o, quotesMark).s)
  {
    hide Ready, CoordinateWebhook, NoFailures, Opened;
    var i := SignalInput(f, o, quotesMark);
    KeepDelivery(c, k, s, i);
    var st := CoordinateWebhook(c, s, i);
    OpenStays(c, k, s, st);
    KeepEnded(c, k, st.s);
    KeepEnded(c, k, Disarm(st.s));
  }

  lemma KeepNoteBlocked(c: Ctx, k: Kind, s: Item, f: Fire)
    requires Ready(c, k, s) && Lasting(k) && s.pending == Some(f) && f.deferUntil.None?
    ensures Ready(c, k, NoteBlocked(c, s, f).s)
  {
    hide Ready, Comment, Lasting, NoFailures, NoEdits, StuckFree;
    var g := f.(stepped := true, blocked := true);
    RearmFits(c, k, s, f, g);
    var s1 := Arm(c, s, g);
    DryIsShadow(c, k, s1);
    KeepComment(c, k, s1, c.mode);
  }

  lemma KeepEndFire(c: Ctx, k: Kind, s: Item, f: Fire)
    requires Ready(c, k, s) && Lasting(k) && SameFire(s, f)
    ensures Ready(c, k, EndFire(c, s, f).s)
  {
    hide Ready, MaybeRecover, Expire, SameFire;
    KeepMaybeRecover(c, k, s, f);
    MaybeRecoverStays(c, s, f);
    var m := MaybeRecover(c, s, f);
    if m.Ret? && m.v.None? {
      KeepExpire(c, k, m.s, f);
    }
  }

  lemma KeepOnLive(c: Ctx, k: Kind, s: Item, f: Fire, sig: Signal)
    requires Ready(c, k, s) && Lasting(k) && s.pending == Some(f) && f.deferUntil.None?
    ensures Ready(c, k, OnLive(c, s, f, sig).s)
  {
    hide Ready, ApplyOutcome, NoteBlocked, EndFire, Lasting, Arm;
    match sig
    case Process(_) => RearmFits(c, k, s, f, f.(stepped := true));
    case Completion(_) => KeepEnded(c, k, s);
    case Report(_, o, q) => KeepApplyOutcome(c, k, s, f, o, q);
    case Blocked(_) => KeepNoteBlocked(c, k, s, f);
    case EndedEarly(_) => KeepEndFire(c, k, s, f);
    case Invalid(_) =>
  }

  /** A signal keeps every lasting kind. */
  lemma KeepSignal(c: Ctx, k: Kind, s: Item, sig: Signal)
    requires Ready(c, k, s) && Lasting(k)
    ensures Ready(c, k, OnSignal(c, s, sig).s)
  {
    hide Ready, Log, LogDeduped, OnLive, AlreadyApplied, NoFailures, NoEdits, StuckFree;
    KeepLog(c, k, s);
    KeepLogDeduped(c, k, s);
    OpenStays(c, k, s, LogDeduped(c, s));
    if s.pending.Some? && s.pending.value.deferUntil.None? {
      KeepOnLive(c, k, s, s.pending.value, sig);
    }
  }
}

module SweepKeeps {
  import opened Wrappers
  import opened Graph
  import opened Labels
  import opened Items
  import opened Apply
  import opened Gates
  import opened Sweeping
  import opened Kinds
  import opened Keeps
  import opened GateKeeps
  import opened WebhookKeeps
  import opened WatchdogKeeps

  /** A trigger's own label, and no ai-stuck beside it. */
  lemma SweepRunMeans(cl: set<Label>, merged: bool)
    requires SweepRun(cl, merged).Some?
    ensures AiStuck !in cl
    ensures SweepRun(cl, merged).value == AutoReleaseLoop ==> !merged
  {
    hide DeriveState;
    ReadingMeans(cl);
  }

  /** What a re-fire finds. */
  predicate RefireFits(k: Kind, s: Item, run: Routine) {
    (OfStuck(k) ==> AiStuck !in s.labels) && (run == AutoReleaseLoop ==> s.releaseMerged.None?)
  }

  lemma KeepRefire(c: Ctx, k: Kind, s: Item, run: Routine)
    requires Ready(c, k, s) && Lasting(k) && !k.Dry? && RefireFits(k, s, run)
    ensures Ready(c, k, Refire(c, s, run).s)
  {
    hide Ready, FireWatched, Log, NoFailures, NoEdits, StuckFree;
    KeepFireWatched(c, k, s, true, run, false, false);
    KeepLog(c, k, FireWatched(c, s, true, run, false, false).s);
  }

  lemma KeepReportLeft(c: Ctx, k: Kind, s: Item, last: Option<int>)
    requires Ready(c, k, s)
    ensures Ready(c, k, ReportLeft(c, s, last).s)
  {
    hide Ready, Log, NoFailures, NoEdits, StuckFree;
    KeepSame(c, k, s, s.(reported := Some(last)));
    KeepLog(c, k, s.(reported := Some(last)));
  }

  /** A merge-blocked PR's lost retry is a person's: no run of the Worker's own
      labels leads to one. */
  predicate PairFits(k: Kind, cl: set<Label>) {
    Hands(k) || k.Address? ==> !(MergeBlocked in cl && DeriveState(cl) == Clear(At(AutoMerging)))
  }

  lemma PairExcluded(c: Ctx, k: Kind, s: Item, cl: set<Label>)
    requires Ready(c, k, s) && Reads(k, s, cl) && Fresh(k, s)
    ensures PairFits(k, cl)
  {
    hide Left, LastEntry, NoEdits, StuckFree;
    ReadingMeans(cl);
    if |cl| <= 1 {
      SmallReading(cl);
    }
  }

  lemma KeepRetryMerge(c: Ctx, k: Kind, s: Item, cl: set<Label>)
    requires Ready(c, k, s) && Reads(k, s, cl) && Lasting(k) && !Hands(k)
    ensures Ready(c, k, RetryMerge(c, s, cl).s)
  {
    hide Ready, ApplyEvent, Log, NoFailures, NoEdits, StuckFree, Opened, RuleFor;
    assert EventOk(c, k, s, LabelledAutoMerging, cl);
    KeepSimple(c, k, s, LabelledAutoMerging, cl, false);
    var st := ApplyEvent(c, s, LabelledAutoMerging, cl, false);
    OpenStays(c, k, s, st);
    KeepLog(c, k, st.s);
  }

  lemma KeepSweepMerge(c: Ctx, k: Kind, s: Item, cl: set<Label>, run: Routine)
    requires Ready(c, k, s) && Reads(k, s, cl) && Lasting(k) && !k.Dry? && PairFits(k, cl) && RefireFits(k, s, run)
    requires DeriveState(cl) == Clear(At(AutoMerging))
    ensures Ready(c, k, SweepMerge(c, s, cl, run).s)
  {
    hide Ready, SettledFacts, HandToRework, BlockMerge, RetryMerge, Refire, DeriveState, DeriveGate, HardBlock, Reads, NoFailures;
    var s1 := if MergeBlocked in cl then PutCiFix(s, None) else s;
    KeepCounters(c, k, s, s1);
    SettledGlances(c, s1);
    var s2 := SettledFacts(c, s1).s;
    ReadsSame(k, s, s1, cl);
    ReadsGlanced(c, k, s1, s2, cl);
    RefireGlanced(c, k, s1, s2, run);
    OwnEvent(c, k, s2, cl);
    KeepBlockMerge(c, k, s2, cl, MergeGateFailedHard, false);
    OpenStays(c, k, s2, BlockMerge(c, s2, cl, MergeGateFailedHard, false));
    KeepHandToRework(c, k, s2, cl, false);
    OpenStays(c, k, s2, HandToRework(c, s2, cl, false));
    KeepRefire(c, k, s2, run);
    if MergeBlocked in cl {
      KeepRetryMerge(c, k, s2, cl);
    }
  }

  lemma ReadsSame(k: Kind, s: Item, t: Item, cl: set<Label>)
    requires Reads(k, s, cl) && t.labels == s.labels
    ensures Reads(k, t, cl)
  {
  }

  lemma OwnEvent(c: Ctx, k: Kind, s: Item, cl: set<Label>)
    ensures EventOk(c, k, s, MergeGateFailedHard, cl)
  {
  }

  lemma RefireGlanced(c: Ctx, k: Kind, s: Item, t: Item, run: Routine)
    requires Ready(c, k, s) && RefireFits(k, s, run) && Glanced(c, s, t)
    ensures RefireFits(k, t, run)
  {
    hide Holds, NoEdits, StuckFree;
  }

  lemma KeepSweepAct(c: Ctx, k: Kind, s: Item, cl: set<Label>, run: Routine, enforced: bool, last: Option<int>)
    requires Ready(c, k, s) && Reads(k, s, cl) && Lasting(k) && PairFits(k, cl) && RefireFits(k, s, run)
    ensures Ready(c, k, SweepAct(c, s, cl, run, enforced, last).s)
  {
    hide Ready, ReportLeft, SweepMerge, Refire, DeriveState, Reads, PairFits, RefireFits, Lasting;
    KeepReportLeft(c, k, s, last);
    DryIsShadow(c, k, s);
    if c.mode {
      if DeriveState(cl) == Clear(At(AutoMerging)) {
        KeepSweepMerge(c, k, s, cl, run);
      }
      KeepRefire(c, k, s, run);
    }
  }

  lemma KeepSweepIdle(
    c: Ctx, k: Kind, s: Item, cl: set<Label>, run: Routine, enforced: bool, budget: bool, last: Option<int>)
    requires Ready(c, k, s) && Reads(k, s, cl) && Lasting(k) && PairFits(k, cl) && RefireFits(k, s, run)
    ensures Ready(c, k, SweepIdle(c, s, cl, run, enforced, budget, last).s)
  {
    hide Ready, ReviewGate, SweepAct, DeriveState, Reads, PairFits, RefireFits, Opened, NoFailures;
    KeepReviewGate(c, k, s, cl, false);
    OpenStays(c, k, s, ReviewGate(c, s, cl, false));
    KeepSweepAct(c, k, s, cl, run, enforced && budget, last);
  }

  /** What the sweep reads before it acts. */
  lemma SweepReads(c: Ctx, k: Kind, s: Item)
    requires Ready(c, k, s) && Fresh(k, s)
    ensures var g := GetLabels(c, s);
      && Ready(c, k, g.s)
      && (g.Ret? ==>
        && Reads(k, g.s, g.v) && PairFits(k, g.v)
        && (SweepRun(g.v, g.s.releaseMerged.Some?).Some? ==> RefireFits(k, g.s, SweepRun(g.v, g.s.releaseMerged.Some?).value)))
  {
    hide Ready, Fresh, GetLabels, Glanced, SweepRun, PairFits, NoFailures;
    LabelsGlance(c, s);
    var g := GetLabels(c, s);
    FreshGlanced(c, k, s, g.s);
    if g.Ret? {
      PairExcluded(c, k, g.s, g.v);
      if SweepRun(g.v, g.s.releaseMerged.Some?).Some? {
        SweepRunMeans(g.v, g.s.releaseMerged.Some?);
      }
    }
  }

  lemma KeepReconcileFresh(c: Ctx, k: Kind, s: Item, enforced: bool, budget: bool, at: Option<int>)
    requires Ready(c, k, s) && Lasting(k) && Fresh(k, s)
    ensures Ready(c, k, Reconcile(c, s, enforced, budget, at).s)
  {
    hide Ready, Fresh, GetLabels, Read, SweepRun, SweepIdle, Watched, Latest, IdleTenths, Reads, PairFits, RefireFits, Glanced,
      NoFailures;
    if !Watched(s) {
      SweepReads(c, k, s);
      var g := GetLabels(c, s);
      if g.Ret? {
        var run := SweepRun(g.v, g.s.releaseMerged.Some?);
        if run.Some? {
          ReadGlances(c, g.s);
          var r := Read(c, g.s);
          ReadsGlanced(c, k, g.s, r.s, g.v);
          RefireGlanced(c, k, g.s, r.s, run.value);
          if r.Ret? {
            KeepSweepIdle(c, k, r.s, g.v, run.value, enforced, budget, Latest(r.v.at, at));
          }
        }
      }
    }
  }

  /** The sweep's question keeps every lasting kind. */
  lemma KeepReconcile(c: Ctx, k: Kind, s: Item, enforced: bool, budget: bool, at: Option<int>)
    requires Ready(c, k, s) && Lasting(k)
    ensures Ready(c, k, Reconcile(c, s, enforced, budget, at).s)
  {
    hide Reconcile, Tally;
    if Fresh(k, s) {
      KeepReconcileFresh(c, k, s, enforced, budget, at);
    } else {
      KeepReconcileFresh(c, Ever(Matches, k.n), s, enforced, budget, at);
    }
  }
}
