// The watchdog's alarm, a routine's signals and the sweep's question, as they
// are written (worker/src/coordinate/watchdog.ts, routine-signal.ts,
// reconcile.ts).

module CoordinateWatchdog {
  import opened Wrappers
  import opened Graph
  import opened Labels
  import opened Items
  import opened Deliveries
  import opened Storage
  import opened CoordinateApply
  import opened CoordinateDelivery
  import Apply
  import Webhook
  import Watchdog

  method DropDeferred(d: Deps)
    modifies d
    ensures d.View() == Watchdog.DropDeferred(d.c, old(d.View()))
  {
    hide Items.Log, Items.Comment, Deps.View;
    var logged := d.Log();
    if logged.Done? {
      var said := d.Comment(true);
    }
    d.ClearPendingFire();
  }

  method ReportDeferredFireFailed(d: Deps)
    modifies d
    ensures d.View() == Watchdog.ReportDeferredFailed(d.c, old(d.View()))
  {
    hide Items.Log, Items.Comment, Deps.View;
    var logged := d.Log();
    var said := d.Comment(true);
  }

  method SendDeferred(d: Deps, f: Fire) returns (r: Try<Watchdog.WatchdogResult>)
    modifies d
    ensures d.Did(r, Watchdog.SendDeferred(d.c, old(d.View()), f))
  {
    hide Items.GetLabels, DeriveState, Watchdog.StillWanted, Watchdog.DropDeferred, Watchdog.ReportDeferredFailed,
      Apply.FireUnwatched, Apply.FireWatched, Deps.View;
    var state := Ambiguous;
    var read := d.GetLabels();
    if read.Done? {
      state := DeriveState(read.value);
    }
    if !Watchdog.StillWanted(state, f.run) {
      DropDeferred(d);
      return Done(Watchdog.DeferredDropped);
    }
    var fired: Try<Apply.FireOutcome>;
    if f.unwatched {
      fired := FireUnwatched(d, true, f.run, true);
    } else {
      fired := FireWatched(d, true, f.run, f.retried, true);
    }
    if fired.Failed? {
      ReportDeferredFireFailed(d);
      return Failed;
    }
    r := Done(if fired.value.PutOff? then Watchdog.DeferredAgain else Watchdog.DeferredSent);
  }

  method Recovered(d: Deps, f: Fire, result: Apply.Result) returns (r: Try<Option<Apply.Result>>)
    modifies d
    ensures d.Did(r, Watchdog.Recovered(d.c, old(d.View()), f, result))
  {
    hide Items.Log;
    var _ :- d.Log();
    if d.pending.Some? && d.pending.value.run == f.run && d.pending.value.dueAt == f.dueAt {
      d.ClearPendingFire();
    }
    r := Done(Some(result));
  }

  /** The comments since the fire, newest first, until one applies. */
  method TryNotes(d: Deps, f: Fire, notes: seq<Note>) returns (r: Try<Option<Apply.Result>>)
    modifies d
    ensures d.Did(r, Watchdog.TryNotes(d.c, old(d.View()), f, notes, |notes|))
  {
    hide Webhook.CoordinateWebhook, Watchdog.Recovered;
    var k: nat := |notes|;
    while k > 0
      invariant k <= |notes|
      invariant Watchdog.TryNotes(d.c, old(d.View()), f, notes, |notes|) == Watchdog.TryNotes(d.c, d.View(), f, notes, k)
    {
      var note := notes[k - 1];
      if note.createdAt < f.firedAt || note.remark.routine != Some(f.run) {
        k := k - 1;
        continue;
      }
      var result := CoordinateWebhook(d, Watchdog.Replay(f, note));
      if result.Failed? {
        if d.pending.Some? && d.pending.value.run == f.run && d.pending.value.dueAt == f.dueAt {
          return Done(None);
        }
        return Failed;
      }
      if result.value.Applied? {
        r := Recovered(d, f, result.value);
        return;
      }
      k := k - 1;
    }
    r := Done(None);
  }

  method RecoverOutcome(d: Deps, f: Fire) returns (r: Try<Option<Apply.Result>>)
    modifies d
    ensures d.Did(r, Watchdog.RecoverOutcome(d.c, old(d.View()), f))
  {
    hide Items.Read, Watchdog.TryNotes, Deps.View;
    var comments := d.Read();
    if comments.Failed? {
      return Done(None);
    }
    r := TryNotes(d, f, comments.value.notes);
  }

  method MaybeRecover(d: Deps, f: Fire) returns (r: Try<Option<Apply.Result>>)
    modifies d
    ensures d.Did(r, Watchdog.MaybeRecover(d.c, old(d.View()), f))
  {
    hide Watchdog.RecoverOutcome, Deps.View;
    if !d.c.Enforced(WatchdogExpired) {
      return Done(None);
    }
    var recovered :- RecoverOutcome(d, f);
    if recovered.Some? {
      d.SetReworkExpired(false);
    }
    r := Done(recovered);
  }

  /** The one re-fire; none if it is refused. */
  method RetryOnce(d: Deps, f: Fire) returns (r: Try<Option<Watchdog.WatchdogResult>>)
    modifies d
    ensures d.Did(r, Watchdog.RetryOnce(d.c, old(d.View()), f))
  {
    hide Apply.FireWatched, Items.Comment, Items.Log, Deps.View;
    var fired := FireWatched(d, true, f.run, true, false);
    if fired.Failed? {
      return Done(None);
    }
    if fired.value.PutOff? {
      return Done(Some(Watchdog.DeferredAgain));
    }
    var _ :- d.Comment(true);
    var _ :- d.Log();
    r := Done(Some(Watchdog.Retried));
  }

  method MaybeRetry(d: Deps, f: Fire) returns (r: Try<Option<Watchdog.WatchdogResult>>)
    modifies d
    ensures d.Did(r, Watchdog.MaybeRetry(d.c, old(d.View()), f))
  {
    hide Items.GetLabels, DeriveState, Decide, Watchdog.RetryOnce, Deps.View;
    if !d.c.retry || f.retried || f.stepped || !d.c.Enforced(WatchdogExpired) {
      return Done(None);
    }
    var labels :- d.GetLabels();
    var state := DeriveState(labels);
    if state.Ambiguous? || Decide(state.state, WatchdogExpired).None? {
      return Done(None);
    }
    r := RetryOnce(d, f);
  }

  /** The expiry: the alert, its record, the event, then the fire cleared. */
  method ExpirePendingFire(d: Deps, f: Fire) returns (r: Try<Apply.Result>)
    modifies d
    ensures d.Did(r, Watchdog.Expire(d.c, old(d.View()), f))
  {
    hide Items.GetLabels, Items.Say, Apply.ApplyEvent, DeriveState, Deps.View;
    var currentLabels :- d.GetLabels();
    var state := DeriveState(currentLabels);
    var recordExpiry := d.c.Enforced(WatchdogExpired);
    var _ :- d.Say(recordExpiry, CommentWrite(true));
    if recordExpiry {
      d.SetReworkExpired(f.run == ReworkLoop);
    }
    var result :- ApplyEvent(d, WatchdogExpired, currentLabels, false);
    if recordExpiry && !result.Applied? && state != Clear(At(AiStuck)) {
      d.SetReworkExpired(false);
    }
    d.ClearPendingFire();
    r := Done(result);
  }

  method ExpireOrRetry(d: Deps, f: Fire) returns (r: Try<Watchdog.WatchdogResult>)
    modifies d
    ensures d.Did(r, Watchdog.ExpireOrRetry(d.c, old(d.View()), f))
  {
    hide Watchdog.MaybeRetry, Watchdog.Expire, Deps.View;
    var retried :- MaybeRetry(d, f);
    if retried.Some? {
      return Done(retried.value);
    }
    var result :- ExpirePendingFire(d, f);
    r := Done(Watchdog.Concluded(result));
  }

  method CoordinateWatchdogExpired(d: Deps) returns (r: Try<Watchdog.WatchdogResult>)
    modifies d
    ensures d.Did(r, Watchdog.OnAlarm(d.c, old(d.View())))
  {
    hide Watchdog.SendDeferred, Watchdog.MaybeRecover, Watchdog.ExpireOrRetry;
    if d.pending.None? {
      return Done(Watchdog.NoPendingFire);
    }
    var f := d.pending.value;
    // Half the timeout, a minute at most: doubled, so that it stays whole.
    var timeout := d.c.timeout(f.run);
    var margin := if timeout < 2 * Watchdog.DUE_MARGIN_MS then timeout else 2 * Watchdog.DUE_MARGIN_MS;
    if 2 * (f.dueAt - d.now) > margin {
      return Done(Watchdog.NotDue);
    }
    if f.deferUntil.Some? {
      r := SendDeferred(d, f);
      return;
    }
    var recovered :- MaybeRecover(d, f);
    if recovered.Some? {
      return Done(Watchdog.Concluded(recovered.value));
    }
    r := ExpireOrRetry(d, f);
  }
}

module CoordinateSignals {
  import opened Wrappers
  import opened Graph
  import opened Items
  import opened Deliveries
  import opened Storage
  import opened CoordinateDelivery
  import opened CoordinateWatchdog
  import Apply
  import Webhook
  import Watchdog
  import Signals
  import O = Outcomes

  method RefuseSignal(d: Deps, row: bool) returns (r: Try<Signals.SignalResult>)
    modifies d
    ensures d.Did(r, Signals.RefuseSignal(d.c, old(d.View()), row))
  {
    hide Items.Log;
    var waiting := d.pending.Some? && d.pending.value.deferUntil.None?;
    if row {
      var _ :- d.Log();
    }
    r := Done(if waiting then Signals.Mismatched else Signals.NoFire);
  }

  method ApplyOutcome(d: Deps, f: Fire, o: O.Outcome, quotesMark: bool) returns (r: Try<Signals.SignalResult>)
    modifies d
    ensures d.Did(r, Signals.ApplyOutcome(d.c, old(d.View()), f, o, quotesMark))
  {
    hide Webhook.CoordinateWebhook;
    var result :- CoordinateWebhook(d, Signals.SignalInput(f, o, quotesMark));
    if !result.Applied? {
      return Done(Signals.Reported(result));
    }
    if d.pending.Some? && d.pending.value.run == f.run && d.pending.value.firedAt == f.firedAt
      && d.pending.value.dueAt == f.dueAt
    {
      d.ClearPendingFire();
    }
    if d.pending.None? {
      d.completed := Some(d.now);
    }
    r := Done(Signals.Reported(result));
  }

  method NoteBlocked(d: Deps, f: Fire) returns (r: Try<Signals.SignalResult>)
    modifies d
    ensures d.Did(r, Signals.NoteBlocked(d.c, old(d.View()), f))
  {
    hide Items.Comment, Arm, Deps.View;
    d.SetPendingFire(f.(stepped := true, blocked := true));
    if f.blocked {
      return Done(Signals.BlockedAgain);
    }
    var said := d.Comment(d.c.mode);
    r := Done(Signals.BlockedNoted);
  }

  method EndFire(d: Deps, f: Fire) returns (r: Try<Signals.SignalResult>)
    modifies d
    ensures d.Did(r, Signals.EndFire(d.c, old(d.View()), f))
  {
    hide Watchdog.MaybeRecover, Watchdog.Expire, Deps.View;
    var recovered :- MaybeRecover(d, f);
    if recovered.Some? {
      return Done(Signals.EndedExpired(recovered.value));
    }
    var result :- ExpirePendingFire(d, f);
    r := Done(Signals.EndedExpired(result));
  }

  method OnLive(d: Deps, f: Fire, sig: Signals.Signal) returns (r: Try<Signals.SignalResult>)
    modifies d
    ensures d.Did(r, Signals.OnLive(d.c, old(d.View()), f, sig))
  {
    hide Signals.ApplyOutcome, Signals.NoteBlocked, Signals.EndFire, Arm;
    match sig
    case Process(_) =>
      d.SetPendingFire(f.(stepped := true));
      r := Done(Signals.Extended);
    case Completion(_) =>
      d.ClearPendingFire();
      d.completed := Some(d.now);
      r := Done(Signals.Acknowledged);
    case Report(_, o, q) => r := ApplyOutcome(d, f, o, q);
    case Blocked(_) => r := NoteBlocked(d, f);
    case EndedEarly(_) => r := EndFire(d, f);
    case Invalid(_) => r := Done(Signals.InvalidSignal);
  }

  method CoordinateRoutineSignal(d: Deps, sig: Signals.Signal) returns (r: Try<Signals.SignalResult>)
    modifies d
    ensures d.Did(r, Signals.OnSignal(d.c, old(d.View()), sig))
  {
    hide Items.Log, Webhook.LogDeduped, Webhook.AlreadyApplied, Signals.RefuseSignal, Signals.OnLive;
    if sig.Invalid? {
      if sig.aboutOutcome {
        var _ :- d.Log();
      }
      return Done(Signals.InvalidSignal);
    }
    if sig.Report? {
      var already := AlreadyApplied(d, sig.run, O.NameOf(sig.outcome));
      if already {
        var _ :- LogDeduped(d);
        return Done(Signals.SignalDeduped);
      }
    }
    if d.pending.None? || d.pending.value.run != sig.run || d.pending.value.deferUntil.Some? {
      r := RefuseSignal(d, sig.Report?);
      return;
    }
    r := OnLive(d, d.pending.value, sig);
  }
}

module CoordinateReconcile {
  import opened Wrappers
  import opened Graph
  import opened Labels
  import opened Items
  import opened Storage
  import opened CoordinateApply
  import opened CoordinateGates
  import Apply
  import Gates
  import Sweeping

  method Refire(d: Deps, run: Routine) returns (r: Try<Sweeping.Swept>)
    modifies d
    ensures d.Did(r, Sweeping.Refire(d.c, old(d.View()), run))
  {
    hide Apply.FireWatched, Items.Log, Deps.View;
    var _ :- FireWatched(d, true, run, false, false);
    var _ :- d.Log();
    r := Done(Sweeping.Refired);
  }

  /** Shadow: one row per idle stretch. */
  method ReportLeft(d: Deps, last: Option<int>) returns (r: Try<Sweeping.Swept>)
    modifies d
    ensures d.Did(r, Sweeping.ReportLeft(d.c, old(d.View()), last))
  {
    hide Items.Log;
    if d.reported == Some(last) {
      return Done(Sweeping.WouldRefire(true));
    }
    d.SetReconcileReported(Some(last));
    var _ :- d.Log();
    r := Done(Sweeping.WouldRefire(false));
  }

  method RetryMerge(d: Deps, currentLabels: set<Label>) returns (r: Try<Apply.Result>)
    modifies d
    ensures d.Did(r, Sweeping.RetryMerge(d.c, old(d.View()), currentLabels))
  {
    hide Apply.ApplyEvent, Items.Log, Deps.View;
    var result :- ApplyEvent(d, LabelledAutoMerging, currentLabels, false);
    if result.Applied? {
      var _ :- d.Log();
    }
    r := Done(result);
  }

  method SweepMerge(d: Deps, currentLabels: set<Label>, run: Routine) returns (r: Try<Sweeping.Swept>)
    modifies d
    ensures d.Did(r, Sweeping.SweepMerge(d.c, old(d.View()), currentLabels, run))
  {
    hide Gates.SettledFacts, Gates.BlockMerge, Gates.HandToRework, Gates.HardBlock, Gates.DeriveGate, Sweeping.RetryMerge,
      Sweeping.Refire, Deps.View;
    if MergeBlocked in currentLabels {
      d.SetCiFix(None);
    }
    var facts :- SettledGateFacts(d);
    if Gates.HardBlock(facts) {
      var result :- BlockMerge(d, currentLabels, MergeGateFailedHard, false);
      return Done(Sweeping.Gated(result));
    }
    if Gates.DeriveGate(facts) == Gates.Soft {
      var result :- HandToRework(d, currentLabels, false);
      return Done(Sweeping.Gated(result));
    }
    if MergeBlocked in currentLabels {
      var result :- RetryMerge(d, currentLabels);
      return Done(Sweeping.Gated(result));
    }
    r := Refire(d, run);
  }

  method SweepAct(d: Deps, currentLabels: set<Label>, run: Routine, enforced: bool, last: Option<int>)
    returns (r: Try<Sweeping.Swept>)
    modifies d
    ensures d.Did(r, Sweeping.SweepAct(d.c, old(d.View()), currentLabels, run, enforced, last))
  {
    hide DeriveState, Sweeping.ReportLeft, Sweeping.SweepMerge, Sweeping.Refire, Deps.View;
    var act := enforced && d.c.mode && d.c.Enforced(WatchdogExpired);
    if !act {
      r := ReportLeft(d, last);
      return;
    }
    if DeriveState(currentLabels) == Clear(At(AutoMerging)) {
      r := SweepMerge(d, currentLabels, run);
      return;
    }
    r := Refire(d, run);
  }

  method SweepIdle(
    d: Deps, currentLabels: set<Label>, run: Routine, enforced: bool, budget: bool, last: Option<int>)
    returns (r: Try<Sweeping.Swept>)
    modifies d
    ensures d.Did(r, Sweeping.SweepIdle(d.c, old(d.View()), currentLabels, run, enforced, budget, last))
  {
    hide DeriveState, Gates.ReviewGate, Sweeping.SweepAct;
    if d.completed.Some? && (last.None? || d.completed.value >= last.value) {
      return Done(Sweeping.CompletedRun);
    }
    if DeriveState(currentLabels) == Clear(At(AiReviewing)) && budget && d.c.Enforced(WatchdogExpired) {
      var result :- ReviewGate(d, currentLabels, false);
      return Done(Sweeping.Gated(result));
    }
    r := SweepAct(d, currentLabels, run, enforced && budget, last);
  }

  method CoordinateReconcile(d: Deps, enforced: bool, budget: bool, updatedAt: Option<int>) returns (r: Try<Sweeping.Swept>)
    modifies d
    ensures d.Did(r, Sweeping.Reconcile(d.c, old(d.View()), enforced, budget, updatedAt))
  {
    hide Items.GetLabels, Items.Read, Sweeping.SweepRun, Sweeping.SweepIdle, Sweeping.Latest, Sweeping.IdleTenths;
    if d.pending.Some? && (d.now < d.pending.value.dueAt + Sweeping.LOST_AFTER_MS || d.alarm.Some?) {
      return Done(Sweeping.BeingWatched);
    }
    var started := d.now;
    var currentLabels :- d.GetLabels();
    var run := Sweeping.SweepRun(currentLabels, d.releaseMerged.Some?);
    if run.None? {
      return Done(Sweeping.NotTriggered);
    }
    var activity :- d.Read();
    var last := Sweeping.Latest(activity.at, updatedAt);
    if last.Some? && Sweeping.IdleTenths(started - last.value) * 6_000 < 2 * d.c.timeout(run.value) {
      return Done(Sweeping.Recent);
    }
    r := SweepIdle(d, currentLabels, run.value, enforced, budget, last);
  }
}
