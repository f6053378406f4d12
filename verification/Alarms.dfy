// The pending fire and its alarm: an expiry is never silent, and the two agree
// except while an alarm invocation waits or runs
// (worker/src/coordinate/watchdog.ts, worker/src/issue-coordinator.ts).

module Expiries {
  import opened Wrappers
  import opened Graph
  import opened Labels
  import opened Items
  import opened Apply
  import opened Webhook
  import opened Watchdog
  import opened Kinds
  import opened WatchdogKeeps

  /** Nothing was lost in silence: the fire is still pending, or the alert was
      posted, or an outcome that the run had reported matched a rule. */
  predicate NotSilent(s: Item, t: Item) {
    || t.pending == s.pending
    || Tally(t.trace, Alerts) > Tally(s.trace, Alerts)
    || Tally(t.trace, Matches) > Tally(s.trace, Matches)
  }

  lemma AlertStands(c: Ctx, s: Item, io: bool)
    ensures var st := Say(c, s, true, CommentWrite(true));
      && st.s.pending == s.pending
      && Tally(st.s.trace, Alerts) >= Tally(s.trace, Alerts)
      && (st.Ret? ==> Ready(c, Ever(Alerts, Tally(s.trace, Alerts)), st.s))
  {
    hide Tally, NoEdits, StuckFree, NoFailures;
    TallyGrows(s.trace, CommentWrite(true), Alerts);
  }

  /** An enforced expiry clears the fire only after its alert. */
  lemma ExpireAlerts(c: Ctx, s: Item, f: Fire)
    requires c.Enforced(WatchdogExpired)
    ensures var t := Expire(c, s, f).s;
      t.pending == s.pending || Tally(t.trace, Alerts) > Tally(s.trace, Alerts)
  {
    hide Holds, Say, ApplyEvent, DeriveState, Tally, NoEdits, StuckFree, NoFailures, Glanced;
    LabelsGlance(c, s);
    var g := GetLabels(c, s);
    GlancedTrace(c, s, g.s);
    if g.Ret? {
      AlertStands(c, g.s, true);
      var a := Say(c, g.s, true, CommentWrite(true));
      if a.Ret? {
        var k := Ever(Alerts, Tally(g.s.trace, Alerts));
        KeepExpiredEvent(c, k, a.s, f, g.v, true);
        KeepExpiredEvent(c, k, a.s, f, g.v, false);
        EverSays(c, k, Expire(c, s, f).s);
      }
    }
  }

  lemma GlancedTrace(c: Ctx, s: Item, t: Item)
    requires Glanced(c, s, t)
    ensures s.trace == t.trace && s.pending == t.pending && s.alarm == t.alarm && s.now <= t.now
  {
  }

  lemma EverSays(c: Ctx, k: Kind, s: Item)
    requires Ready(c, k, s) && k.Ever?
    ensures Tally(s.trace, k.tag) > k.n
  {
  }

  lemma QuietSays(c: Ctx, k: Kind, s: Item)
    requires Ready(c, k, s) && k.Quiet?
    ensures Tally(s.trace, Matches) > k.n
      || (s.pending == k.fire && s.alarm == k.ring && Fired(s.trace) == k.fired)
    ensures Tally(s.trace, Matches) >= k.n
  {
  }

  lemma AlertsGrow(c: Ctx, s: Item, f: Fire)
    ensures Tally(MaybeRecover(c, s, f).s.trace, Alerts) >= Tally(s.trace, Alerts)
  {
    hide MaybeRecover, Tally;
    if Tally(s.trace, Alerts) > 0 {
      var k := Ever(Alerts, Tally(s.trace, Alerts) - 1);
      KeepMaybeRecover(c, k, s, f);
      EverSays(c, k, MaybeRecover(c, s, f).s);
    }
  }

  /** The fire may be sent once more instead of expiring. */
  predicate MayRetry(c: Ctx, s: Item) {
    c.retry && s.pending.Some? && !s.pending.value.retried && !s.pending.value.stepped
  }

  /** With the watchdog enforced, and its retry off or used up, whatever calls
      throw, an alarm attempt for an undeferred fire never makes the pending
      fire disappear unless the alert comment was posted or a recovered outcome
      had already matched a rule. */
  lemma AlarmIsNotSilent(c: Ctx, s: Item)
    requires c.Enforced(WatchdogExpired) && !MayRetry(c, s) && s.pending.Some? && !Deferred(s)
    ensures NotSilent(s, OnAlarm(c, s).s)
  {
    hide Ready, Holds, MaybeRecover, Expire, Early, Tally;
    var f := s.pending.value;
    var n := Tally(s.trace, Matches);
    var k := Quiet(n, s.pending, s.alarm, Fired(s.trace));
    QuietStarts(c, s);
    KeepMaybeRecover(c, k, s, f);
    var m := MaybeRecover(c, s, f);
    QuietSays(c, k, m.s);
    AlertsGrow(c, s, f);
    if m.Ret? && m.v.None? {
      ExpireAlerts(c, m.s, f);
      MatchesStand(c, m.s, f, n);
    }
  }

  lemma QuietStarts(c: Ctx, s: Item)
    ensures Ready(c, Quiet(Tally(s.trace, Matches), s.pending, s.alarm, Fired(s.trace)), s)
  {
  }

  lemma MatchesStand(c: Ctx, s: Item, f: Fire, n: nat)
    ensures Tally(s.trace, Matches) > n ==> Tally(Expire(c, s, f).s.trace, Matches) > n
  {
    hide Expire, Tally;
    if Tally(s.trace, Matches) > n {
      var k := Ever(Matches, n);
      assert Ready(c, k, s);
      KeepExpire(c, k, s, f);
      EverSays(c, k, Expire(c, s, f).s);
    }
  }

  /** Alarm attempts, one after another: an alarm that throws is tried again. */
  function Attempted(c: Ctx, s: Item, attempts: nat): Item
    decreases attempts
  {
    if attempts == 0 then s else Attempted(c, OnAlarm(c, s).s, attempts - 1)
  }

  lemma {:induction false} EverStands(c: Ctx, s: Item, tag: Tag, n: nat, attempts: nat)
    requires Tally(s.trace, tag) > n
    ensures Tally(Attempted(c, s, attempts).trace, tag) > n
    decreases attempts
  {
    hide OnAlarm, Tally;
    if attempts > 0 {
      var k := Ever(tag, n);
      assert Ready(c, k, s);
      KeepAlarm(c, k, s);
      EverSays(c, k, OnAlarm(c, s).s);
      EverStands(c, OnAlarm(c, s).s, tag, n, attempts - 1);
    }
  }

  lemma Least(c: Ctx, s: Item, tag: Tag)
    ensures Tally(OnAlarm(c, s).s.trace, tag) >= Tally(s.trace, tag)
  {
    hide OnAlarm, Tally;
    if Tally(s.trace, tag) > 0 {
      EverStands(c, s, tag, Tally(s.trace, tag) - 1, 1);
      assert Attempted(c, s, 1) == Attempted(c, OnAlarm(c, s).s, 0);
    }
  }

  /** So through any number of attempts: the fire is there until something says
      what became of it. */
  lemma {:induction false} AttemptsAreNotSilent(c: Ctx, s: Item, attempts: nat)
    requires c.Enforced(WatchdogExpired) && !MayRetry(c, s) && s.pending.Some? && !Deferred(s)
    ensures NotSilent(s, Attempted(c, s, attempts))
    decreases attempts
  {
    hide OnAlarm, Tally;
    if attempts > 0 {
      AlarmIsNotSilent(c, s);
      var t := OnAlarm(c, s).s;
      if t.pending == s.pending {
        AttemptsAreNotSilent(c, t, attempts - 1);
        Least(c, s, Alerts);
        Least(c, s, Matches);
      } else if Tally(t.trace, Alerts) > Tally(s.trace, Alerts) {
        EverStands(c, t, Alerts, Tally(s.trace, Alerts), attempts - 1);
      } else {
        EverStands(c, t, Matches, Tally(s.trace, Matches), attempts - 1);
      }
    }
  }

  // --- and exactly then ---

  const QUIET_ANSWER: Answer :=
    Answer(0, Accepts, {}, {}, Facts(None, [], false, None), Pull("", false, false), [], false, None, [])

  /** A world in which the one retry is refused and the labels then cannot be
      read: no comments, a watched label, and two calls that throw. */
  function Refusing(labels: set<Label>, calls: nat): nat -> Answer {
    (n: nat) =>
      if n == calls + 1 then QUIET_ANSWER.(gone := labels, came := {AiReady})
      else if n >= calls + 2 then QUIET_ANSWER.(verdict := Throws(false, false))
      else QUIET_ANSWER
  }

  lemma RefusedFire(c: Ctx, s: Item, run: Routine)
    requires c.world(s.calls).verdict == Throws(false, false)
    ensures var st := FireWatched(c, s, true, run, true, false);
      && st.Thr? && st.s.pending.None? && st.s.calls == s.calls + 1
      && Tally(st.s.trace, Alerts) == Tally(s.trace, Alerts) && Tally(st.s.trace, Matches) == Tally(s.trace, Matches)
  {
    hide Tally;
    var m := FireTried(run, Throws(false, false), s.releaseMerged.Some?);
    TallyGrows(s.trace, Started(run), Alerts);
    TallyGrows(s.trace, Started(run), Matches);
    TallyGrows(s.trace + [Started(run)], m, Alerts);
    TallyGrows(s.trace + [Started(run)], m, Matches);
  }

  /** There the fire is gone, with nothing to say what became of it. */
  lemma RefusedRetryIsSilent(c: Ctx, s: Item)
    requires c.Enforced(WatchdogExpired) && MayRetry(c, s) && !Deferred(s) && !Early(c, s, s.pending.value)
    requires c.world == Refusing(s.labels, s.calls)
    ensures !NotSilent(s, OnAlarm(c, s).s)
  {
    hide DeriveState, Decide, Tally, FireWatched, Early, ApplyEvent, Say, CoordinateWebhook, Comment, Log, SendDeferred;
    var f := s.pending.value;
    var s1 := Asked(c, s);
    assert Read(c, s) == Ret(s1, Next(c, s));
    assert TryNotes(c, s1, f, [], 0) == Ret(s1, None);
    assert MaybeRecover(c, s, f) == Ret(s1, None);
    var s2 := Asked(c, s1);
    assert GetLabels(c, s1) == Ret(s2, s2.labels);
    assert s2.labels == {AiReady};
    ReadingMeans({AiReady});
    ReadyIsWatched();
    RefusedFire(c, s2, f.run);
    var s3 := FireWatched(c, s2, true, f.run, true, false).s;
    assert RetryOnce(c, s2, f) == Ret(s3, None);
    assert MaybeRetry(c, s1, f) == Ret(s3, None);
    assert GetLabels(c, s3).Thr? && Expire(c, s3, f) == Thr(Asked(c, s3));
    assert OnAlarm(c, s).s == Asked(c, s3);
  }

  lemma ReadyIsWatched()
    ensures Decide(At(AiReady), WatchdogExpired).Some?
  {
  }

  /** So with the watchdog enforced, a due and undeferred fire is safe from
      silence in every world if and only if it may not be retried: a re-fire
      that is refused clears the pending fire before the alert. */
  lemma SilentOnlyByRetry(c: Ctx, s: Item)
    requires c.Enforced(WatchdogExpired) && s.pending.Some? && !Deferred(s) && !Early(c, s, s.pending.value)
    ensures (forall world: nat -> Answer :: NotSilent(s, OnAlarm(c.(world := world), s).s)) <==> !MayRetry(c, s)
  {
    hide OnAlarm, NotSilent, Refusing, Early;
    if MayRetry(c, s) {
      var world := Refusing(s.labels, s.calls);
      SameDue(c, world, s);
      RefusedRetryIsSilent(c.(world := world), s);
    } else {
      forall world: nat -> Answer
        ensures NotSilent(s, OnAlarm(c.(world := world), s).s)
      {
        AlarmIsNotSilent(c.(world := world), s);
      }
    }
  }

  lemma SameDue(c: Ctx, world: nat -> Answer, s: Item)
    requires s.pending.Some?
    ensures Early(c.(world := world), s, s.pending.value) == Early(c, s, s.pending.value)
  {
  }
}

module Agreement {
  import opened Wrappers
  import opened Graph
  import opened Labels
  import opened Items
  import opened Apply
  import opened Webhook
  import opened Watchdog
  import opened Runs
  import opened Kinds
  import opened WebhookKeeps
  import opened WatchdogKeeps
  import opened RunKeeps

  /** Gone off, with nothing armed since: the alarm is cleared from the moment
      its invocation waits, the fire it was for still pending, and due but for
      the margin. */
  predicate Rung(c: Ctx, s: Item) {
    s.alarm.None? && s.pending.Some? && !Early(c, s, s.pending.value)
  }

  /** No longer the fire the alarm rang for: ended, replaced, or armed again. */
  predicate Moved(f: Fire, t: Item) {
    t.alarm.Some? || t.pending != Some(f)
  }

  lemma SayKeepsAlarm(c: Ctx, s: Item, io: bool, m: Mark)
    ensures Say(c, s, io, m).s.alarm == s.alarm && Say(c, s, io, m).s.pending == s.pending
  {
  }

  lemma WatchedMoves(c: Ctx, s: Item, io: bool, run: Routine, retried: bool, again: bool)
    ensures var st := FireWatched(c, s, io, run, retried, again); st.Ret? ==> st.s.alarm.Some?
  {
    hide Say;
    forall u: Item, m: Mark
      ensures Say(c, u, io, m).s.alarm == u.alarm
    {
      SayKeepsAlarm(c, u, io, m);
    }
  }

  lemma UnwatchedMoves(c: Ctx, s: Item, io: bool, run: Routine, again: bool)
    ensures var st := FireUnwatched(c, s, io, run, again); st.Ret? ==> st.s.alarm.Some? || st.s.pending.None?
  {
    hide Say;
    forall u: Item, m: Mark
      ensures Say(c, u, io, m).s.alarm == u.alarm
    {
      SayKeepsAlarm(c, u, io, m);
    }
  }

  lemma SendMoves(c: Ctx, s: Item, f: Fire)
    ensures var st := SendDeferred(c, s, f); st.Ret? ==> Moved(f, st.s)
  {
    hide GetLabels, DeriveState, StillWanted, FireUnwatched, FireWatched, ReportDeferredFailed, Comment, Log;
    var read := GetLabels(c, s);
    UnwatchedMoves(c, read.s, true, f.run, true);
    WatchedMoves(c, read.s, true, f.run, f.retried, true);
  }

  lemma RetryMoves(c: Ctx, s: Item, f: Fire)
    ensures var st := MaybeRetry(c, s, f); st.Ret? && st.v.Some? ==> st.s.alarm.Some?
  {
    hide FireWatched, Say, DeriveState, Decide, GetLabels;
    var s1 := GetLabels(c, s).s;
    WatchedMoves(c, s1, true, f.run, true, false);
    var w := FireWatched(c, s1, true, f.run, true, false);
    SayKeepsAlarm(c, w.s, true, CommentWrite(false));
    SayKeepsAlarm(c, Comment(c, w.s, true).s, true, Row);
  }

  lemma {:induction false} RecoveredMoves(c: Ctx, s: Item, f: Fire, notes: seq<Note>, j: nat)
    requires j <= |notes|
    ensures var st := TryNotes(c, s, f, notes, j); st.Ret? && st.v.Some? ==> !SameFire(st.s, f)
    decreases j
  {
    hide CoordinateWebhook, Log;
    if j > 0 {
      var n := notes[j - 1];
      RecoveredMoves(c, s, f, notes, j - 1);
      RecoveredMoves(c, CoordinateWebhook(c, s, Replay(f, n)).s, f, notes, j - 1);
    }
  }

  lemma MaybeRecoverMoves(c: Ctx, s: Item, f: Fire)
    ensures var st := MaybeRecover(c, s, f); st.Ret? && st.v.Some? ==> Moved(f, st.s)
  {
    hide TryNotes;
    var r := Read(c, s);
    if r.Ret? {
      RecoveredMoves(c, r.s, f, r.v.notes, |r.v.notes|);
    }
  }

  /** An alarm run that returns, other than finding the fire not due, has ended
      it, replaced it or armed it. */
  lemma AlarmMoves(c: Ctx, s: Item)
    requires s.pending.Some? && !Early(c, s, s.pending.value)
    ensures OnAlarm(c, s).Ret? ==> Moved(s.pending.value, OnAlarm(c, s).s)
  {
    hide SendDeferred, MaybeRecover, MaybeRetry, Expire, Early;
    var f := s.pending.value;
    SendMoves(c, s, f);
    MaybeRecoverMoves(c, s, f);
    var s1 := MaybeRecover(c, s, f).s;
    RetryMoves(c, s1, f);
    ExpireEnds(c, MaybeRetry(c, s1, f).s, f);
  }

  lemma ExpireEnds(c: Ctx, s: Item, f: Fire)
    ensures Expire(c, s, f).Ret? ==> Expire(c, s, f).s.pending.None?
  {
    hide GetLabels, Say, ApplyEvent, DeriveState;
  }

  lemma ArmedSays(c: Ctx, s: Item, t: Item)
    requires Ready(c, Armed(s.pending, s.alarm), t)
    ensures Agree(t) || (t.pending == s.pending && t.alarm == s.alarm)
  {
  }

  /** An alarm run that returns normally leaves the fire and the alarm in
      agreement, whatever came between the alarm going off and its turn. */
  lemma AlarmRestores(c: Ctx, s: Item)
    requires Agree(s) || Rung(c, s)
    ensures OnAlarm(c, s).Ret? ==> Agree(OnAlarm(c, s).s)
  {
    hide OnAlarm, Early;
    var k := Armed(s.pending, s.alarm);
    assert Ready(c, k, s);
    KeepAlarm(c, k, s);
    ArmedSays(c, s, OnAlarm(c, s).s);
    if Rung(c, s) {
      AlarmMoves(c, s);
    }
  }

  /** The margin is what it takes: with the alarm gone, a run of it that returns
      restores the agreement if the fire was due within the margin, and only
      then; one invoked earlier still finds the fire early, and leaves it with no
      alarm. */
  lemma MarginIsExact(c: Ctx, s: Item)
    requires s.alarm.None? && s.pending.Some? && OnAlarm(c, s).Ret?
    ensures Agree(OnAlarm(c, s).s) <==> !Early(c, s, s.pending.value)
  {
    hide SendDeferred, MaybeRecover, ExpireOrRetry, Early;
    if !Early(c, s, s.pending.value) {
      AlarmRestores(c, s);
    }
  }

  /** An item, and the alarm invocations that have gone off and not yet
      returned: one that throws is tried again. */
  datatype System = System(item: Item, ringing: nat)

  function Tick(c: Ctx, x: System, a: Act): System {
    match a
    case Ring => if Due(c, x.item) then System(Handle(c, x.item, a), x.ringing + 1) else x
    case AlarmRun =>
      if x.ringing == 0 then x
      else System(Handle(c, x.item, a), if OnAlarm(c, x.item).Ret? then x.ringing - 1 else x.ringing)
    case _ => System(Handle(c, x.item, a), x.ringing)
  }

  function Ticks(c: Ctx, x: System, acts: seq<Act>): System
    decreases |acts|
  {
    if acts == [] then x else Ticks(c, Tick(c, x, acts[0]), acts[1..])
  }

  /** The fire and its alarm agree (the alarm set for when the fire is due, both
      absent together) unless an invocation waits or runs, and then only for
      want of the alarm that rang. */
  predicate Sound(c: Ctx, x: System) {
    (x.ringing == 0 ==> Agree(x.item)) && (Agree(x.item) || Rung(c, x.item))
  }

  lemma TickKeepsSound(c: Ctx, x: System, a: Act)
    requires Sound(c, x)
    ensures Sound(c, Tick(c, x, a))
  {
    hide OnAlarm, CoordinateWebhook, Fits, Ready;
    var s := x.item;
    match a
    case Ring =>
    case AlarmRun =>
      if x.ringing > 0 {
        AlarmRestores(c, s);
        HandlerKeepsSound(c, s, a);
      }
    case _ => HandlerKeepsSound(c, s, a);
  }

  lemma HandlerKeepsSound(c: Ctx, s: Item, a: Act)
    requires !a.Ring? && (Agree(s) || Rung(c, s))
    ensures var t := Handle(c, s, a); (Agree(s) ==> Agree(t)) && (Agree(t) || Rung(c, t))
  {
    hide Handle, Agree, Rung;
    var k := Armed(s.pending, s.alarm);
    assert Ready(c, k, s);
    KeepHandle(c, k, s, a);
    ArmedSays(c, s, Handle(c, s, a));
    var clock := NotBefore(s.now);
    assert Ready(c, clock, s);
    KeepHandle(c, clock, s, a);
    ClockSays(c, clock, Handle(c, s, a));
    StaysSound(c, s, Handle(c, s, a));
  }

  lemma StaysSound(c: Ctx, s: Item, t: Item)
    requires Agree(s) || Rung(c, s)
    requires Agree(t) || (t.pending == s.pending && t.alarm == s.alarm)
    requires s.now <= t.now
    ensures (Agree(s) ==> Agree(t)) && (Agree(t) || Rung(c, t))
  {
  }

  lemma ClockSays(c: Ctx, k: Kind, s: Item)
    requires Ready(c, k, s) && k.NotBefore?
    ensures k.at <= s.now
  {
  }

  /** In every reachable state the pending fire and the alarm agree, except
      while an alarm invocation waits or runs. */
  lemma {:induction false} FireAndAlarmAgree(c: Ctx, x: System, acts: seq<Act>)
    requires Sound(c, x)
    ensures Sound(c, Ticks(c, x, acts))
    ensures Ticks(c, x, acts).ringing == 0 ==> Agree(Ticks(c, x, acts).item)
    decreases |acts|
  {
    hide Tick, Agree, Rung;
    if acts != [] {
      TickKeepsSound(c, x, acts[0]);
      FireAndAlarmAgree(c, Tick(c, x, acts[0]), acts[1..]);
    }
  }

  /** A waiting alarm never expires a watched fire, or a heartbeat, that armed
      less than half its timeout before the alarm's turn: it finds it not due,
      and leaves everything as it was. */
  lemma FreshArmOutlivesAlarm(c: Ctx, armed: Item, f: Fire, s: Item)
    requires f.deferUntil.None? && s.pending == Arm(c, armed, f).pending
    requires 2 * (s.now - armed.now) < c.timeout(f.run)
    ensures OnAlarm(c, s) == Ret(s, NotDue)
  {
  }
}
