// A fire the routines API rate-limited is neither lost nor sent twice
// (worker/src/coordinate/apply.ts, watchdog.ts, routine-signal.ts).

module Deferral {
  import opened Wrappers
  import opened Graph
  import opened Labels
  import opened Items
  import opened Apply
  import opened Deliveries
  import opened Webhook
  import opened Watchdog
  import opened Signals
  import opened Sweeping
  import opened Runs
  import opened Kinds
  import opened Keeps
  import opened WebhookKeeps
  import opened WatchdogKeeps
  import opened RunKeeps
  import opened Agreement
  import opened Expiries
  import opened Fires

  /** A fire of `run` waiting out a rate limit: the last one tried, and limited
      until a time; it is due at that time, nudged, and its alarm set for then,
      or rung and waiting its turn. */
  predicate Waits(c: Ctx, s: Item, run: Routine) {
    && Running(s, run) && Deferred(s)
    && s.pending.value.dueAt == s.pending.value.deferUntil.value
    && Fired(s.trace) != [] && Fired(s.trace)[|Fired(s.trace)| - 1].run == run
    && Reply(s).RateLimits? && s.pending.value.dueAt == Nudged(c, Reply(s).retryAt)
    && (Agree(s) || Rung(c, s))
  }

  /** Sent: accepted, at the one try since, and no deferral left. */
  predicate SentOnce(s: Item, t: Item, run: Routine) {
    !Deferred(t) && Fired(t.trace) == Fired(s.trace) + [Attempt(run, Accepts)]
  }

  /** Not tried since, or tried once and limited again. */
  predicate StillWaits(c: Ctx, s: Item, t: Item, run: Routine) {
    Waits(c, t, run) && (NoneFired(s, t) || FiredOnce(s, t, run))
  }

  /** Tried, and refused outright: neither accepted nor rate-limited. */
  predicate Refused(s: Item, t: Item, run: Routine) {
    FiredOnce(s, t, run) && Reply(t).Throws?
  }

  // --- the alarm ---

  /** What a fire of the run comes to: sent once, waiting again, or refused. */
  predicate Tried(c: Ctx, s: Item, st: Step<FireOutcome>, run: Routine) {
    match st
    case Ret(t, WentOut) => SentOnce(s, t, run)
    case Ret(t, PutOff) => StillWaits(c, s, t, run)
    case Thr(t) => Refused(s, t, run)
  }

  /** A fire of the run, watched or not: accepted, it is sent once;
      rate-limited, it waits for the time the API gave. */
  lemma FireSends(c: Ctx, s: Item, run: Routine, retried: bool, again: bool)
    ensures Tried(c, s, FireWatched(c, s, true, run, retried, again), run)
    ensures Tried(c, s, FireUnwatched(c, s, true, run, again), run)
  {
    hide FireWatched, FireUnwatched, Fired, Quietly;
    WatchedFire(c, s, run, retried, again);
    UnwatchedFire(c, s, run, again);
  }

  /** The labels still ask for the run (too many to tell counts as asking). */
  predicate Wanted(s: Item, run: Routine) {
    StillWanted(DeriveState(s.labels), run)
  }

  /** Its alarm's turn: not yet due, it waits; come due, the fire is tried
      again, its labels read or not, and goes out, waits for the next time the
      API gives, or is refused. */
  lemma AlarmSendsOrWaits(c: Ctx, s: Item, run: Routine)
    requires NoEdits(c) && Waits(c, s, run) && Wanted(s, run)
    ensures var st := OnAlarm(c, s);
      && st.s.labels == s.labels
      && match st
         case Thr(t) => Refused(s, t, run)
         case Ret(t, r) =>
           if Early(c, s, s.pending.value) then r.NotDue? && t == s
           else (r.DeferredSent? && SentOnce(s, t, run)) || (r.DeferredAgain? && StillWaits(c, s, t, run))
  {
    hide FireWatched, FireUnwatched, DeriveState, StillWanted, Fired, NoEdits, StuckFree, Early, SentOnce, StillWaits, ReportDeferredFailed,
      GetLabels, DropDeferred, Ready, Refused;
    var f := s.pending.value;
    LabelsGlance(c, s);
    var s1 := GetLabels(c, s).s;
    GlancedTrace(c, s, s1);
    FireSends(c, s1, run, f.retried, true);
    LooseIsReady(c, s1);
    KeepFireWatched(c, Loose, s1, true, run, f.retried, true);
    KeepFireUnwatched(c, Loose, s1, true, run, true);
    SameTrace(c, s, s1, FireWatched(c, s1, true, run, f.retried, true).s, run);
    SameTrace(c, s, s1, FireUnwatched(c, s1, true, run, true).s, run);
    RefusalReported(c, s, FireWatched(c, s1, true, run, f.retried, true).s, run);
    RefusalReported(c, s, FireUnwatched(c, s1, true, run, true).s, run);
    WantedIfRead(s1, run);
  }

  lemma WantedIfRead(s: Item, run: Routine)
    ensures StillWanted(Ambiguous, run)
  {
  }

  lemma SameTrace(c: Ctx, s: Item, s1: Item, t: Item, run: Routine)
    requires s.trace == s1.trace
    ensures SentOnce(s1, t, run) <==> SentOnce(s, t, run)
    ensures StillWaits(c, s1, t, run) <==> StillWaits(c, s, t, run)
    ensures Refused(s1, t, run) <==> Refused(s, t, run)
  {
  }

  lemma RefusalReported(c: Ctx, s: Item, t: Item, run: Routine)
    ensures var u := ReportDeferredFailed(c, t);
      (Refused(s, t, run) ==> Refused(s, u, run)) && (NoEdits(c) ==> u.labels == t.labels)
  {
    hide Say, Fired, NoEdits, StuckFree;
    SaysUnfired(c, t, true, Row);
    SayReturns(c, t, true, Row);
    SaysUnfired(c, Log(c, t).s, true, CommentWrite(false));
    SayReturns(c, Log(c, t).s, true, CommentWrite(false));
  }

  /** Come due and still asked for, it is fired as it was first: watched or not,
      and a retry still a retry. */
  lemma FiredAsItWas(c: Ctx, s: Item, run: Routine)
    requires NoEdits(c) && Waits(c, s, run) && Wanted(s, run) && !Early(c, s, s.pending.value)
    ensures var t := OnAlarm(c, s).s; var f := s.pending.value;
      FiredOnce(s, t, run) && Leaves(c, s, t, run, !f.unwatched, f.retried && !f.unwatched)
  {
    hide FireWatched, FireUnwatched, DeriveState, StillWanted, Fired, NoEdits, StuckFree, Early, GetLabels, DropDeferred, Say, Quietly,
      Watching, Deferring, Reply;
    var f := s.pending.value;
    LabelsGlance(c, s);
    var s1 := GetLabels(c, s).s;
    GlancedTrace(c, s, s1);
    WantedIfRead(s1, run);
    WatchedFire(c, s1, run, f.retried, true);
    UnwatchedFire(c, s1, run, true);
    var u := (if f.unwatched then FireUnwatched(c, s1, true, run, true) else FireWatched(c, s1, true, run, f.retried, true)).s;
    SaysUnfired(c, u, true, Row);
    SaysUnfired(c, Log(c, u).s, true, CommentWrite(false));
    UnfiredOn(u, Log(c, u).s, ReportDeferredFailed(c, u));
    ItsOwn(u);
    LeavesOn(c, s, s1, u, OnAlarm(c, s).s, run, !f.unwatched, f.retried && !f.unwatched);
  }

  lemma ItsOwn(s: Item)
    ensures Unfired(s, s)
  {
  }

  /** And one its labels, once read, no longer ask for is dropped, unfired. */
  lemma UnwantedIsDropped(c: Ctx, s: Item, run: Routine)
    requires NoEdits(c) && Waits(c, s, run) && !Wanted(s, run) && !Early(c, s, s.pending.value)
    requires !c.world(s.calls).verdict.Throws?
    ensures var st := OnAlarm(c, s); st.Ret? && st.v.DeferredDropped? && Idle(st.s) && NoneFired(s, st.s) && st.s.labels == s.labels
  {
    hide FireWatched, FireUnwatched, DeriveState, StillWanted, Fired, NoEdits, StuckFree, Early, Say, GetLabels;
    LabelsGlance(c, s);
    GlancedTrace(c, s, GetLabels(c, s).s);
    LabelsCome(c, s);
    var g := GetLabels(c, s).s;
    RowIsUnfired(c, g);
    var l := Log(c, g).s;
    SaysUnfired(c, l, true, CommentWrite(false));
    SayReturns(c, l, true, CommentWrite(false));
  }

  lemma LabelsCome(c: Ctx, s: Item)
    requires !c.world(s.calls).verdict.Throws?
    ensures GetLabels(c, s).Ret?
  {
  }

  // --- everything else ---

  /** A rule of another event has matched since. */
  predicate Overtaken(s: Item, t: Item) {
    Tally(t.trace, Matches) > Tally(s.trace, Matches)
  }

  /** Acts the promise speaks of: no label edit by anyone else, and no close;
      and the sweep comes while the fire's alarm is set, or within the time a
      rung alarm is tried in. */
  predicate Allowed(s: Item, a: Act) {
    match a
    case Delivery(i) => Worker(i.payload) && !i.payload.PrClosed? && !i.payload.IssueClosedNow?
    case People(_, _) => false
    case Sweep(_, _, _) => Deferred(s) ==> s.alarm.Some? || s.now < s.pending.value.dueAt + LOST_AFTER_MS
    case _ => true
  }

  /** What an act leaves of a waiting fire. */
  predicate Undisturbed(c: Ctx, s: Item, t: Item, run: Routine) {
    Overtaken(s, t) || (StillWaits(c, s, t, run) && t.labels == s.labels)
  }

  lemma WaitsOn(c: Ctx, s: Item, t: Item, run: Routine)
    requires Waits(c, s, run) && NoneFired(s, t) && t.pending == s.pending && t.alarm == s.alarm && s.now <= t.now
    ensures Waits(c, t, run)
  {
  }

  lemma StillSays(c: Ctx, k: Kind, s: Item)
    requires Ready(c, k, s) && k.Still?
    ensures Tally(s.trace, Matches) > k.n || s.labels == k.labels
  {
  }

  /** A delivery leaves the labels, unless a rule matches: a review hand-off
      too, because the labels that ask for the run are not none. */
  lemma DeliveryLeavesLabels(c: Ctx, s: Item, i: Input, run: Routine)
    requires NoEdits(c) && Wanted(s, run) && Allowed(s, Delivery(i))
    ensures var t := CoordinateWebhook(c, s, i).s; Overtaken(s, t) || t.labels == s.labels
  {
    hide CoordinateWebhook, Tally, NoEdits, StuckFree, Opened, DeriveState;
    var still := Still(Tally(s.trace, Matches), s.labels);
    ReadingMeans(s.labels);
    assert Ready(c, still, s);
    KeepDelivery(c, still, s, i);
    OpenStays(c, still, s, CoordinateWebhook(c, s, i));
    StillSays(c, still, CoordinateWebhook(c, s, i).s);
  }

  lemma DeliveryTakesTime(c: Ctx, s: Item, i: Input)
    ensures s.now <= CoordinateWebhook(c, s, i).s.now
  {
    hide CoordinateWebhook, Opened;
    var clock := NotBefore(s.now);
    assert Ready(c, clock, s);
    KeepDelivery(c, clock, s, i);
    OpenStays(c, clock, s, CoordinateWebhook(c, s, i));
    ClockSays(c, clock, CoordinateWebhook(c, s, i).s);
  }

  lemma DeliveryLeaves(c: Ctx, s: Item, i: Input, run: Routine)
    requires NoEdits(c) && Waits(c, s, run) && Wanted(s, run) && Allowed(s, Delivery(i))
    ensures Undisturbed(c, s, CoordinateWebhook(c, s, i).s, run)
  {
    hide CoordinateWebhook, Tally, NoEdits, StuckFree, Waits, Wanted, Opened, Ready;
    var quiet := Quiet(Tally(s.trace, Matches), s.pending, s.alarm, Fired(s.trace));
    var st := CoordinateWebhook(c, s, i);
    QuietStarts(c, s);
    KeepDelivery(c, quiet, s, i);
    OpenStays(c, quiet, s, st);
    QuietSays(c, quiet, st.s);
    DeliveryLeavesLabels(c, s, i, run);
    DeliveryTakesTime(c, s, i);
    if !Overtaken(s, st.s) {
      WaitsOn(c, s, st.s, run);
    }
  }

  lemma RowIsUnfired(c: Ctx, s: Item)
    ensures var t := Log(c, s).s; Unfired(s, t) && (NoEdits(c) ==> t.labels == s.labels)
  {
    hide Say, NoEdits, StuckFree;
    SaysUnfired(c, s, true, Row);
    SayReturns(c, s, true, Row);
  }

  /** No run is going yet, so no signal is for it. */
  lemma SignalLeaves(c: Ctx, s: Item, sig: Signal, run: Routine)
    requires NoEdits(c) && Waits(c, s, run)
    ensures Undisturbed(c, s, OnSignal(c, s, sig).s, run)
  {
    hide Log, GetLabels, OnLive, AlreadyApplied, Tally, NoEdits, StuckFree, Waits, Agree, Rung;
    assert Deferred(s) by {
      DeferredWaits(c, s, run);
    }
    RowIsUnfired(c, s);
    WaitsOn(c, s, Log(c, s).s, run);
    LabelsGlance(c, s);
    var g := GetLabels(c, s).s;
    GlancedTrace(c, s, g);
    RowIsUnfired(c, g);
    WaitsOn(c, s, g, run);
    WaitsOn(c, s, Log(c, g).s, run);
  }

  lemma DeferredWaits(c: Ctx, s: Item, run: Routine)
    requires Waits(c, s, run)
    ensures Deferred(s) && Running(s, run)
  {
  }

  lemma SweepLeaves(c: Ctx, s: Item, enforced: bool, budget: bool, at: Option<int>, run: Routine)
    requires Waits(c, s, run) && Allowed(s, Sweep(enforced, budget, at))
    ensures Reconcile(c, s, enforced, budget, at) == Ret(s, BeingWatched)
  {
  }

  /** Whatever else happens, the fire still waits, with its alarm, unless a rule
      of another event has matched. */
  lemma OthersLeave(c: Ctx, s: Item, a: Act, run: Routine)
    requires NoEdits(c) && Waits(c, s, run) && Wanted(s, run) && Allowed(s, a) && !a.AlarmRun?
    ensures Undisturbed(c, s, Handle(c, s, a), run)
  {
    hide CoordinateWebhook, OnSignal, Reconcile, Tally, NoEdits, StuckFree, Wanted;
    match a
    case Delivery(i) => DeliveryLeaves(c, s, i, run);
    case Ring =>
    case SignalIn(sig) => SignalLeaves(c, s, sig, run);
    case Sweep(enforced, budget, at) => SweepLeaves(c, s, enforced, budget, at, run);
    case Wait(ms) => WaitsOn(c, s, s.(now := s.now + ms), run);
    case _ =>
  }

  /** The acts each come at a moment the promise speaks of. */
  predicate AllAllowed(c: Ctx, s: Item, acts: seq<Act>)
    decreases |acts|
  {
    acts == [] || (Allowed(s, acts[0]) && AllAllowed(c, Handle(c, s, acts[0]), acts[1..]))
  }

  /** The life of a deferred fire over a run: it waits, its labels still asking
      for it, until another event's rule matches, a fire is refused outright, or
      an alarm's turn comes at which it is sent, once. */
  ghost predicate Kept(c: Ctx, s: Item, run: Routine, acts: seq<Act>)
    decreases |acts|
  {
    && Waits(c, s, run) && Wanted(s, run)
    && (acts != [] ==>
          var t := Handle(c, s, acts[0]);
          || Overtaken(s, t)
          || Refused(s, t, run)
          || (acts[0].AlarmRun? && SentOnce(s, t, run))
          || (StillWaits(c, s, t, run) && Kept(c, t, run, acts[1..])))
  }

  /** Through any number of re-deferrals, heartbeats, signals, comments, pushes
      and sweeps, other calls failing as they like, a rate-limited fire stays
      pending with its alarm at the time the API gave, is accepted once, and
      leaves no deferral behind. */
  lemma {:induction false} DeferredFireIsKept(c: Ctx, s: Item, run: Routine, acts: seq<Act>)
    requires NoEdits(c) && Waits(c, s, run) && Wanted(s, run) && AllAllowed(c, s, acts)
    ensures Kept(c, s, run, acts)
    decreases |acts|
  {
    hide Handle, Waits, StillWaits, Overtaken, Refused, SentOnce, Allowed, NoEdits, StuckFree, StillWanted, DeriveState;
    if acts != [] {
      var t := Handle(c, s, acts[0]);
      StepKeeps(c, s, run, acts[0]);
      if StillWaits(c, s, t, run) && t.labels == s.labels {
        StillWaitsWaits(c, s, t, run);
        DeferredFireIsKept(c, t, run, acts[1..]);
      }
    }
  }

  lemma StillWaitsWaits(c: Ctx, s: Item, t: Item, run: Routine)
    requires StillWaits(c, s, t, run)
    ensures Waits(c, t, run)
  {
  }

  lemma StepKeeps(c: Ctx, s: Item, run: Routine, a: Act)
    requires NoEdits(c) && Waits(c, s, run) && Wanted(s, run) && Allowed(s, a)
    ensures var t := Handle(c, s, a);
      || Overtaken(s, t)
      || Refused(s, t, run)
      || (a.AlarmRun? && SentOnce(s, t, run))
      || (StillWaits(c, s, t, run) && t.labels == s.labels)
  {
    hide CoordinateWebhook, OnSignal, Reconcile, OnAlarm, Waits, StillWaits, Overtaken, Refused, SentOnce, Allowed, NoEdits, StuckFree, NoFailures,
      StillWanted, DeriveState, Early;
    if a.AlarmRun? {
      DeferredWaits(c, s, run);
      AlarmSendsOrWaits(c, s, run);
      WaitsAsItIs(c, s, run);
    } else {
      OthersLeave(c, s, a, run);
    }
  }

  lemma WaitsAsItIs(c: Ctx, s: Item, run: Routine)
    requires Waits(c, s, run)
    ensures StillWaits(c, s, s, run)
  {
  }

  // --- how a deferral starts ---

  /** A rule that runs something leaves labels that ask for it. */
  lemma RunIsWanted(cl: set<Label>, e: Event)
    requires |Before(cl, e)| <= 1 && RuleFor(cl, e).Some? && RuleFor(cl, e).value.run.Some?
    ensures var rule := RuleFor(cl, e).value;
      DeriveState(DoAll(cl, LabelOps(cl, rule))) == Clear(HomeOf(rule.run.value))
  {
    hide Decide, DeriveState, LabelOps, DoAll;
    var rule := RuleFor(cl, e).value;
    RuleForNames(cl, e);
    MatchedRuleLeavesItsTarget(cl, e);
    RunsLeadHome(rule.from, e);
    RunsStayOrMove(rule.from, e);
    SmallReading(Before(cl, e));
    match rule.to
    case ToLabel(to) => ReadingMeans({to});
    case _ =>
  }

  lemma RunsStayOrMove(s: State, e: Event)
    requires Decide(s, e).Some? && Decide(s, e).value.run.Some?
    ensures Decide(s, e).value.to.ToLabel? || (Decide(s, e).value.to.Noop? && JustAdded(e).None?)
  {
    hide Decide;
    DecisionsAreRegular(s, e);
  }

  /** A matched rule's fire that the API rate-limits, on an item with at most one
      tracked label besides the one the event added, starts the life of a
      deferred fire: it waits with its alarm, and the labels ask for it,
      whatever becomes of the rule's log row. */
  lemma DeferralStarts(c: Ctx, s: Item, e: Event, cl: set<Label>, told: bool)
    requires NoEdits(c) && c.Enforced(e) && cl == s.labels && |Before(cl, e)| <= 1
    requires RuleFor(cl, e).Some? && RuleFor(cl, e).value.run.Some?
    requires var t := ApplyEvent(c, s, e, cl, told).s; FiredOnce(s, t, RuleFor(cl, e).value.run.value) && Reply(t).RateLimits?
    ensures var t := ApplyEvent(c, s, e, cl, told).s; var run := RuleFor(cl, e).value.run.value;
      Waits(c, t, run) && Wanted(t, run)
  {
    hide ApplyEvent, RuleFor, LabelOps, DoAll, NoEdits, StuckFree, DeriveState, Before, HomeOf, Fired, Framed, WatchedEnd;
    RunIsWanted(cl, e);
    EventFires(c, s, e, cl, told);
  }

  // --- and not before its time ---

  /** More than a minute, or more than half its timeout, before it is due. */
  predicate TooSoon(c: Ctx, f: Fire, now: int) {
    now < f.dueAt - 60_000 || 2 * (f.dueAt - now) > c.timeout(f.run)
  }

  predicate NoCloses(acts: seq<Act>) {
    forall a | a in acts && a.Delivery? :: !a.input.payload.PrClosed? && !a.input.payload.IssueClosedNow?
  }

  /** The fire, its alarm and the fires made are as they were. */
  predicate Untouched(s: Item, t: Item) {
    t.pending == s.pending && t.alarm == s.alarm && NoneFired(s, t)
  }

  lemma SoonDelivery(c: Ctx, s: Item, i: Input)
    requires NoCloses([Delivery(i)])
    ensures var t := CoordinateWebhook(c, s, i).s; Overtaken(s, t) || Untouched(s, t)
  {
    hide CoordinateWebhook, Opened, Ready, Fired, Tally;
    var quiet := Quiet(Tally(s.trace, Matches), s.pending, s.alarm, Fired(s.trace));
    assert Delivery(i) in [Delivery(i)];
    QuietStarts(c, s);
    KeepDelivery(c, quiet, s, i);
    OpenStays(c, quiet, s, CoordinateWebhook(c, s, i));
    QuietSays(c, quiet, CoordinateWebhook(c, s, i).s);
  }

  lemma SoonSignal(c: Ctx, s: Item, sig: Signal)
    requires Deferred(s)
    ensures Untouched(s, OnSignal(c, s, sig).s)
  {
    hide Log, GetLabels, OnLive, AlreadyApplied, Fired, NoEdits, StuckFree;
    RowIsUnfired(c, s);
    LabelsGlance(c, s);
    GlancedTrace(c, s, GetLabels(c, s).s);
    RowIsUnfired(c, GetLabels(c, s).s);
  }

  lemma SoonStep(c: Ctx, s: Item, a: Act)
    requires Deferred(s) && Agree(s) && NoCloses([a]) && TooSoon(c, s.pending.value, s.now)
    ensures var t := Handle(c, s, a); Overtaken(s, t) || Untouched(s, t)
  {
    hide CoordinateWebhook, OnSignal, Fired, Tally, NoCloses;
    match a
    case Delivery(i) => SoonDelivery(c, s, i);
    case SignalIn(sig) => SoonSignal(c, s, sig);
    case _ =>
  }

  lemma RunGoesOn(c: Ctx, s: Item, acts: seq<Act>)
    ensures s.now <= Run(c, s, acts).now
    ensures Tally(s.trace, Matches) <= Tally(Run(c, s, acts).trace, Matches)
  {
    hide Run, Tally;
    var clock := NotBefore(s.now);
    assert Ready(c, clock, s);
    assert forall a | a in acts :: ActFits(clock, a);
    KeepRun(c, clock, s, acts);
    ClockSays(c, clock, Run(c, s, acts));
    if Tally(s.trace, Matches) > 0 {
      var k := Ever(Matches, Tally(s.trace, Matches) - 1);
      assert Ready(c, k, s);
      assert forall a | a in acts :: ActFits(k, a);
      KeepRun(c, k, s, acts);
      EverSays(c, k, Run(c, s, acts));
    }
  }

  /** However its item's run goes on, people editing its labels too: in any run
      without a close that ends too soon, the limited fire is not tried, nothing
      else is fired, and it stays pending with its alarm, unless an event's rule
      has matched. */
  lemma {:induction false} NotTriedBeforeItsTime(c: Ctx, s: Item, acts: seq<Act>)
    requires Deferred(s) && Agree(s) && NoCloses(acts) && TooSoon(c, s.pending.value, Run(c, s, acts).now)
    ensures Overtaken(s, Run(c, s, acts)) || Untouched(s, Run(c, s, acts))
    decreases |acts|
  {
    hide Handle, Fired, Tally, Agree;
    if acts != [] {
      var t := Handle(c, s, acts[0]);
      RunGoesOn(c, s, acts);
      RunGoesOn(c, t, acts[1..]);
      RunGoesOn(c, s, [acts[0]]);
      OneStep(c, s, acts[0]);
      assert NoCloses([acts[0]]) && NoCloses(acts[1..]);
      SoonStep(c, s, acts[0]);
      if !Overtaken(s, t) {
        AgreeStays(s, t);
        NotTriedBeforeItsTime(c, t, acts[1..]);
      }
    }
  }

  lemma AgreeStays(s: Item, t: Item)
    requires Agree(s) && t.pending == s.pending && t.alarm == s.alarm
    ensures Agree(t)
  {
  }

  lemma OneStep(c: Ctx, s: Item, a: Act)
    ensures Run(c, s, [a]) == Handle(c, s, a)
  {
    hide Handle;
    assert [a][1..] == [];
  }
}
