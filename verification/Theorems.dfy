// What holds over whole runs of one item.

/** Autonomous rework ends, and the Worker alone never leaves two labels on. */
module Termination {
  import opened Graph
  import opened Items
  import opened Runs
  import opened Kinds
  import opened WebhookKeeps
  import opened RunKeeps

  /** A run in which nobody but the Worker moves labels between handlers. */
  predicate OwnRun(acts: seq<Act>) {
    forall a | a in acts :: !a.People? && (a.Delivery? ==> Worker(a.input.payload))
  }

  lemma OwnActsFit(k: Kind, acts: seq<Act>)
    requires Hands(k) && OwnRun(acts)
    ensures forall a | a in acts :: ActFits(k, a)
  {
  }

  /** The hand-outs to rework-loop applied in any such run number at most what
      the two counters still allowed at its start, whatever CI, the review,
      the routines API and the clock do. */
  lemma ReworkTerminates(c: Ctx, s: Item, acts: seq<Act>)
    requires c.mode && NoEdits(c) && OwnRun(acts) && s.labels != {MergeBlocked, AutoMerging}
    ensures Tally(Run(c, s, acts).trace, HandOuts) <= Tally(s.trace, HandOuts) + Left(c, s)
  {
    hide Run, Left, ActFits, OwnRun;
    var k := Budget(Tally(s.trace, HandOuts) + Left(c, s));
    OwnActsFit(k, acts);
    KeepRun(c, k, s, acts);
    BudgetSays(c, k.b, Run(c, s, acts));
  }

  lemma BudgetSays(c: Ctx, b: int, s: Item)
    requires Ready(c, Budget(b), s)
    ensures Tally(s.trace, HandOuts) <= b
  {
  }

  /** An applied review_passed ends the PR's rework for good: it resets both
      counters, and no hand-out follows it. */
  lemma NothingAfterReviewPassed(c: Ctx, s: Item, acts: seq<Act>, more: seq<Act>)
    requires c.mode && NoEdits(c) && OwnRun(acts) && OwnRun(more) && s.labels != {MergeBlocked, AutoMerging}
    requires Tally(Run(c, s, acts).trace, Verdicts) > Tally(s.trace, Verdicts)
    ensures var t := Run(c, s, acts); Tally(Run(c, t, more).trace, HandOuts) == Tally(t.trace, HandOuts)
  {
    hide Run, ActFits, OwnRun, Tally, NoEdits, StuckFree;
    var t := Run(c, s, acts);
    var passed := Verdict(Tally(s.trace, Verdicts));
    OwnActsFit(passed, acts);
    KeepRun(c, passed, s, acts);
    var done := Finished(Tally(t.trace, HandOuts));
    OwnActsFit(done, more);
    KeepRun(c, done, t, more);
  }

  /** From at most one tracked label, the Worker's own steps, however its calls
      fail, never leave two. */
  lemma OneLabelKept(c: Ctx, s: Item, acts: seq<Act>)
    requires c.mode && NoEdits(c) && OwnRun(acts) && |s.labels| <= 1
    ensures |Run(c, s, acts).labels| <= 1
  {
    hide Run, ActFits, OwnRun, NoEdits, StuckFree;
    OwnActsFit(Lone, acts);
    KeepRun(c, Lone, s, acts);
  }
}

/** What a merged release can no longer do. */
module Releases {
  import opened Wrappers
  import opened Graph
  import opened Items
  import opened Runs
  import opened Kinds
  import opened RunKeeps

  /** While the Worker's record of a merged release stands, auto-release-loop
      is not what is pending. */
  predicate RecordKept(s: Item) {
    s.releaseMerged.Some? ==> !Running(s, AutoReleaseLoop)
  }

  /** Once a release is recorded as merged, no handler ever fires
      auto-release-loop for the item again (by label, sweep, retry or deferred
      send, whatever calls throw) until release_published clears the record:
      no fire of it is ever made while the record stands. */
  lemma ReleaseNotRepeated(c: Ctx, s: Item, acts: seq<Act>)
    requires RecordKept(s)
    ensures RecordKept(Run(c, s, acts))
    ensures Tally(Run(c, s, acts).trace, LateReleases) == Tally(s.trace, LateReleases)
  {
    hide Run, ActFits, Tally;
    var k := Kind.Released(Tally(s.trace, LateReleases));
    AnyActFits(k, acts);
    KeepRun(c, k, s, acts);
  }

  lemma AnyActFits(k: Kind, acts: seq<Act>)
    requires k.Released? || k.Dry? || k.Remembers? || k.NotBefore? || k.Ever?
    ensures forall a | a in acts :: ActFits(k, a)
  {
  }
}

/** Shadow mode writes nothing. */
module Shadow {
  import opened Wrappers
  import opened Graph
  import opened Labels
  import opened Items
  import opened Apply
  import opened Watchdog
  import opened Signals
  import opened Runs
  import opened Kinds
  import opened RunKeeps
  import opened Releases

  /** With nothing enforced, no run of webhooks, alarms, signals and sweeps on
      an item with no deferred fire (a new one has none, and none ever comes to
      be) writes a label, closes, comments, fires or merges. */
  lemma ShadowWritesNothing(c: Ctx, s: Item, acts: seq<Act>)
    requires !c.mode && !Deferred(s)
    ensures Tally(Run(c, s, acts).trace, Writes) == Tally(s.trace, Writes)
    ensures !Deferred(Run(c, s, acts))
  {
    hide Run, ActFits, Tally;
    var k := Dry(Tally(s.trace, Writes));
    AnyActFits(k, acts);
    KeepRun(c, k, s, acts);
  }

  lemma {:induction false} NothingWrittenDry(c: Ctx, s: Item, ops: seq<LabelOp>)
    ensures WriteOps(c, s, false, ops) == Ret(s, ())
    decreases |ops|
  {
    if ops != [] {
      NothingWrittenDry(c, s, ops[1..]);
    }
  }

  lemma RowIsNoWrite(c: Ctx, s: Item)
    ensures Tally(Log(c, s).s.trace, Writes) == Tally(s.trace, Writes)
  {
    TallyGrows(s.trace, Row, Writes);
  }

  lemma ExpiryRuns(cl: set<Label>)
    ensures RuleFor(cl, WatchdogExpired).Some? ==>
      RuleFor(cl, WatchdogExpired).value.run.None? && RuleFor(cl, WatchdogExpired).value.on.WatchdogExpired?
  {
    hide DeriveState;
  }

  lemma ShadowRule(c: Ctx, s: Item, cl: set<Label>)
    requires !c.Enforced(WatchdogExpired)
    ensures Tally(ApplyEvent(c, s, WatchdogExpired, cl, false).s.trace, Writes) == Tally(s.trace, Writes)
  {
    hide Tally, Log, LabelOps, DeriveState, WriteOps, Decide;
    ExpiryRuns(cl);
    RowIsNoWrite(c, s);
    if RuleFor(cl, WatchdogExpired).Some? {
      var rule := RuleFor(cl, WatchdogExpired).value;
      var s1 := Marked(s, Matched(rule, PendingRun(s)));
      TallyGrows(s.trace, Matched(rule, PendingRun(s)), Writes);
      NothingWrittenDry(c, s1, LabelOps(cl, rule));
      RowIsNoWrite(c, Disarm(s1));
      var t := Log(c, Disarm(s1)).s;
      TallyGrows(t.trace, AppliedMark(rule.on, t.calls), Writes);
    }
  }

  lemma ShadowExpireWritesNothing(c: Ctx, s: Item, f: Fire)
    requires !c.Enforced(WatchdogExpired)
    ensures Tally(Expire(c, s, f).s.trace, Writes) == Tally(s.trace, Writes)
  {
    hide Tally, ApplyEvent, DeriveState;
    var g := GetLabels(c, s);
    if g.Ret? {
      ShadowRule(c, g.s, g.v);
    }
  }

  /** With only the watchdog shadowed, no expiry writes: not the alarm's, and
      not the one the routine's own "ended" signal asks for. */
  lemma ShadowExpiryWritesNothing(c: Ctx, s: Item)
    requires !c.Enforced(WatchdogExpired) && !Deferred(s)
    ensures Tally(OnAlarm(c, s).s.trace, Writes) == Tally(s.trace, Writes)
    ensures forall run :: Tally(OnSignal(c, s, EndedEarly(run)).s.trace, Writes) == Tally(s.trace, Writes)
  {
    hide Tally, Expire, Early;
    if s.pending.Some? {
      ShadowExpireWritesNothing(c, s, s.pending.value);
    }
  }
}
