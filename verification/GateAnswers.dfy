// Where two tracked labels meet: a late outcome beside ai-stuck
// (worker/src/coordinate/apply.ts), and a person's retry of a blocked merge
// (webhook.ts, reconcile.ts).

/** A late outcome on an item that reads ai-stuck beside a routine's own label. */
module LateOutcomes {
  import opened Wrappers
  import opened Graph
  import opened Labels
  import opened Items
  import opened Apply
  import opened Deliveries
  import opened Webhook
  import opened Kinds
  import opened Keeps
  import opened GateKeeps

  /** The label left beside ai-stuck is the rule's own target, or the rule only
      takes a label off. */
  predicate MeetsTarget(other: Label, rule: Rule) {
    match rule.to
    case ToLabel(to) => to == other
    case Unlabel => true
    case _ => false
  }

  /** {ai-stuck, x} and a late outcome: one label is left exactly when the
      outcome leads to x itself (the label its run swapped in), or takes
      ai-stuck off; an outcome that leads elsewhere leaves two. */
  lemma LateOutcomeLeavesOne(other: Label, e: Event)
    requires other != AiStuck && JustAdded(e).None? && Decide(At(AiStuck), e).Some?
    ensures var rule := Decide(At(AiStuck), e).value; var left := DoAll({AiStuck, other}, LabelOps({AiStuck, other}, rule));
      |left| == 1 <==> MeetsTarget(other, rule)
  {
    hide Decide, LabelOps, DoAll;
    var rule := Decide(At(AiStuck), e).value;
    var both := {AiStuck, other};
    DecisionNames(At(AiStuck), e);
    NeverStays(e);
    OpsReachAfter(both, rule);
    assert both - {AiStuck} == {other};
    assert |both| == 2;
    match rule.to
    case ToLabel(to) => assert |{other, to}| == if to == other then 1 else 2;
    case _ =>
  }

  lemma NeverStays(e: Event)
    requires Decide(At(AiStuck), e).Some?
    ensures Decide(At(AiStuck), e).value.to != ToLabel(AiStuck)
  {
  }

  lemma LateVerdict(other: Label)
    requires other != AiStuck
    ensures var cl := {AiStuck, other};
      RuleFor(cl, ReviewPassed).Some? && After(cl, RuleFor(cl, ReviewPassed).value) == {other, ReadyForReview}
      && DeriveState(cl) == Clear(At(AiStuck))
  {
    hide DeriveState, Decide;
    PairReading(AiStuck, other);
    VerdictWhenStuck();
    assert {AiStuck, other} - {AiStuck} == {other};
  }

  lemma VerdictWhenStuck()
    ensures Decide(At(AiStuck), ReviewPassed) == Some(Rule(At(AiStuck), ReviewPassed, ToLabel(ReadyForReview), None))
  {
  }

  lemma VerdictApplied(c: Ctx, s: Item, told: bool, other: Label)
    requires c.mode && NoEdits(c) && other != AiStuck && s.labels == {AiStuck, other}
    ensures var st := OnReviewPassed(c, s, s.labels, told);
      st.Ret? ==> st.v.Applied? && st.s.labels == {other, ReadyForReview}
  {
    hide ApplyEvent, RuleFor, DeriveState, NoEdits, StuckFree, After;
    LateVerdict(other);
    AppliedLabels(c, s, ReviewPassed, s.labels, told);
    AppliedMeans(c, s, ReviewPassed, s.labels, told);
  }

  lemma VerdictRouted(c: Ctx, s: Item, i: Input, other: Label)
    requires c.mode && NoEdits(c) && other != AiStuck && s.labels == {AiStuck, other}
    requires i.payload.Commented? && Translate(i.payload) == Some(ReviewPassed)
    ensures var st := ProcessEvent(c, s, i); st.Ret? ==> st.v.Applied? && st.s.labels == {other, ReadyForReview}
  {
    hide DeriveState, NoEdits, StuckFree, Translate, TakeEvent;
    BotGlances(c, s);
    VerdictTaken(c, BotLogin(c, s).s, i, other);
  }

  lemma VerdictTaken(c: Ctx, s: Item, i: Input, other: Label)
    requires c.mode && NoEdits(c) && other != AiStuck && s.labels == {AiStuck, other} && i.payload.Commented?
    ensures var st := TakeEvent(c, s, i, ReviewPassed); st.Ret? ==> st.v.Applied? && st.s.labels == {other, ReadyForReview}
  {
    hide OnReviewPassed, DeriveState, NoEdits, StuckFree, GetLabels;
    LabelsGlance(c, s);
    VerdictApplied(c, GetLabels(c, s).s, Told(i), other);
  }

  /** It does happen: a delivery that carries review_passed leaves
      ready-for-review beside whatever label was on beside ai-stuck, ai-reviewing
      for one. */
  lemma TwoLabelsLeft(c: Ctx, s: Item, i: Input, other: Label)
    requires c.mode && NoEdits(c) && other != AiStuck && s.labels == {AiStuck, other}
    requires i.payload.Commented? && Translate(i.payload) == Some(ReviewPassed) && !SecondCarrier(s, i.payload)
    requires i.id == NoId || i.id !in s.seen
    ensures var st := CoordinateWebhook(c, s, i);
      st.Ret? ==> st.v.Applied? && st.s.labels == {other, ReadyForReview} && (|st.s.labels| == 1 <==> other == ReadyForReview)
  {
    hide ProcessEvent, NoEdits, StuckFree, Translate;
    var s1 := if i.id == NoId then s else s.(seen := s.seen + {i.id});
    VerdictRouted(c, s1, i, other);
    assert |{other, ReadyForReview}| == if other == ReadyForReview then 1 else 2;
  }
}

/** auto-merging re-added to a merge-blocked PR: the two labels together are the
    retry. Every answer its label gets, and every answer of the sweep, ends with
    exactly one; CI finishing under it does so exactly when the gate fails. */
module GateAnswers {
  import opened Wrappers
  import opened Graph
  import opened Labels
  import opened Items
  import opened Apply
  import opened Gates
  import opened Deliveries
  import opened Webhook
  import opened Watchdog
  import opened Sweeping
  import opened Kinds
  import opened Keeps
  import opened GateKeeps
  import opened GateFacts
  import D = Delivering

  /** The labels of a person's retry. */
  const RETRY: set<Label> := {AutoMerging, MergeBlocked}

  /** What the gate's answer leaves on. */
  function Answered(f: Facts): Label {
    if Blocked(f) then MergeBlocked else if Softly(f) then AutoReworking else AutoMerging
  }

  /** The facts the gate reads from here settle, and one label says its answer. */
  predicate OneAnswer(c: Ctx, s: Item, t: Item) {
    SettledFacts(c, s).Ret? && t.labels == {Answered(SettledFacts(c, s).v)}
  }

  lemma RetryRules()
    ensures RuleFor(RETRY, MergeGateFailedHard) == Some(Rule(At(AutoMerging), MergeGateFailedHard, ToLabel(MergeBlocked), None))
    ensures RuleFor(RETRY, MergeGateFailedSoft)
      == Some(Rule(At(AutoMerging), MergeGateFailedSoft, ToLabel(AutoReworking), Some(ReworkLoop)))
    ensures RuleFor(RETRY, LabelledAutoMerging)
      == Some(Rule(At(MergeBlocked), LabelledAutoMerging, ToLabel(AutoMerging), Some(MergeFlow)))
  {
    hide DeriveState, Decide;
    PairReading(AutoMerging, MergeBlocked);
    assert RETRY == {MergeBlocked, AutoMerging};
    assert Before(RETRY, LabelledAutoMerging) == {MergeBlocked};
    ReadingMeans({MergeBlocked});
    RetryDecisions();
  }

  lemma RetryDecisions()
    ensures Decide(At(AutoMerging), MergeGateFailedHard)
      == Some(Rule(At(AutoMerging), MergeGateFailedHard, ToLabel(MergeBlocked), None))
    ensures Decide(At(AutoMerging), MergeGateFailedSoft)
      == Some(Rule(At(AutoMerging), MergeGateFailedSoft, ToLabel(AutoReworking), Some(ReworkLoop)))
    ensures Decide(At(MergeBlocked), LabelledAutoMerging)
      == Some(Rule(At(MergeBlocked), LabelledAutoMerging, ToLabel(AutoMerging), Some(MergeFlow)))
  {
  }

  /** Only there: auto-merging added beside any other label, a failing gate has
      no rule to answer with, and both labels stay. */
  lemma FailingGateAnswersOnlyRetries(other: Label)
    requires other != AutoMerging
    ensures RuleFor({AutoMerging, other}, MergeGateFailedHard).Some? <==> other == MergeBlocked
    ensures RuleFor({AutoMerging, other}, MergeGateFailedSoft).Some? <==> other == MergeBlocked
  {
    hide DeriveState;
    PairReading(AutoMerging, other);
    if other == MergeBlocked {
      RetryRules();
    } else {
      assert MergeBlocked !in {AutoMerging, other};
    }
  }

  lemma SaidSame(c: Ctx, s: Item, io: bool)
    requires NoEdits(c)
    ensures Comment(c, s, io).s.labels == s.labels
  {
  }

  lemma HardAnswer(c: Ctx, s: Item, told: bool)
    requires c.mode && NoEdits(c) && s.labels == RETRY
    ensures var st := BlockMerge(c, s, RETRY, MergeGateFailedHard, told);
      st.Ret? ==> st.v.Applied? && st.s.labels == {MergeBlocked}
  {
    hide ApplyEvent, Comment, RuleFor, NoEdits, StuckFree;
    var e := MergeGateFailedHard;
    RetryRules();
    AppliedLabels(c, s, e, RETRY, told);
    AppliedMeans(c, s, e, RETRY, told);
    SaidSame(c, ApplyEvent(c, s, e, RETRY, told).s, c.Enforced(e));
    assert RETRY - {AutoMerging} + {MergeBlocked} == {MergeBlocked};
  }

  /** Swapped to rework: merge-blocked comes off too. */
  lemma SoftAnswer(c: Ctx, s: Item, told: bool)
    requires c.mode && NoEdits(c) && s.labels == RETRY && Attempts(s) < c.caps.ciFixAttempts
    ensures var st := HandToRework(c, s, RETRY, told);
      st.Ret? ==> st.v.Applied? && st.s.labels == {AutoReworking}
  {
    hide ApplyEvent, Comment, RuleFor, NoEdits, StuckFree;
    var e := MergeGateFailedSoft;
    RetryRules();
    AppliedLabels(c, s, e, RETRY, told);
    AppliedMeans(c, s, e, RETRY, told);
    var st := ApplyEvent(c, s, e, RETRY, told);
    if st.Ret? {
      assert st.s.labels == {MergeBlocked, AutoReworking};
      TakenOff(c, st.s, MergeBlocked);
      var w := WriteLabel(c, st.s, true, false, MergeBlocked).s;
      SaidSame(c, PutCiFix(w, Some(CiFix(Attempts(s) + 1, true, false))), c.Enforced(e));
    }
  }

  lemma TakenOff(c: Ctx, s: Item, l: Label)
    requires NoEdits(c)
    ensures var w := WriteLabel(c, s, true, false, l); w.Ret? ==> w.s.labels == s.labels - {l}
  {
  }

  /** Past the cap the answer is the hard one. */
  lemma CappedAnswer(c: Ctx, s: Item, told: bool)
    requires c.mode && NoEdits(c) && s.labels == RETRY && Attempts(s) >= c.caps.ciFixAttempts
    ensures var st := HandToRework(c, s, RETRY, told);
      st.Ret? ==> st.v.Applied? && st.s.labels == {MergeBlocked}
  {
    hide BlockMerge, NoEdits, StuckFree;
    HardAnswer(c, s, told);
  }

  lemma PassAnswer(c: Ctx, s: Item, i: Input)
    requires c.mode && NoEdits(c) && s.labels == RETRY
    ensures var st := Plain(c, s, i, LabelledAutoMerging, RETRY, NOTHING_LATER, false);
      st.Ret? ==> st.v.Applied? && st.s.labels == {AutoMerging}
  {
    hide ApplyEvent, RuleFor, NoEdits, StuckFree, DeriveState, NoteOverride;
    var e := LabelledAutoMerging;
    RetryRules();
    AppliedLabels(c, s, e, RETRY, Told(i));
    AppliedMeans(c, s, e, RETRY, Told(i));
    assert RETRY - {MergeBlocked} + {AutoMerging} == {AutoMerging};
  }

  lemma {:induction false} SettledSame(c: Ctx, s: Item)
    requires NoEdits(c)
    ensures var u := SettledFacts(c, s).s; u.labels == s.labels && u.ciFix == s.ciFix
  {
    hide SettledFacts, NoEdits, StuckFree;
    SettledGlances(c, s);
  }

  lemma LabelAnswer(c: Ctx, s: Item, i: Input)
    requires c.mode && NoEdits(c) && s.labels == RETRY
    ensures var st := OnMergeLabel(c, s, i, RETRY);
      st.Ret? ==> st.v.Applied? && OneAnswer(c, PutCiFix(s, None), st.s)
  {
    hide SettledFacts, BlockMerge, HandToRework, Plain, NoEdits, StuckFree, HardBlock, DeriveGate, Blocked, Softly;
    var s1 := PutCiFix(s, None);
    SettledSame(c, s1);
    if SettledFacts(c, s1).Ret? {
      FactsMean(SettledFacts(c, s1).v);
    }
    var s2 := SettledFacts(c, s1).s;
    HardAnswer(c, s2, Told(i));
    FreshAttempts(c, s2);
    SoftAnswer(c, s2, Told(i));
    PassAnswer(c, s2, i);
  }

  lemma FreshAttempts(c: Ctx, s: Item)
    requires s.ciFix.None?
    ensures Attempts(s) < c.caps.ciFixAttempts
  {
  }

  /** The item once its labels have been read for a delivery's event. */
  function LabelsRead(c: Ctx, s: Item): Item {
    GetLabels(c, BotLogin(c, s).s).s
  }

  lemma RetryRouted(c: Ctx, s: Item, i: Input)
    requires NoEdits(c) && s.labels == RETRY
    requires i.payload.Labeled? && i.payload.onPr && !i.payload.own && i.payload.lane == Some(AutoMerging)
    ensures LabelsRead(c, s).labels == RETRY
    ensures ProcessEvent(c, s, i).Ret? ==> ProcessEvent(c, s, i) == OnMergeLabel(c, LabelsRead(c, s), i, RETRY)
  {
    hide OnMergeLabel, NoEdits, StuckFree, DeriveState, GetLabels, BotLogin;
    BotGlances(c, s);
    LabelsGlance(c, BotLogin(c, s).s);
  }

  /** The label path: a person re-adds auto-merging, the PR is read, and its
      delivery ends on the one label the gate's answer names. A retry starts
      with fresh CI attempts, so a soft failure is always handed to rework. */
  lemma RetryEndsWithOneLabel(c: Ctx, s: Item, i: Input)
    requires c.mode && NoEdits(c) && s.labels == RETRY && (i.id == NoId || i.id !in s.seen)
    requires i.payload.Labeled? && i.payload.onPr && !i.payload.own && i.payload.lane == Some(AutoMerging)
    ensures var st := CoordinateWebhook(c, s, i);
      st.Ret? ==> st.v.Applied? && OneAnswer(c, PutCiFix(LabelsRead(c, D.Claimed(s, i)), None), st.s)
  {
    hide ProcessEvent, CoordinateWebhook, OnMergeLabel, SettledFacts, NoEdits, StuckFree, LabelsRead, OneAnswer;
    var s0 := D.Claimed(s, i);
    OnlyProcessed(c, s, i);
    RetryRouted(c, s0, i);
    LabelAnswer(c, LabelsRead(c, s0), i);
  }

  /** A label's delivery is its event, claimed. */
  lemma OnlyProcessed(c: Ctx, s: Item, i: Input)
    requires i.payload.Labeled? && (i.id == NoId || i.id !in s.seen)
    ensures var st := CoordinateWebhook(c, s, i); var e := ProcessEvent(c, D.Claimed(s, i), i);
      (st.Ret? <==> e.Ret?) && (st.Ret? ==> st == e)
  {
    hide ProcessEvent;
  }

  lemma SweptAnswer(c: Ctx, s: Item, run: Routine)
    requires c.mode && NoEdits(c) && s.labels == RETRY
    ensures var st := SweepMerge(c, s, RETRY, run);
      st.Ret? ==> st.v.Gated? && st.v.result.Applied? && OneAnswer(c, PutCiFix(s, None), st.s)
  {
    hide SettledFacts, BlockMerge, HandToRework, RetryMerge, NoEdits, StuckFree, HardBlock, DeriveGate, Blocked, Softly;
    var s1 := PutCiFix(s, None);
    SettledSame(c, s1);
    if SettledFacts(c, s1).Ret? {
      FactsMean(SettledFacts(c, s1).v);
    }
    var s2 := SettledFacts(c, s1).s;
    HardAnswer(c, s2, false);
    FreshAttempts(c, s2);
    SoftAnswer(c, s2, false);
    SweptPass(c, s2);
  }

  lemma ReadSame(c: Ctx, s: Item)
    requires NoEdits(c)
    ensures Read(c, s).s.labels == s.labels && GetLabels(c, s).s.labels == s.labels
    ensures GetLabels(c, s).Ret? ==> GetLabels(c, s).v == s.labels
  {
  }

  lemma ReportSame(c: Ctx, s: Item, last: Option<int>)
    requires NoEdits(c)
    ensures var st := ReportLeft(c, s, last); st.s.labels == s.labels && (st.Ret? ==> !st.v.Gated? && !st.v.Refired?)
  {
  }

  lemma SweptRun(merged: bool)
    ensures SweepRun(RETRY, merged) == Some(MergeFlow)
  {
    hide DeriveState;
    PassedRule();
  }

  /** What the sweep's answer leaves of a retry, read from `u` on. */
  predicate SweptTo(c: Ctx, u: Item, st: Step<Swept>) {
    st.Ret? ==>
      if st.v.Gated? then st.v.result.Applied? && OneAnswer(c, PutCiFix(u, None), st.s)
      else st.s.labels == RETRY && !st.v.Refired?
  }

  lemma IdleAnswer(c: Ctx, u: Item, enforced: bool, budget: bool, last: Option<int>)
    requires c.mode && NoEdits(c) && u.labels == RETRY
    ensures SweptTo(c, u, SweepIdle(c, u, RETRY, MergeFlow, enforced, budget, last))
  {
    hide SweepMerge, ReportLeft, NoEdits, StuckFree, DeriveState, OneAnswer, ReviewGate, Refire;
    PassedRule();
    SweptAnswer(c, u, MergeFlow);
    ReportSame(c, u, last);
  }

  /** The same retry, its delivery lost: the sweep leaves it as it is, or ends it
      on the one label. */
  lemma SweptRetryEndsWithOneLabel(c: Ctx, s: Item, enforced: bool, budget: bool, at: Option<int>)
    requires c.mode && NoEdits(c) && s.labels == RETRY
    ensures SweptTo(c, Read(c, GetLabels(c, s).s).s, Reconcile(c, s, enforced, budget, at))
  {
    hide SweepIdle, Read, GetLabels, NoEdits, StuckFree, Watched, OneAnswer, SweepRun, Latest, IdleTenths;
    SweptRun(GetLabels(c, s).s.releaseMerged.Some?);
    ReadSame(c, s);
    var g := GetLabels(c, s).s;
    ReadSame(c, g);
    if Read(c, g).Ret? {
      IdleAnswer(c, Read(c, g).s, enforced, budget, Latest(Read(c, g).v.at, at));
    }
  }

  lemma SweptPass(c: Ctx, s: Item)
    requires c.mode && NoEdits(c) && s.labels == RETRY
    ensures var st := RetryMerge(c, s, RETRY); st.Ret? ==> st.v.Applied? && st.s.labels == {AutoMerging}
  {
    hide ApplyEvent, RuleFor, NoEdits, StuckFree, Log;
    var e := LabelledAutoMerging;
    RetryRules();
    AppliedLabels(c, s, e, RETRY, false);
    AppliedMeans(c, s, e, RETRY, false);
    assert RETRY - {MergeBlocked} + {AutoMerging} == {AutoMerging};
    LogLabels(c, ApplyEvent(c, s, e, RETRY, false).s);
  }

  // --- CI finishing under a retry ---

  lemma PassedRule()
    ensures RuleFor(RETRY, MergeGatePassed) == Some(Rule(At(AutoMerging), MergeGatePassed, Noop, Some(MergeFlow)))
    ensures RuleFor(RETRY, WatchdogExpired) == Some(Rule(At(AutoMerging), WatchdogExpired, ToLabel(AiStuck), None))
    ensures DeriveState(RETRY) == Clear(At(AutoMerging))
  {
    hide DeriveState, Decide;
    PairReading(AutoMerging, MergeBlocked);
    assert RETRY == {MergeBlocked, AutoMerging};
    PassedDecisions();
  }

  lemma PassedDecisions()
    ensures Decide(At(AutoMerging), MergeGatePassed) == Some(Rule(At(AutoMerging), MergeGatePassed, Noop, Some(MergeFlow)))
    ensures Decide(At(AutoMerging), WatchdogExpired) == Some(Rule(At(AutoMerging), WatchdogExpired, ToLabel(AiStuck), None))
  {
  }

  lemma GreenAnswer(c: Ctx, s: Item, told: bool)
    requires c.mode && NoEdits(c) && s.labels == RETRY
    ensures var st := ApplyEvent(c, s, MergeGatePassed, RETRY, told);
      st.Ret? ==> st.v.Applied? && st.s.labels == RETRY
  {
    hide ApplyEvent, RuleFor, NoEdits, StuckFree;
    PassedRule();
    AppliedLabels(c, s, MergeGatePassed, RETRY, told);
    AppliedMeans(c, s, MergeGatePassed, RETRY, told);
  }

  lemma FailedAnswer(c: Ctx, s: Item, told: bool)
    requires c.mode && NoEdits(c) && s.labels == RETRY
    ensures var st := HandToRework(c, s, RETRY, told);
      var left := if Attempts(s) < c.caps.ciFixAttempts then AutoReworking else MergeBlocked;
      st.Ret? ==> st.v.Applied? && st.s.labels == {left}
  {
    hide HandToRework, NoEdits, StuckFree;
    if Attempts(s) < c.caps.ciFixAttempts {
      SoftAnswer(c, s, told);
    } else {
      CappedAnswer(c, s, told);
    }
  }

  /** What finished CI leaves on: a passing gate has nothing to swap. */
  function Finished(c: Ctx, s: Item, f: Facts): set<Label> {
    if Blocked(f) then {MergeBlocked}
    else if !AnyRed(f) then RETRY
    else {if Attempts(s) < c.caps.ciFixAttempts then AutoReworking else MergeBlocked}
  }

  /** CI finishes under a retry whose own label was never handled (its delivery
      failed on the facts, say). An answer leaves one label exactly when the
      settled facts are a hard block or a failed check. */
  lemma ChecksAnswer(c: Ctx, s: Item, told: bool)
    requires c.mode && NoEdits(c) && s.labels == RETRY
    ensures var st := OnMergeChecks(c, s, RETRY, told);
      st.Ret? && st.v.Applied? ==>
        var f := SettledFacts(c, s).v;
        && st.s.labels == Finished(c, s, f)
        && (|st.s.labels| == 1 <==> Blocked(f) || AnyRed(f))
  {
    hide SettledFacts, BlockMerge, HandToRework, ApplyEvent, NoEdits, StuckFree, HardBlock, AnyFailed, AnyUnfinished, Blocked, AnyRed;
    SettledSame(c, s);
    if SettledFacts(c, s).Ret? {
      FactsMean(SettledFacts(c, s).v);
    }
    var s1 := SettledFacts(c, s).s;
    HardAnswer(c, s1, told);
    FailedAnswer(c, s1, told);
    GreenAnswer(c, s1, told);
    assert |RETRY| == 2;
  }

  /** The head commit's checks are all green, nothing else blocks, and merge-flow
      was not yet fired for it. */
  predicate NewlyGreen(s: Item, f: Facts) {
    && f.checks != [] && AllGreen(f) && !Blocked(f)
    && f.headSha.Some? && f.headSha != s.mergeFiredFor
  }

  lemma SuiteRouted(c: Ctx, s: Item, told: bool)
    requires NoEdits(c) && s.labels == RETRY && GetLabels(c, s).Ret?
    ensures var g := GetLabels(c, s).s;
      g.labels == RETRY && g.mergeFiredFor == s.mergeFiredFor
      && OnCheckSuite(c, s, true, told) == OnMergeChecks(c, g, RETRY, told)
  {
    hide OnMergeChecks, DeriveState, NoEdits, StuckFree;
    PassedRule();
    LabelsGlance(c, s);
  }

  lemma SettledFiredFor(c: Ctx, s: Item)
    ensures SettledFacts(c, s).s.mergeFiredFor == s.mergeFiredFor
  {
    hide SettledFacts, NoEdits, StuckFree;
    SettledGlances(c, s);
  }

  /** So the delivery of a green suite there leaves both labels on. */
  lemma GreenSuiteKeepsBoth(c: Ctx, s: Item, i: Input)
    requires c.mode && NoEdits(c) && s.labels == RETRY
    requires i.payload == CheckSuite(true) && (i.id == NoId || i.id !in s.seen)
    requires var g := GetLabels(c, D.Claimed(s, i)); g.Ret? && SettledFacts(c, g.s).Ret? && NewlyGreen(s, SettledFacts(c, g.s).v)
    ensures var st := CoordinateWebhook(c, s, i);
      st.Ret? ==> st.v == Applied(Rule(At(AutoMerging), MergeGatePassed, Noop, Some(MergeFlow))) && st.s.labels == RETRY
  {
    hide OnCheckSuite, GetLabels, SettledFacts, ApplyEvent, NoEdits, StuckFree, AnyUnfinished, AnyFailed, HardBlock, RuleFor, Blocked, AllGreen;
    var s0 := D.Claimed(s, i);
    SuiteRouted(c, s0, Told(i));
    var g := GetLabels(c, s0).s;
    SettledSame(c, g);
    SettledFiredFor(c, g);
    FactsMean(SettledFacts(c, g).v);
    var s1 := SettledFacts(c, g).s;
    PassedRule();
    GreenAnswer(c, s1, Told(i));
    AppliedMeans(c, s1, MergeGatePassed, RETRY, Told(i));
    assert ProcessEvent(c, s0, i) == OnCheckSuite(c, s0, true, Told(i));
  }

  /** And when that run expires, the pair becomes another. */
  lemma ExpiryLeavesTwo(c: Ctx, s: Item, f: Fire)
    requires c.Enforced(WatchdogExpired) && NoEdits(c) && s.labels == RETRY
    ensures var st := Expire(c, s, f); st.Ret? ==> st.v.Applied? && st.s.labels == {MergeBlocked, AiStuck}
  {
    hide ApplyEvent, RuleFor, NoEdits, StuckFree, Say, DeriveState;
    PassedRule();
    LabelsGlance(c, s);
    var g := GetLabels(c, s).s;
    SayReturns(c, g, true, CommentWrite(true));
    var s3 := PutExpired(Say(c, g, true, CommentWrite(true)).s, f.run == ReworkLoop);
    AppliedLabels(c, s3, WatchdogExpired, RETRY, false);
    AppliedMeans(c, s3, WatchdogExpired, RETRY, false);
    assert RETRY - {AutoMerging} + {AiStuck} == {MergeBlocked, AiStuck};
  }
}
