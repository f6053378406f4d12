// What the gates decide, from the facts GitHub gives
// (graph/github/merge-gate.ts, worker/src/coordinate/merge-gate.ts,
// review-gate.ts, webhook.ts).

/** The facts' own words. */
module GateFacts {
  import opened Wrappers
  import opened Items
  import opened Gates

  /** A check that ended badly, or with nothing to say for itself. */
  predicate Red(k: Check) {
    k.status == Completed && k.conclusion in {Failure, Cancelled, TimedOut, ActionRequired, NotConcluded}
  }

  predicate Green(k: Check) {
    k.status == Completed && k.conclusion in {Success, Neutral, Skipped}
  }

  predicate AnyRed(f: Facts) {
    exists k | k in f.checks :: Red(k)
  }

  predicate AllGreen(f: Facts) {
    forall k | k in f.checks :: Green(k)
  }

  predicate Unfinished(f: Facts) {
    exists k | k in f.checks :: k.status == Queued || k.status == InProgress
  }

  /** What needs a person: a conflict, or changes a reviewer asked for. */
  predicate Blocked(f: Facts) {
    f.mergeable == Some(false) || f.changesRequested
  }

  /** Red without anything that needs a person: a check failed, every check is
      in, and the PR is known to merge. */
  predicate Softly(f: Facts) {
    !Unfinished(f) && f.mergeable.Some? && !Blocked(f) && AnyRed(f)
  }

  /** The gate's own predicates, in those words. */
  lemma FactsMean(f: Facts)
    ensures HardBlock(f) <==> Blocked(f)
    ensures AnyUnfinished(f) <==> Unfinished(f)
    ensures AnyFailed(f) <==> AnyRed(f)
    ensures AllGreen(f) <==> !Unfinished(f) && !AnyRed(f)
    ensures DeriveGate(f) == Soft <==> Softly(f)
  {
    CheckMeans(f);
    assert f.mergeable.Some? ==> f.mergeable == Some(f.mergeable.value);
    if AnyFailed(f) {
      var k :| k in f.checks && k.status == Completed && !NonFailing(k.conclusion);
      Judged(k);
      assert Red(k);
    }
    if AnyRed(f) {
      var k :| k in f.checks && Red(k);
      Judged(k);
      assert !NonFailing(k.conclusion);
    }
    if !Unfinished(f) && exists k | k in f.checks :: !NonFailing(k.conclusion) {
      var k :| k in f.checks && !NonFailing(k.conclusion);
      Judged(k);
      assert k.status == Completed && Red(k);
    }
  }

  lemma CheckMeans(f: Facts)
    ensures forall k | k in f.checks :: Green(k) || Red(k) || k.status == Queued || k.status == InProgress
    ensures forall k | k in f.checks :: k.status == Completed ==> (Green(k) <==> NonFailing(k.conclusion))
  {
    forall k | k in f.checks
      ensures Green(k) || Red(k) || k.status == Queued || k.status == InProgress
      ensures k.status == Completed ==> (Green(k) <==> NonFailing(k.conclusion))
    {
      Judged(k);
    }
  }

  lemma Judged(k: Check)
    ensures match k.status
      case Completed => Green(k) || Red(k)
      case _ => !Green(k) && !Red(k)
    ensures k.status == Completed ==> (Green(k) <==> NonFailing(k.conclusion)) && (Red(k) <==> !NonFailing(k.conclusion))
  {
    match k.conclusion {
      case Success =>
      case Neutral =>
      case Skipped =>
      case _ => assert !NonFailing(k.conclusion);
    }
  }

  /** The facts a gate goes by: of up to three readings the first with
      `mergeable` known, or the third. */
  function Settled(c: Ctx, from: nat): Facts {
    if c.world(from).facts.mergeable.Some? then c.world(from).facts
    else if c.world(from + 1).facts.mergeable.Some? then c.world(from + 1).facts
    else c.world(from + 2).facts
  }

  lemma SettledMeans(c: Ctx, s: Item)
    ensures SettledFacts(c, s).Ret? ==> SettledFacts(c, s).v == Settled(c, s.calls)
  {
    var r := Read(c, s);
    if r.Ret? && r.v.facts.mergeable.None? {
      var r1 := Read(c, r.s);
      if r1.Ret? && r1.v.facts.mergeable.None? {
        var r2 := Read(c, r1.s);
        assert SettleMore(c, r1.s, r1.v.facts, 1) == if r2.Ret? then SettleMore(c, r2.s, r2.v.facts, 0) else Thr(r2.s);
      }
      assert SettleMore(c, r.s, r.v.facts, 2) == if r1.Ret? then SettleMore(c, r1.s, r1.v.facts, 1) else Thr(r1.s);
    }
  }
}

/** What the gates' verdicts do to the PR. */
module Gatekeeping {
  import opened Wrappers
  import opened Graph
  import opened Labels
  import opened Items
  import opened Apply
  import opened Gates
  import opened Deliveries
  import opened Webhook
  import opened Kinds
  import opened GateKeeps
  import opened Fires
  import opened Delivering
  import opened Steps
  import opened GateFacts
  import opened Triggers

  // --- the hand-outs ---

  /** The counter of CI fixes has room for one more. */
  predicate Room(c: Ctx, attempts: nat) {
    attempts < c.caps.ciFixAttempts
  }

  /** To merge-blocked for a person, and said why; nothing fired or pending. */
  predicate Blocks(c: Ctx, s: Item, st: Step<Result>) {
    Moves(c, s, st, {MergeBlocked}, None) && Spoke(st)
  }

  /** A failed check under auto-merging: rework, counted and due back there; or,
      past the cap, merge-blocked and nothing fired. */
  predicate MergeFix(c: Ctx, s: Item, st: Step<Result>, attempts: nat) {
    if Room(c, attempts) then
      && Moves(c, s, st, {AutoReworking}, Some(ReworkLoop)) && Spoke(st)
      && (st.Ret? ==> AddressOf(st.s) == Some(AutoMerging) && Attempts(st.s) == attempts + 1)
    else Blocks(c, s, st)
  }

  /** One in the review: rework, counted and due back at the review; or ai-stuck. */
  predicate ReviewFix(c: Ctx, s: Item, st: Step<Result>, attempts: nat) {
    if Room(c, attempts) then
      && Moves(c, s, st, {AutoReworking}, Some(ReworkLoop)) && Spoke(st)
      && (st.Ret? ==> AddressOf(st.s) == Some(AiReviewing) && Attempts(st.s) == attempts + 1)
    else Moves(c, s, st, {AiStuck}, None) && Spoke(st)
  }

  lemma RuleAlone(l: Label, e: Event)
    requires JustAdded(e).None?
    ensures RuleFor({l}, e) == Decide(At(l), e) && DeriveState({l}) == Clear(At(l))
  {
    hide DeriveState, Decide;
    ReadingMeans({l});
    assert Before({l}, e) == {l};
  }

  lemma MergingRules()
    ensures RuleFor({AutoMerging}, MergeGateFailedSoft)
      == Some(Rule(At(AutoMerging), MergeGateFailedSoft, ToLabel(AutoReworking), Some(ReworkLoop)))
    ensures RuleFor({AutoMerging}, MergeGateFailedHard)
      == Some(Rule(At(AutoMerging), MergeGateFailedHard, ToLabel(MergeBlocked), None))
    ensures RuleFor({AutoMerging}, MergeGatePassed) == Some(Rule(At(AutoMerging), MergeGatePassed, Noop, Some(MergeFlow)))
    ensures DeriveState({AutoMerging}) == Clear(At(AutoMerging))
  {
    hide DeriveState, RuleFor;
    RuleAlone(AutoMerging, MergeGateFailedSoft);
    RuleAlone(AutoMerging, MergeGateFailedHard);
    RuleAlone(AutoMerging, MergeGatePassed);
  }

  lemma ReviewingRules()
    ensures RuleFor({AiReviewing}, ReviewCiFailed)
      == Some(Rule(At(AiReviewing), ReviewCiFailed, ToLabel(AutoReworking), Some(ReworkLoop)))
    ensures RuleFor({AiReviewing}, ReviewCiPassed) == Some(Rule(At(AiReviewing), ReviewCiPassed, Noop, Some(ReviewLoop)))
    ensures RuleFor({AiReviewing}, ReviewFindings)
      == Some(Rule(At(AiReviewing), ReviewFindings, ToLabel(AutoReworking), Some(ReworkLoop)))
    ensures DeriveState({AiReviewing}) == Clear(At(AiReviewing))
  {
    hide DeriveState, RuleFor;
    RuleAlone(AiReviewing, ReviewCiFailed);
    RuleAlone(AiReviewing, ReviewCiPassed);
    RuleAlone(AiReviewing, ReviewFindings);
  }

  lemma Swapped(from: Label, rule: Rule)
    requires rule.from == At(from)
    ensures rule.to.ToLabel? ==> After({from}, rule) == {rule.to.value}
    ensures rule.to.Noop? ==> After({from}, rule) == {from}
  {
  }

  /** What follows an applied hand-out: its count written, its comment tried. */
  lemma CountedOut(c: Ctx, s: Item, st: Step<Result>, t: Item, io: bool, to: set<Label>, run: Option<Routine>)
    requires NoEdits(c) && Moves(c, s, st, to, run) && st.Ret? && Rests(st.s, t)
    ensures var k := Comment(c, t, io);
      && Moves(c, s, if k.Ret? then Ret(k.s, st.v) else Thr(k.s), to, run)
      && k.s.ciFix == t.ciFix && k.s.rounds == t.rounds && (io ==> Spoke(if k.Ret? then Ret(k.s, st.v) else Thr(k.s)))
  {
    hide Say, NoEdits, StuckFree, Fired, Moves, Framed, Spoke;
    SaidLast(c, t, st.v);
    SayRests(c, t, io, CommentWrite(false));
    SaysCount(c, t, io, CommentWrite(false));
    var k := Comment(c, t, io);
    RestsOn(st.s, t, k.s);
    Moved(c, s, st);
    Itself(s);
    MovesOn(c, s, s, st, if k.Ret? then Ret(k.s, st.v) else Thr(k.s), to, run);
  }

  lemma HandsToRework(c: Ctx, s: Item, told: bool)
    requires c.mode && NoEdits(c) && s.labels == {AutoMerging}
    ensures MergeFix(c, s, HandToRework(c, s, s.labels, told), Attempts(s))
  {
    hide ApplyEvent, RuleFor, NoEdits, StuckFree, After, Fired, Framed, Moves, Comment, BlockMerge;
    MergingRules();
    if Room(c, Attempts(s)) {
      var e := MergeGateFailedSoft;
      EventMoves(c, s, e, told);
      Swapped(AutoMerging, RuleFor(s.labels, e).value);
      var st := ApplyEvent(c, s, e, s.labels, told);
      Moved(c, s, st);
      if st.Ret? {
        assert WriteLabel(c, st.s, false, false, MergeBlocked) == Ret(st.s, ());
        var t := PutCiFix(st.s, Some(CiFix(Attempts(s) + 1, true, false)));
        UnfiredItself(st.s);
        CountedOut(c, s, st, t, c.Enforced(e), {AutoReworking}, Some(ReworkLoop));
      }
    } else {
      BlockMoves(c, s, MergeGateFailedHard, told);
      Swapped(AutoMerging, RuleFor(s.labels, MergeGateFailedHard).value);
    }
  }

  lemma HandsReviewToRework(c: Ctx, s: Item, told: bool)
    requires c.mode && NoEdits(c) && s.labels == {AiReviewing}
    ensures ReviewFix(c, s, HandReviewToRework(c, s, s.labels, told), Attempts(s))
  {
    hide ApplyEvent, RuleFor, NoEdits, StuckFree, After, Fired, Framed, Moves, Comment, CapRework;
    ReviewingRules();
    if Room(c, Attempts(s)) {
      var e := ReviewCiFailed;
      EventMoves(c, s, e, told);
      Swapped(AiReviewing, RuleFor(s.labels, e).value);
      var st := ApplyEvent(c, s, e, s.labels, told);
      Moved(c, s, st);
      if st.Ret? {
        var t := PutCiFix(st.s, Some(CiFix(Attempts(s) + 1, true, true)));
        UnfiredItself(st.s);
        CountedOut(c, s, st, t, c.Enforced(e), {AutoReworking}, Some(ReworkLoop));
      }
    } else {
      CapMoves(c, s, told, AiReviewing);
    }
  }

  /** The review's findings: a counted round, or ai-stuck past the cap. */
  predicate Round(c: Ctx, s: Item, st: Step<Result>) {
    if BotRounds(s) < c.caps.botReviewReworks then
      && Moves(c, s, st, {AutoReworking}, Some(ReworkLoop)) && Spoke(st)
      && (st.Ret? ==> st.s.rounds == Some(Rounds(BotRounds(s) + 1, true)))
    else Moves(c, s, st, {AiStuck}, None) && Spoke(st)
  }

  lemma TakesFindings(c: Ctx, s: Item, told: bool)
    requires c.mode && NoEdits(c) && s.labels == {AiReviewing}
    ensures Round(c, s, TakeFindings(c, s, s.labels, told))
  {
    hide ApplyEvent, RuleFor, NoEdits, StuckFree, After, Fired, Framed, Moves, Comment, CapRework;
    ReviewingRules();
    if BotRounds(s) < c.caps.botReviewReworks {
      var e := ReviewFindings;
      EventMoves(c, s, e, told);
      Swapped(AiReviewing, RuleFor(s.labels, e).value);
      var st := ApplyEvent(c, s, e, s.labels, told);
      Moved(c, s, st);
      if st.Ret? {
        var t := PutRounds(st.s, Some(Rounds(BotRounds(s) + 1, true)));
        UnfiredItself(st.s);
        CountedOut(c, s, st, t, c.Enforced(e), {AutoReworking}, Some(ReworkLoop));
      }
    } else {
      CapMoves(c, s, told, AiReviewing);
    }
  }

  // --- CI has finished ---

  /** CI finished under auto-merging, alone: nothing while checks run;
      merge-blocked where it is blocked; the fix where a check is red; and
      merge-flow, once a head commit, where every check is green. */
  predicate SuiteDecides(c: Ctx, s: Item, st: Step<Result>, f: Facts) {
    if Unfinished(f) then Stands(s, st)
    else if Blocked(f) then Blocks(c, s, st)
    else if AnyRed(f) then MergeFix(c, s, st, Attempts(s))
    else if f.checks != [] && f.headSha.Some? && f.headSha != s.mergeFiredFor then
      Moves(c, s, st, {AutoMerging}, Some(MergeFlow)) && (st.Ret? ==> st.s.mergeFiredFor == f.headSha)
    else Stands(s, st)
  }

  lemma SettledCalm(c: Ctx, s: Item)
    requires NoEdits(c)
    ensures Calm(s, SettledFacts(c, s).s)
  {
    hide SettledFacts, NoEdits, StuckFree;
    SettledGlances(c, s);
    GlancedCalm(c, s, SettledFacts(c, s).s);
  }

  lemma ChecksDecide(c: Ctx, s: Item, told: bool)
    requires c.mode && NoEdits(c) && s.labels == {AutoMerging}
    ensures var st := OnMergeChecks(c, s, s.labels, told);
      SuiteDecides(c, s, st, Settled(c, s.calls)) || (st.Thr? && Stands(s, st))
  {
    hide SettledFacts, Settled, BlockMerge, HandToRework, ApplyEvent, RuleFor, NoEdits, StuckFree, Fired, Moves, Framed, After,
      HardBlock, Blocked, AnyUnfinished, Unfinished, AnyFailed, AnyRed;
    SettledCalm(c, s);
    SettledMeans(c, s);
    var x := SettledFacts(c, s);
    CalmCounts(s, x.s);
    if x.Ret? {
      var f := x.v;
      var st := OnMergeChecks(c, s, s.labels, told);
      FactsMean(f);
      MergingRules();
      if !Unfinished(f) && Blocked(f) {
        BlockMoves(c, x.s, MergeGateFailedHard, told);
        Swapped(AutoMerging, RuleFor(s.labels, MergeGateFailedHard).value);
      } else if !Unfinished(f) && AnyRed(f) {
        HandsToRework(c, x.s, told);
      } else if !Unfinished(f) {
        var a := ApplyEvent(c, x.s, MergeGatePassed, s.labels, told);
        EventMoves(c, x.s, MergeGatePassed, told);
        Swapped(AutoMerging, RuleFor(s.labels, MergeGatePassed).value);
        Moved(c, x.s, a);
        UnfiredItself(a.s);
        Itself(x.s);
        FiredFor(c, x.s, a, f.headSha);
      }
      CheckedFrom(c, s, x.s, st, st, f);
    }
  }

  lemma FiredFor(c: Ctx, s: Item, st: Step<Result>, sha: Option<Sha>)
    requires Moves(c, s, st, {AutoMerging}, Some(MergeFlow))
    ensures st.Ret? ==> Moves(c, s, Ret(st.s.(mergeFiredFor := sha), st.v), {AutoMerging}, Some(MergeFlow))
  {
    hide Fired, Moves;
    if st.Ret? {
      Moved(c, s, st);
      MovesOn(c, s, s, st, Ret(st.s.(mergeFiredFor := sha), st.v), {AutoMerging}, Some(MergeFlow));
    }
  }

  lemma CheckedFrom(c: Ctx, s: Item, u: Item, st1: Step<Result>, st: Step<Result>, f: Facts)
    requires Unfired(s, u) && Rests(s, u) && Counters(s, u) && SuiteDecides(c, u, st1, f) && Same(st1, st)
    ensures SuiteDecides(c, s, st, f)
  {
    hide Fired, Moves, Stands, Rests, Unfinished, Blocked, AnyRed;
    UnfiredSays(s, u);
    Lifts(c, s, u, st1, st);
  }

  lemma SuiteEvent(c: Ctx, s: Item, i: Input)
    requires i.payload == CheckSuite(true)
    ensures ProcessEvent(c, s, i) ==
      var g := GetLabels(c, s);
      if g.Thr? then Thr(g.s)
      else if DeriveState(g.v) == Clear(At(AiReviewing)) then ReviewGate(c, g.s, g.v, Told(i))
      else if AutoMerging !in g.v then Ret(g.s, NoEvent)
      else OnMergeChecks(c, g.s, g.v, Told(i))
  {
    hide GetLabels, ReviewGate, OnMergeChecks, DeriveState;
  }

  lemma LabelsCalm(c: Ctx, s: Item)
    requires NoEdits(c)
    ensures var g := GetLabels(c, s); Calm(s, g.s) && g.s.calls == s.calls + 1 && (g.Ret? ==> g.v == s.labels)
  {
    hide NoEdits, StuckFree, GetLabels;
    LabelsGlance(c, s);
    GlancedCalm(c, s, GetLabels(c, s).s);
    OneCall(c, s);
  }

  lemma OneCall(c: Ctx, s: Item)
    ensures GetLabels(c, s).s.calls == s.calls + 1 && Read(c, s).s.calls == s.calls + 1
  {
  }

  /** CI finishes on a PR that carries auto-merging alone: its delivery does what
      the settled facts decide, unless a reading of them fails. */
  lemma CiDecidesTheMerge(c: Ctx, s: Item, i: Input)
    requires c.mode && NoEdits(c) && s.labels == {AutoMerging} && i.payload == CheckSuite(true) && Unhandled(s, i)
    ensures var st := CoordinateWebhook(c, s, i);
      SuiteDecides(c, s, st, Settled(c, s.calls + 1)) || (st.Thr? && Stands(s, st))
  {
    hide GetLabels, OnMergeChecks, ReviewGate, ProcessEvent, CoordinateWebhook, NoEdits, StuckFree, DeriveState, SuiteDecides, Settled, Fired,
      Moves, Unhandled;
    var s0 := Claimed(s, i);
    Wraps(c, s, i);
    SuiteEvent(c, s0, i);
    LabelsCalm(c, s0);
    MergingRules();
    var g := GetLabels(c, s0);
    var st1 := ProcessEvent(c, s0, i);
    var st := CoordinateWebhook(c, s, i);
    ClaimedUnfired(s, i, g.s);
    SameCounters(s, i, g.s);
    UnfiredSays(s, g.s);
    if g.Ret? {
      ChecksDecide(c, g.s, Told(i));
      Lifts(c, s, g.s, st1, st);
      if SuiteDecides(c, g.s, st1, Settled(c, s.calls + 1)) {
        CheckedFrom(c, s, g.s, st1, st, Settled(c, s.calls + 1));
      }
    } else {
      ThrownStands(s, i, g.s, st1, st);
    }
  }

  lemma ThrownStands(s: Item, i: Input, u: Item, st1: Step<Result>, st: Step<Result>)
    requires Calm(Claimed(s, i), u) && st1 == Thr(u) && Same(st1, st)
    ensures Stands(s, st)
  {
  }

  /** So a red or unfinished check never has merge-flow fired, nor a conflict, nor
      changes asked for: finished CI fires it only with every check green. */
  lemma OnlyGreenMerges(c: Ctx, s: Item, i: Input)
    requires c.mode && NoEdits(c) && s.labels == {AutoMerging} && i.payload == CheckSuite(true) && Unhandled(s, i)
    requires FiredOnce(s, CoordinateWebhook(c, s, i).s, MergeFlow)
    ensures var f := Settled(c, s.calls + 1); f.checks != [] && AllGreen(f) && !Blocked(f)
  {
    hide CoordinateWebhook, NoEdits, StuckFree, Unhandled, Settled, Fired, AnyRed, AllGreen, Unfinished, Blocked;
    CiDecidesTheMerge(c, s, i);
    FactsMean(Settled(c, s.calls + 1));
    var t := CoordinateWebhook(c, s, i).s;
    OneRun(s, t, MergeFlow, ReworkLoop);
    SomethingFired(s, t, MergeFlow);
  }

  lemma OneRun(s: Item, t: Item, run: Routine, other: Routine)
    requires FiredOnce(s, t, run) && run != other
    ensures !FiredOnce(s, t, other)
  {
    hide Fired;
    assert Fired(t.trace)[|Fired(s.trace)|].run == run;
  }

  lemma SomethingFired(s: Item, t: Item, run: Routine)
    requires FiredOnce(s, t, run)
    ensures !NoneFired(s, t)
  {
    hide Fired;
    assert |Fired(t.trace)| == |Fired(s.trace)| + 1;
  }

  // --- auto-merging is added ---

  predicate MergeLabel(p: Payload) {
    p.Labeled? && p.onPr && !p.own && p.lane == Some(AutoMerging)
  }

  /** Beside auto-merging: nothing, a block a person retries, or a label whose
      failing gate the table has no rule for. */
  predicate MergingFrom(labels: set<Label>) {
    labels in {{AutoMerging}, {MergeBlocked, AutoMerging}, {ReadyForReview, AutoMerging}, {AiStuck, AutoMerging}}
  }

  /** What the label's gate decides: a blocked PR goes to merge-blocked, a softly
      red one to rework (a person's retry with a fresh count), any other has
      merge-flow fired and carries auto-merging alone. From ready-for-review and
      from ai-stuck a failing gate moves nothing. */
  predicate LabelDecides(c: Ctx, s: Item, st: Step<Result>, f: Facts) {
    var retry := MergeBlocked in s.labels;
    if Blocked(f) || Softly(f) then
      if s.labels != {AutoMerging} && !retry then Stands(s, st)
      else if Blocked(f) then Blocks(c, s, st)
      else if retry then MergeRetry(c, s, st)
      else MergeFix(c, s, st, Attempts(s))
    else Moves(c, s, st, {AutoMerging}, Some(MergeFlow))
  }

  /** A retry's hand-out, once it returns: merge-blocked is off as well. */
  predicate MergeRetry(c: Ctx, s: Item, st: Step<Result>) {
    && Moves(c, s, st, {AutoReworking}, Some(ReworkLoop)) && Spoke(st)
    && (st.Ret? ==> AddressOf(st.s) == Some(AutoMerging) && Attempts(st.s) == 1)
  }

  lemma RetryReads()
    ensures DeriveState({MergeBlocked, AutoMerging}) == Clear(At(AutoMerging))
    ensures RuleFor({MergeBlocked, AutoMerging}, MergeGateFailedSoft)
      == Some(Rule(At(AutoMerging), MergeGateFailedSoft, ToLabel(AutoReworking), Some(ReworkLoop)))
    ensures RuleFor({MergeBlocked, AutoMerging}, MergeGateFailedHard)
      == Some(Rule(At(AutoMerging), MergeGateFailedHard, ToLabel(MergeBlocked), None))
  {
    hide DeriveState;
    PairReading(MergeBlocked, AutoMerging);
  }

  lemma FailingRules(other: Label)
    requires other in {ReadyForReview, AiStuck}
    ensures RuleFor({other, AutoMerging}, MergeGateFailedHard).None? && RuleFor({other, AutoMerging}, MergeGateFailedSoft).None?
  {
    hide DeriveState;
    PairReading(other, AutoMerging);
    assert {other, AutoMerging} != {MergeBlocked, AutoMerging} by {
      assert MergeBlocked !in {other, AutoMerging};
    }
  }

  lemma PassingRule(labels: set<Label>)
    requires MergingFrom(labels)
    ensures var found := RuleFor(labels, LabelledAutoMerging);
      found.Some? && found.value.run == Some(MergeFlow) && After(labels, found.value) == {AutoMerging}
  {
    hide DeriveState, Decide;
    var e := LabelledAutoMerging;
    PassingDecision();
    if labels == {AutoMerging} {
      AddedAlone(AutoMerging, e);
      assert After(labels, Decide(Untracked, e).value) == {AutoMerging};
    } else if MergeBlocked in labels {
      AddedBeside(MergeBlocked, AutoMerging, e);
    } else if ReadyForReview in labels {
      AddedBeside(ReadyForReview, AutoMerging, e);
    } else {
      AddedBeside(AiStuck, AutoMerging, e);
    }
  }

  lemma PassingDecision()
    ensures forall from | from in {Untracked, At(MergeBlocked), At(ReadyForReview), At(AiStuck)} ::
      Decide(from, LabelledAutoMerging) == Some(Rule(from, LabelledAutoMerging, ToLabel(AutoMerging), Some(MergeFlow)))
  {
  }

  /** A retry's hand-out: its count is the first, merge-blocked comes off. */
  lemma RetryHandsOut(c: Ctx, s: Item, told: bool)
    requires c.mode && NoEdits(c) && s.labels == {MergeBlocked, AutoMerging} && s.ciFix.None?
    ensures MergeRetry(c, s, HandToRework(c, s, s.labels, told))
  {
    hide ApplyEvent, RuleFor, NoEdits, StuckFree, Fired, Framed, Moves, Comment, BlockMerge, WriteLabel;
    RetryReads();
    var e := MergeGateFailedSoft;
    EventMoves(c, s, e, told);
    assert After(s.labels, RuleFor(s.labels, e).value) == {MergeBlocked, AutoReworking};
    var st := ApplyEvent(c, s, e, s.labels, told);
    Moved(c, s, st);
    if st.Ret? {
      MovesMeans(c, s, st, {MergeBlocked, AutoReworking}, Some(ReworkLoop));
      WriteRests(c, st.s, true, false, MergeBlocked);
      var w := WriteLabel(c, st.s, true, false, MergeBlocked);
      assert {MergeBlocked, AutoReworking} - {MergeBlocked} == {AutoReworking};
      if w.Ret? {
        var t := PutCiFix(w.s, Some(CiFix(1, true, false)));
        MovedTo(c, s, st, t, {MergeBlocked, AutoReworking}, {AutoReworking}, Some(ReworkLoop));
        UnfiredItself(t);
        CountedOut(c, s, Ret(t, st.v), t, c.Enforced(e), {AutoReworking}, Some(ReworkLoop));
      } else {
        ThrownAfter(c, s, st, w.s, {MergeBlocked, AutoReworking}, {AutoReworking}, Some(ReworkLoop));
      }
    } else {
      ThrownTo(c, s, st, {MergeBlocked, AutoReworking}, {AutoReworking}, Some(ReworkLoop));
    }
  }

  lemma MovedTo(c: Ctx, s: Item, st: Step<Result>, t: Item, from: set<Label>, to: set<Label>, run: Option<Routine>)
    requires Moves(c, s, st, from, run) && st.Ret? && Unfired(st.s, t) && t.labels == to
    ensures Moves(c, s, Ret(t, st.v), to, run)
  {
    hide Fired, Leaves, Reply;
    Itself(s);
    if run.Some? {
      LeavesOn(c, s, s, st.s, t, run.value, run.value != IssueDiscussLoop, false);
    }
  }

  lemma ThrownAfter(c: Ctx, s: Item, st: Step<Result>, t: Item, from: set<Label>, to: set<Label>, run: Option<Routine>)
    requires Moves(c, s, st, from, run) && Unfired(st.s, t)
    ensures Moves(c, s, Thr(t), to, run)
  {
    hide Fired, Leaves, Reply;
    Itself(s);
    if run.Some? {
      LeavesOn(c, s, s, st.s, t, run.value, run.value != IssueDiscussLoop, false);
    }
  }

  lemma ThrownTo(c: Ctx, s: Item, st: Step<Result>, from: set<Label>, to: set<Label>, run: Option<Routine>)
    requires Moves(c, s, st, from, run) && st.Thr?
    ensures Moves(c, s, st, to, run)
  {
    hide Fired, Leaves, Reply;
  }

  /** A failing gate where the table has no rule for it. */
  lemma NothingToFail(c: Ctx, s: Item, told: bool, other: Label)
    requires c.mode && NoEdits(c) && other in {ReadyForReview, AiStuck} && s.labels == {other, AutoMerging}
    ensures Stands(s, BlockMerge(c, s, s.labels, MergeGateFailedHard, told))
    ensures Stands(s, HandToRework(c, s, s.labels, told))
  {
    hide ApplyEvent, RuleFor, NoEdits, StuckFree, Fired, Moves, After, BlockMerge, Comment;
    FailingRules(other);
    BlockMoves(c, s, MergeGateFailedHard, told);
    EventStands(c, s, MergeGateFailedSoft, told);
  }

  /** The gate's answer, its facts in hand. */
  function Answered(c: Ctx, s: Item, i: Input, f: Facts): Step<Result> {
    if HardBlock(f) then BlockMerge(c, s, s.labels, MergeGateFailedHard, Told(i))
    else if DeriveGate(f) == Soft then HandToRework(c, s, s.labels, Told(i))
    else Plain(c, s, i, LabelledAutoMerging, s.labels, NOTHING_LATER, false)
  }

  lemma PassingMoves(c: Ctx, s: Item, i: Input)
    requires c.mode && NoEdits(c) && MergingFrom(s.labels)
    ensures Moves(c, s, Plain(c, s, i, LabelledAutoMerging, s.labels, NOTHING_LATER, false), {AutoMerging}, Some(MergeFlow))
  {
    hide Plain, RuleFor, NoEdits, StuckFree, Fired, Moves, After, MergingFrom;
    PassingRule(s.labels);
    PlainMoves(c, s, i, LabelledAutoMerging, NOTHING_LATER, false);
  }

  lemma AnswersAlone(c: Ctx, s: Item, i: Input, f: Facts)
    requires c.mode && NoEdits(c) && s.labels == {AutoMerging}
    ensures LabelDecides(c, s, Answered(c, s, i, f), f)
  {
    hide BlockMerge, HandToRework, Plain, RuleFor, NoEdits, StuckFree, Fired, Moves, After, HardBlock, Blocked, Unfinished, AnyRed, DeriveGate;
    FactsMean(f);
    MergingRules();
    Swapped(AutoMerging, RuleFor(s.labels, MergeGateFailedHard).value);
    BlockMoves(c, s, MergeGateFailedHard, Told(i));
    HandsToRework(c, s, Told(i));
    PassingMoves(c, s, i);
  }

  lemma AnswersRetry(c: Ctx, s: Item, i: Input, f: Facts)
    requires c.mode && NoEdits(c) && s.labels == {MergeBlocked, AutoMerging} && s.ciFix.None?
    ensures LabelDecides(c, s, Answered(c, s, i, f), f)
  {
    hide BlockMerge, HandToRework, Plain, RuleFor, NoEdits, StuckFree, Fired, Moves, HardBlock, Blocked, Unfinished, AnyRed, DeriveGate;
    FactsMean(f);
    RetryReads();
    assert After(s.labels, RuleFor(s.labels, MergeGateFailedHard).value) == {MergeBlocked};
    BlockMoves(c, s, MergeGateFailedHard, Told(i));
    RetryHandsOut(c, s, Told(i));
    PassingMoves(c, s, i);
  }

  lemma AnswersBeside(c: Ctx, s: Item, i: Input, f: Facts, other: Label)
    requires c.mode && NoEdits(c) && other in {ReadyForReview, AiStuck} && s.labels == {other, AutoMerging}
    ensures LabelDecides(c, s, Answered(c, s, i, f), f)
  {
    hide BlockMerge, HandToRework, Plain, RuleFor, NoEdits, StuckFree, Fired, Moves, After, HardBlock, Blocked, Unfinished, AnyRed, DeriveGate;
    FactsMean(f);
    assert MergeBlocked !in s.labels && other in s.labels;
    NothingToFail(c, s, Told(i), other);
    PassingMoves(c, s, i);
  }

  lemma AnswersLabel(c: Ctx, s: Item, i: Input, f: Facts)
    requires c.mode && NoEdits(c) && MergingFrom(s.labels) && (MergeBlocked in s.labels ==> s.ciFix.None?)
    ensures LabelDecides(c, s, Answered(c, s, i, f), f)
  {
    hide Answered, LabelDecides, NoEdits, StuckFree;
    if s.labels == {AutoMerging} {
      AnswersAlone(c, s, i, f);
    } else if MergeBlocked in s.labels {
      AnswersRetry(c, s, i, f);
    } else if ReadyForReview in s.labels {
      AnswersBeside(c, s, i, f, ReadyForReview);
    } else {
      AnswersBeside(c, s, i, f, AiStuck);
    }
  }

  /** What the gate decides from a later item, it decides from an earlier one
      with the same labels and count. */
  lemma DecidesFrom(c: Ctx, s: Item, u: Item, st1: Step<Result>, st: Step<Result>, f: Facts)
    requires Unfired(s, u) && s.labels == u.labels && Same(st1, st) && LabelDecides(c, u, st1, f)
    requires MergeBlocked !in s.labels ==> Counters(s, u)
    ensures LabelDecides(c, s, st, f)
  {
    hide Fired, Moves, Stands, Softly, Blocked;
    Lifts(c, s, u, st1, st);
  }

  lemma LabelGated(c: Ctx, s: Item, i: Input)
    requires c.mode && NoEdits(c) && MergingFrom(s.labels)
    ensures var st := OnMergeLabel(c, s, i, s.labels);
      LabelDecides(c, s, st, Settled(c, s.calls)) || (st.Thr? && Rests(s, st.s))
  {
    hide SettledFacts, Settled, BlockMerge, HandToRework, Plain, NoEdits, StuckFree, Fired, HardBlock, DeriveGate, LabelDecides;
    var s1 := if MergeBlocked in s.labels then PutCiFix(s, None) else s;
    SettledCalm(c, s1);
    SettledMeans(c, s1);
    var x := SettledFacts(c, s1);
    if x.Ret? {
      assert OnMergeLabel(c, s, i, s.labels) == Answered(c, x.s, i, x.v);
      AnswersLabel(c, x.s, i, x.v);
      DecidesFrom(c, s, x.s, Answered(c, x.s, i, x.v), Answered(c, x.s, i, x.v), x.v);
    }
  }

  lemma MergeLabelEvent(c: Ctx, s: Item, i: Input)
    requires MergeLabel(i.payload)
    ensures Translate(i.payload) == Some(LabelledAutoMerging) && Plainly(i) && Allowed(c, i, LabelledAutoMerging)
    ensures OnEvent(c, s, i, LabelledAutoMerging, s.labels) == OnMergeLabel(c, s, i, s.labels)
    ensures !i.payload.Commented?
  {
    hide OnMergeLabel, DeriveState;
  }

  /** How many calls a label's delivery makes before its event. */
  function LabelCalls(c: Ctx): nat {
    if c.app then 2 else 1
  }

  lemma LabelReads(c: Ctx, s: Item, i: Input, e: Event)
    requires !i.payload.Commented?
    ensures Reached(c, s, i, e) ==> AtEvent(c, s, i, e).calls == s.calls + LabelCalls(c)
  {
  }

  /** auto-merging is added: the delivery does what the settled facts decide,
      unless a reading fails. */
  lemma MergeLabelIsGated(c: Ctx, s: Item, i: Input)
    requires c.mode && NoEdits(c) && MergeLabel(i.payload) && MergingFrom(s.labels) && Unhandled(s, i)
    ensures var st := CoordinateWebhook(c, s, i);
      LabelDecides(c, s, st, Settled(c, s.calls + LabelCalls(c))) || (st.Thr? && Rests(s, st.s))
  {
    hide OnEvent, CoordinateWebhook, AtEvent, NoEdits, StuckFree, Unhandled, Fired, OnMergeLabel, Reached, LabelDecides, Settled, Translate,
      Allowed, MergingFrom;
    var e := LabelledAutoMerging;
    MergeLabelEvent(c, s, i);
    Delivers(c, s, i, e);
    LabelReads(c, s, i, e);
    var u := AtEvent(c, s, i, e);
    ClaimedUnfired(s, i, u);
    SameCounters(s, i, u);
    if Reached(c, s, i, e) {
      MergeLabelEvent(c, u, i);
      LabelGated(c, u, i);
      var st1 := OnEvent(c, u, i, e, u.labels);
      var st := CoordinateWebhook(c, s, i);
      if LabelDecides(c, u, st1, Settled(c, u.calls)) {
        DecidesFrom(c, s, u, st1, st, Settled(c, u.calls));
      } else {
        SameRests(st1, st);
        RestsOn(s, u, st1.s);
        RestsOn(s, st1.s, st.s);
      }
    }
  }
}

/** The review's gate. */
module ReviewKeeping {
  import opened Wrappers
  import opened Graph
  import opened Labels
  import opened Items
  import opened Apply
  import opened Gates
  import opened Deliveries
  import opened Webhook
  import opened Kinds
  import opened Keeps
  import opened GateKeeps
  import opened Fires
  import opened Delivering
  import opened Steps
  import opened Reports
  import opened GateFacts
  import opened Triggers
  import opened Gatekeeping
  import O = Outcomes

  /** No check yet, or one still running: the review waits for CI. */
  predicate Waits(f: Facts) {
    f.checks == [] || Unfinished(f)
  }

  /** What a PR's checks decide for its review: nothing yet, the fix of a red
      one, or the review, fired with every check green. */
  predicate Decides(c: Ctx, s: Item, st: Step<Result>, f: Facts) {
    if Waits(f) then Stands(s, st)
    else if AnyRed(f) then ReviewFix(c, s, st, Attempts(s))
    else Moves(c, s, st, {AiReviewing}, Some(ReviewLoop))
  }

  lemma FactsCalm(c: Ctx, s: Item)
    requires NoEdits(c)
    ensures var r := Read(c, s); Calm(s, r.s) && (r.Ret? ==> r.v == c.world(s.calls)) && r.s.calls == s.calls + 1
  {
    hide NoEdits, StuckFree, Read;
    ReadGlances(c, s);
    GlancedCalm(c, s, Read(c, s).s);
    OneCall(c, s);
    ReadSays(c, s);
  }

  lemma ReadSays(c: Ctx, s: Item)
    ensures Read(c, s).Ret? ==> Read(c, s).v == c.world(s.calls)
  {
  }

  lemma RowStands(c: Ctx, s: Item, r: Result)
    requires NoEdits(c) && !r.Applied?
    ensures Stands(s, Drop(c, s, r))
  {
    hide Say, NoEdits, StuckFree, Fired, Framed;
    SayRests(c, s, true, Row);
    SaysCount(c, s, true, Row);
  }

  /** A review already out is left alone. */
  lemma AlreadyOut(c: Ctx, s: Item, told: bool)
    requires NoEdits(c) && Running(s, ReviewLoop)
    ensures Stands(s, ReviewGate(c, s, s.labels, told))
  {
    hide Stands, Say, NoEdits, StuckFree;
    RowStands(c, s, NoEvent);
  }

  lemma GateOpens(c: Ctx, s: Item, told: bool)
    requires c.mode && NoEdits(c) && s.labels == {AiReviewing} && !Running(s, ReviewLoop)
    ensures var st := ReviewGate(c, s, s.labels, told);
      Decides(c, s, st, c.world(s.calls).facts) || (st.Thr? && Stands(s, st))
  {
    hide ApplyEvent, HandReviewToRework, RuleFor, NoEdits, StuckFree, Fired, Moves, After, Read, Unfinished, AnyRed, AnyUnfinished, AnyFailed;
    FactsCalm(c, s);
    var r := Read(c, s);
    CalmCounts(s, r.s);
    if r.Ret? {
      FactsMean(r.v.facts);
      HandsReviewToRework(c, r.s, told);
      ReviewingRules();
      EventMoves(c, r.s, ReviewCiPassed, told);
      Swapped(AiReviewing, RuleFor(s.labels, ReviewCiPassed).value);
      UnfiredItself(r.s);
      ChecksFrom(c, s, r.s, ReviewGate(c, s, s.labels, told), ReviewGate(c, s, s.labels, told), r.v.facts);
    }
  }

  lemma ChecksFrom(c: Ctx, s: Item, u: Item, st1: Step<Result>, st: Step<Result>, f: Facts)
    requires Rests(s, u) && Counters(s, u) && Decides(c, u, st1, f) && Same(st1, st)
    ensures Decides(c, s, st, f)
  {
    hide Fired, Moves, Stands, Unfinished, AnyRed;
    Lifts(c, s, u, st1, st);
  }

  /** CI finishes on a PR that carries ai-reviewing alone: a review already out
      is left alone; otherwise the checks decide, unless their reading fails. */
  lemma CiDecidesTheReview(c: Ctx, s: Item, i: Input)
    requires c.mode && NoEdits(c) && s.labels == {AiReviewing} && i.payload == CheckSuite(true) && Unhandled(s, i)
    ensures var st := CoordinateWebhook(c, s, i);
      if Running(s, ReviewLoop) then Stands(s, st)
      else Decides(c, s, st, c.world(s.calls + 1).facts) || (st.Thr? && Stands(s, st))
  {
    hide GetLabels, OnMergeChecks, ReviewGate, ProcessEvent, CoordinateWebhook, NoEdits, StuckFree, DeriveState, Decides, Fired, Moves,
      Unhandled, Stands;
    var s0 := Claimed(s, i);
    Wraps(c, s, i);
    SuiteInReview(c, s0, i);
    LabelsCalm(c, s0);
    var g := GetLabels(c, s0);
    var st1 := ProcessEvent(c, s0, i);
    var st := CoordinateWebhook(c, s, i);
    ClaimedUnfired(s, i, g.s);
    SameCounters(s, i, g.s);
    if g.Thr? {
      ThrownStands(s, i, g.s, st1, st);
    } else {
      GateFrom(c, s, g.s, st1, st, Told(i));
    }
  }

  lemma SuiteInReview(c: Ctx, s: Item, i: Input)
    requires NoEdits(c) && i.payload == CheckSuite(true) && s.labels == {AiReviewing}
    ensures var g := GetLabels(c, s);
      ProcessEvent(c, s, i) == if g.Thr? then Thr(g.s) else ReviewGate(c, g.s, g.s.labels, Told(i))
  {
    hide GetLabels, OnMergeChecks, ReviewGate, ProcessEvent, NoEdits, StuckFree, DeriveState, RuleFor;
    SuiteEvent(c, s, i);
    LabelsCalm(c, s);
    ReviewingRules();
  }

  /** The gate's answer from the labels just read is the delivery's. */
  lemma GateFrom(c: Ctx, s: Item, u: Item, st1: Step<Result>, st: Step<Result>, told: bool)
    requires c.mode && NoEdits(c) && u.labels == {AiReviewing} && Rests(s, u) && Counters(s, u)
    requires st1 == ReviewGate(c, u, u.labels, told) && Same(st1, st) && Running(u, ReviewLoop) == Running(s, ReviewLoop)
    ensures if Running(s, ReviewLoop) then Stands(s, st)
      else Decides(c, s, st, c.world(u.calls).facts) || (st.Thr? && Stands(s, st))
  {
    hide ReviewGate, NoEdits, StuckFree, Decides, Fired, Moves, Stands, Running;
    Lifts(c, s, u, st1, st);
    if Running(s, ReviewLoop) {
      AlreadyOut(c, u, told);
    } else {
      GateOpens(c, u, told);
      if Decides(c, u, st1, c.world(u.calls).facts) {
        ChecksFrom(c, s, u, st1, st, c.world(u.calls).facts);
      }
    }
  }

  /** So finished CI fires the review only with a check, and every one green. */
  lemma OnlyGreenIsReviewed(c: Ctx, s: Item, i: Input)
    requires c.mode && NoEdits(c) && s.labels == {AiReviewing} && i.payload == CheckSuite(true) && Unhandled(s, i)
    requires FiredOnce(s, CoordinateWebhook(c, s, i).s, ReviewLoop)
    ensures var f := c.world(s.calls + 1).facts; f.checks != [] && AllGreen(f) && !Running(s, ReviewLoop)
  {
    hide CoordinateWebhook, NoEdits, StuckFree, Unhandled, Fired, AnyRed, AllGreen, Unfinished, Blocked;
    CiDecidesTheReview(c, s, i);
    FactsMean(c.world(s.calls + 1).facts);
    var t := CoordinateWebhook(c, s, i).s;
    OneRun(s, t, ReviewLoop, ReworkLoop);
    SomethingFired(s, t, ReviewLoop);
  }

  // --- suites that decide nothing ---

  lemma UnfinishedSuite(c: Ctx, s: Item, i: Input)
    requires i.payload == CheckSuite(false)
    ensures ProcessEvent(c, s, i) == Ret(s, NoEvent)
  {
  }

  /** A suite still running, or on an item under neither gate: nothing. */
  lemma CiElsewhereMovesNothing(c: Ctx, s: Item, i: Input)
    requires NoEdits(c) && i.payload.CheckSuite? && Unhandled(s, i)
    requires !i.payload.completed || (AutoMerging !in s.labels && s.labels != {AiReviewing})
    ensures Stands(s, CoordinateWebhook(c, s, i))
  {
    hide GetLabels, OnMergeChecks, ReviewGate, ProcessEvent, CoordinateWebhook, NoEdits, StuckFree, DeriveState, Fired, Unhandled;
    var s0 := Claimed(s, i);
    Wraps(c, s, i);
    LabelsCalm(c, s0);
    ReadingMeans(s.labels);
    UnfiredItself(s0);
    if i.payload.completed {
      SuiteEvent(c, s0, i);
    } else {
      UnfinishedSuite(c, s0, i);
    }
    SameCalm(s, i, ProcessEvent(c, s0, i), CoordinateWebhook(c, s, i));
  }

  lemma SameCalm(s: Item, i: Input, st1: Step<Result>, st: Step<Result>)
    requires Calm(Claimed(s, i), st1.s) && Same(st1, st) && (st1.Ret? ==> !st1.v.Applied?)
    ensures Stands(s, st)
  {
  }

  // --- ai-reviewing is added ---

  predicate ReviewLabel(p: Payload) {
    p.Labeled? && p.onPr && !p.own && p.lane == Some(AiReviewing)
  }

  /** Beside ai-reviewing: nothing, or a label a person asks for the review from. */
  predicate ReviewedFrom(labels: set<Label>) {
    labels in {{AiReviewing}, {AiStuck, AiReviewing}, {AiBlocked, AiReviewing}, {ReadyForReview, AiReviewing}}
  }

  /** The CI fixes counted when the gate is asked: from ai-stuck a fresh count. */
  function CountHere(s: Item): nat {
    if AiStuck in s.labels then 0 else Attempts(s)
  }

  /** What the label comes to: it stays alone, waiting for CI; or the gate hands
      the PR out, or fires its review. */
  predicate Reviews(c: Ctx, s: Item, st: Step<Result>, f: Facts) {
    if Waits(f) then Moves(c, s, st, {AiReviewing}, None)
    else if AnyRed(f) then ReviewFix(c, s, st, CountHere(s))
    else Moves(c, s, st, {AiReviewing}, Some(ReviewLoop))
  }

  lemma ReviewRule(labels: set<Label>)
    requires ReviewedFrom(labels)
    ensures var found := RuleFor(labels, LabelledAiReviewing);
      found.Some? && found.value.run.None? && After(labels, found.value) == {AiReviewing}
      && |LabelOps(labels, found.value)| == if labels == {AiReviewing} then 0 else 1
    ensures DeriveState(labels - {AiReviewing}) == Clear(At(AiStuck)) <==> AiStuck in labels
    ensures AiReviewing in labels && labels - {AiStuck, AiBlocked, ReadyForReview} == {AiReviewing}
  {
    hide DeriveState, Decide;
    var e := LabelledAiReviewing;
    ReviewDecision();
    if labels == {AiReviewing} {
      AddedAlone(AiReviewing, e);
      assert After(labels, Decide(Untracked, e).value) == {AiReviewing};
    } else if AiStuck in labels {
      ReviewBeside(AiStuck);
    } else if AiBlocked in labels {
      ReviewBeside(AiBlocked);
    } else {
      ReviewBeside(ReadyForReview);
    }
  }

  lemma ReviewBeside(from: Label)
    requires from in {AiStuck, AiBlocked, ReadyForReview}
    ensures var labels := {from, AiReviewing}; var rule := Rule(At(from), LabelledAiReviewing, ToLabel(AiReviewing), None);
      && DeriveState(labels - {AiReviewing}) == Clear(At(from)) && RuleFor(labels, LabelledAiReviewing) == Some(rule)
      && After(labels, rule) == {AiReviewing} && LabelOps(labels, rule) == [RemoveOp(from)]
      && labels - {AiStuck, AiBlocked, ReadyForReview} == {AiReviewing}
  {
    hide DeriveState, Decide, RuleFor;
    ReviewDecision();
    AddedBeside(from, AiReviewing, LabelledAiReviewing);
  }

  lemma ReviewDecision()
    ensures forall from | from in {Untracked, At(AiStuck), At(AiBlocked), At(ReadyForReview)} ::
      Decide(from, LabelledAiReviewing) == Some(Rule(from, LabelledAiReviewing, ToLabel(AiReviewing), None))
  {
  }

  /** A rule that runs nothing makes its label calls and its row's, no more. */
  lemma {:induction false} OpsCalls(c: Ctx, s: Item, ops: seq<LabelOp>)
    ensures WriteOps(c, s, true, ops).Ret? ==> WriteOps(c, s, true, ops).s.calls == s.calls + |ops|
    decreases |ops|
  {
    if ops != [] && WriteOp(c, s, true, ops[0]).Ret? {
      OpsCalls(c, WriteOp(c, s, true, ops[0]).s, ops[1..]);
    }
  }

  lemma EventCalls(c: Ctx, s: Item, e: Event, told: bool)
    requires c.Enforced(e) && RuleFor(s.labels, e).Some? && RuleFor(s.labels, e).value.run.None?
    ensures var st := ApplyEvent(c, s, e, s.labels, told);
      st.Ret? ==> st.s.calls == s.calls + |LabelOps(s.labels, RuleFor(s.labels, e).value)| + 1
  {
    hide RuleFor, LabelOps, WriteOps;
    var rule := RuleFor(s.labels, e).value;
    RuleForNames(s.labels, e);
    OpsCalls(c, Marked(s, Matched(rule, PendingRun(s))), LabelOps(s.labels, rule));
  }

  /** The label's own rule: it alone is left, nothing is pending. */
  lemma ReviewRuled(c: Ctx, s: Item, told: bool)
    requires c.mode && NoEdits(c) && ReviewedFrom(s.labels)
    ensures var st := ApplyEvent(c, s, LabelledAiReviewing, s.labels, told);
      && Moves(c, s, st, {AiReviewing}, None) && Attempts(st.s) == Attempts(s) && s.now <= st.s.now
      && (st.Ret? ==> st.v.Applied? && st.s.calls == s.calls + if s.labels == {AiReviewing} then 1 else 2)
  {
    hide ApplyEvent, RuleFor, NoEdits, StuckFree, Fired, Moves, After, LabelOps, Framed, ReviewedFrom;
    var e := LabelledAiReviewing;
    ReviewRule(s.labels);
    EventMoves(c, s, e, told);
    EventCalls(c, s, e, told);
    FramedReworks(s, ApplyEvent(c, s, e, s.labels, told).s);
    EventFires(c, s, e, s.labels, told);
    RuleNow(c, s, ApplyEvent(c, s, e, s.labels, told), RuleFor(s.labels, e).value, s.labels);
  }

  lemma RuleNow(c: Ctx, s: Item, st: Step<Result>, rule: Rule, cl: set<Label>)
    requires RuleFired(c, s, st.s, rule, cl, st.Ret?)
    ensures s.now <= st.s.now
  {
    hide Fired, Leaves;
  }

  /** The gate, asked with nothing pending, decides what the label comes to. */
  lemma GateReviews(c: Ctx, s: Item, u: Item, st1: Step<Result>, r: Result, f: Facts)
    requires NoneFired(s, u) && s.now <= u.now && u.labels == {AiReviewing} && Idle(u) && Attempts(u) == CountHere(s) && r.Applied?
    requires Decides(c, u, st1, f) || (st1.Thr? && Stands(u, st1))
    requires st1.Ret? ==> (Waits(f) <==> st1.v.NoEvent?)
    ensures Reviews(c, s, if st1.Ret? then Ret(st1.s, if st1.v.NoEvent? then r else st1.v) else st1, f)
  {
    hide Fired, Moves, AnyRed, Waits;
    Lifts(c, s, u, st1, st1);
    if Stands(u, st1) {
      StoodStill(c, s, u, st1, r);
    }
    MovedEvent(c, u, st1);
  }

  lemma StoodStill(c: Ctx, s: Item, u: Item, st1: Step<Result>, r: Result)
    requires NoneFired(s, u) && s.now <= u.now && u.labels == {AiReviewing} && Idle(u) && Stands(u, st1) && r.Applied?
    ensures Moves(c, s, if st1.Ret? then Ret(st1.s, r) else st1, {AiReviewing}, None)
    ensures st1.Thr? ==> forall to, run :: Moves(c, s, st1, to, run)
  {
  }

  lemma MovedEvent(c: Ctx, s: Item, st: Step<Result>)
    ensures forall to, run | Moves(c, s, st, to, run) && st.Ret? :: !st.v.NoEvent?
  {
    hide Fired;
  }

  lemma WaitsSays(c: Ctx, s: Item, told: bool)
    requires c.mode && NoEdits(c) && s.labels == {AiReviewing} && !Running(s, ReviewLoop)
    ensures var st := ReviewGate(c, s, s.labels, told); st.Ret? ==> (Waits(c.world(s.calls).facts) <==> st.v.NoEvent?)
  {
    hide ApplyEvent, HandReviewToRework, RuleFor, NoEdits, StuckFree, Moves, Read, Unfinished, AnyUnfinished, AnyFailed, AnyRed;
    FactsCalm(c, s);
    var r := Read(c, s);
    if r.Ret? {
      FactsMean(r.v.facts);
      HandsReviewToRework(c, r.s, told);
      MovedEvent(c, r.s, HandReviewToRework(c, r.s, s.labels, told));
      ReviewingRules();
      EventMoves(c, r.s, ReviewCiPassed, told);
      MovedEvent(c, r.s, ApplyEvent(c, r.s, ReviewCiPassed, s.labels, told));
    }
  }

  lemma LabelReviews(c: Ctx, s: Item, told: bool)
    requires c.mode && NoEdits(c) && ReviewedFrom(s.labels) && !Running(s, ReviewLoop)
    ensures var n := s.calls + if s.labels == {AiReviewing} then 1 else 2;
      Reviews(c, s, ReviewLabelOn(c, s, s.labels, told), c.world(n).facts)
  {
    hide ApplyEvent, ReviewGate, NoEdits, StuckFree, Fired, Moves, DeriveState, Decides, Waits, ReviewedFrom, AnyRed;
    ReviewRule(s.labels);
    var s1 := if AiStuck in s.labels then PutExpired(PutCiFix(PutRounds(s, None), None), false) else s;
    ReviewRuled(c, s1, told);
    var a := ApplyEvent(c, s1, LabelledAiReviewing, s.labels, told);
    var f := c.world(s.calls + if s.labels == {AiReviewing} then 1 else 2).facts;
    MovesSays(c, s1, a, {AiReviewing});
    if a.Ret? {
      GateOpens(c, a.s, told);
      WaitsSays(c, a.s, told);
      GateReviews(c, s, a.s, ReviewGate(c, a.s, a.s.labels, told), a.v, f);
    } else {
      ThrownReviews(c, s, a, f);
    }
  }

  lemma MovesSays(c: Ctx, s: Item, st: Step<Result>, to: set<Label>)
    requires Moves(c, s, st, to, None)
    ensures NoneFired(s, st.s) && (st.Ret? ==> st.s.labels == to && Idle(st.s))
  {
    hide Fired;
  }

  lemma ThrownReviews(c: Ctx, s: Item, st: Step<Result>, f: Facts)
    requires NoneFired(s, st.s) && st.Thr?
    ensures Reviews(c, s, st, f)
  {
    hide Fired, Waits, AnyRed;
  }

  lemma ReviewsFrom(c: Ctx, s: Item, u: Item, st1: Step<Result>, st: Step<Result>, f: Facts)
    requires NoneFired(s, u) && s.now <= u.now && Same(st1, st) && Reviews(c, u, st1, f) && CountHere(s) == CountHere(u)
    ensures Reviews(c, s, st, f)
  {
    hide Fired, Moves, AnyRed, Waits;
    Lifts(c, s, u, st1, st);
  }

  lemma ReviewLabelEvent(c: Ctx, s: Item, i: Input)
    requires ReviewLabel(i.payload) || i.payload == ReviewRequested(true)
    ensures Translate(i.payload) == Some(LabelledAiReviewing) && Plainly(i) && Allowed(c, i, LabelledAiReviewing)
    ensures OnEvent(c, s, i, LabelledAiReviewing, s.labels) == OnReviewLabel(c, s, i, s.labels) && !i.payload.Commented?
  {
    hide OnReviewLabel, DeriveState;
  }

  lemma AskedAgain(c: Ctx, s: Item, told: bool)
    requires Running(s, ReviewLoop)
    ensures Stands(s, ReviewLabelOn(c, s, s.labels, told))
  {
    hide DeriveState;
    UnfiredItself(s);
  }

  /** A person asks for a review: a review already out is left alone; otherwise
      the PR carries ai-reviewing alone and its checks decide what comes next. */
  lemma ReviewIsAskedFor(c: Ctx, s: Item, i: Input)
    requires c.mode && NoEdits(c) && ReviewLabel(i.payload) && ReviewedFrom(s.labels) && Unhandled(s, i)
    ensures var st := CoordinateWebhook(c, s, i);
      var n := s.calls + LabelCalls(c) + if s.labels == {AiReviewing} then 1 else 2;
      if Running(s, ReviewLoop) then Stands(s, st) else Reviews(c, s, st, c.world(n).facts)
  {
    hide OnEvent, CoordinateWebhook, AtEvent, NoEdits, StuckFree, Unhandled, Fired, ReviewLabelOn, Reached, Reviews, Translate,
      Allowed, ReviewedFrom;
    var e := LabelledAiReviewing;
    ReviewLabelEvent(c, s, i);
    Delivers(c, s, i, e);
    LabelReads(c, s, i, e);
    var u := AtEvent(c, s, i, e);
    ClaimedUnfired(s, i, u);
    SameCounters(s, i, u);
    var st := CoordinateWebhook(c, s, i);
    var f := c.world(s.calls + LabelCalls(c) + if s.labels == {AiReviewing} then 1 else 2).facts;
    if Reached(c, s, i, e) {
      ReviewLabelEvent(c, u, i);
      var st1 := OnEvent(c, u, i, e, u.labels);
      if Running(s, ReviewLoop) {
        AskedAgain(c, u, Told(i));
        Lifts(c, s, u, st1, st);
      } else {
        LabelReviews(c, u, Told(i));
        ReviewsFrom(c, s, u, st1, st, f);
      }
    } else {
      ShortStands(c, s, i, e);
      ThrownReviews(c, s, st, f);
    }
  }

  // --- a build hands its PR over ---

  lemma AcceptedAs(c: Ctx, s: Item, told: bool)
    requires c.mode && NoEdits(c) && s.labels == {} && !Running(s, ReviewLoop)
    ensures var st := AcceptReview(c, s, s.labels, told); var a := c.world(s.calls);
      if a.verdict.Throws? || !a.pull.open then Stands(s, st) else Reviews(c, s, st, c.world(s.calls + 3).facts)
  {
    hide ReviewLabelOn, WriteLabel, NoEdits, StuckFree, DeriveState, Fired, Reviews, Drop, Read;
    FactsCalm(c, s);
    ReadEnds(c, s);
    var r := Read(c, s);
    CalmCounts(s, r.s);
    RowStands(c, r.s, StaleLabel(LabelledAiReviewing));
    Lifts(c, s, r.s, Drop(c, r.s, StaleLabel(LabelledAiReviewing)), Drop(c, r.s, StaleLabel(LabelledAiReviewing)));
    ReadingMeans({});
    if r.Ret? && r.v.pull.open {
      WriteRests(c, r.s, true, true, AiReviewing);
      WriteCalls(c, r.s);
      var w := WriteLabel(c, r.s, true, true, AiReviewing);
      assert {} + {AiReviewing} == {AiReviewing};
      var st := AcceptReview(c, s, s.labels, told);
      if w.Ret? {
        LabelReviews(c, w.s, told);
        ReviewsFrom(c, s, w.s, ReviewLabelOn(c, w.s, {AiReviewing}, told), st, c.world(s.calls + 3).facts);
      } else {
        ThrownReviews(c, s, st, c.world(s.calls + 3).facts);
      }
    }
  }

  lemma ReadEnds(c: Ctx, s: Item)
    ensures Read(c, s).Thr? <==> c.world(s.calls).verdict.Throws?
  {
  }

  lemma WriteCalls(c: Ctx, s: Item)
    ensures var w := WriteLabel(c, s, true, true, AiReviewing);
      w.s.calls == s.calls + 1 && w.s.pending == s.pending && w.s.ciFix == s.ciFix
  {
  }

  /** A PR that carries some other label is not handed a review. */
  lemma NotAccepted(c: Ctx, s: Item, told: bool, l: Label)
    requires c.mode && NoEdits(c) && s.labels == {l} && l != AiReviewing
    ensures Stands(s, AcceptReview(c, s, s.labels, told))
  {
    hide ReviewLabelOn, WriteLabel, NoEdits, StuckFree, DeriveState, Fired, Drop, Read, ApplyEvent, Stands;
    FactsCalm(c, s);
    var r := Read(c, s);
    CalmCounts(s, r.s);
    ReadingMeans({l});
    assert DeriveState(s.labels) == Clear(At(l));
    RowStands(c, r.s, StaleLabel(LabelledAiReviewing));
    Lifts(c, s, r.s, Drop(c, r.s, StaleLabel(LabelledAiReviewing)), Drop(c, r.s, StaleLabel(LabelledAiReviewing)));
    RowStands(c, r.s, DroppedNoRule(At(l), LabelledAiReviewing));
    Lifts(c, s, r.s, Drop(c, r.s, DroppedNoRule(At(l), LabelledAiReviewing)), Drop(c, r.s, DroppedNoRule(At(l), LabelledAiReviewing)));
    ThrewCalm(s, r.s);
  }

  lemma ThrewCalm(s: Item, t: Item)
    requires Rests(s, t) && Counters(s, t)
    ensures Stands(s, Thr(t))
  {
  }

  /** A build's PR is handed its review: open and with no label on, it gets
      ai-reviewing and its checks decide; closed, gone, or carrying another
      label, nothing of it moves. That there is no such PR does not fail the
      delivery; any other failed read of it does. */
  lemma HandOffIsTaken(c: Ctx, s: Item, i: Input)
    requires c.mode && NoEdits(c) && i.payload == ReviewRequested(true) && !Running(s, ReviewLoop) && Unhandled(s, i)
    requires |s.labels| <= 1 && AiReviewing !in s.labels
    ensures var st := CoordinateWebhook(c, s, i); var n := s.calls + LabelCalls(c);
      && (if s.labels == {} && !c.world(n).verdict.Throws? && c.world(n).pull.open then Reviews(c, s, st, c.world(n + 3).facts)
          else Stands(s, st))
      && (c.world(n).verdict.Throws? && !c.world(n).verdict.missing ==> st.Thr?)
      && (Missing(c, s.calls, n) ==> st.Ret?)
  {
    hide OnEvent, CoordinateWebhook, AtEvent, NoEdits, StuckFree, Unhandled, Fired, AcceptReview, Reached, Reviews, Translate, Allowed,
      Stands, DeriveState;
    var e := LabelledAiReviewing;
    ReviewLabelEvent(c, s, i);
    Delivers(c, s, i, e);
    LabelReads(c, s, i, e);
    var u := AtEvent(c, s, i, e);
    ClaimedUnfired(s, i, u);
    SameCounters(s, i, u);
    var st := CoordinateWebhook(c, s, i);
    var f := c.world(s.calls + LabelCalls(c) + 3).facts;
    ReachedIf(c, s, i, e);
    if Reached(c, s, i, e) {
      ReviewLabelEvent(c, u, i);
      PullRead(c, u, Told(i));
      var st1 := OnEvent(c, u, i, e, u.labels);
      Lifts(c, s, u, st1, st);
      SmallReading(s.labels);
      if s.labels == {} {
        AcceptedAs(c, u, Told(i));
        if Reviews(c, u, st1, f) {
          ReviewsFrom(c, s, u, st1, st, f);
        }
      } else {
        var l :| l in s.labels;
        OnlyMember(s.labels);
        NotAccepted(c, u, Told(i), l);
      }
    } else {
      ShortStands(c, s, i, e);
      NothingDone(c, s, st, f);
    }
  }

  /** Every call but the PR's read, at call n, goes through, and that finds no
      such PR. */
  predicate Missing(c: Ctx, from: nat, n: nat) {
    && c.world(n).verdict.Throws? && c.world(n).verdict.missing
    && !c.world(n + 1).verdict.Throws? && forall k | from <= k < n :: !c.world(k).verdict.Throws?
  }

  lemma ReachedIf(c: Ctx, s: Item, i: Input, e: Event)
    requires !i.payload.Commented?
    ensures (forall k | s.calls <= k < s.calls + LabelCalls(c) :: !c.world(k).verdict.Throws?) ==> Reached(c, s, i, e)
  {
  }

  /** No such PR is a hand-off dropped; any other failed read fails the delivery,
      for its redelivery. */
  lemma PullRead(c: Ctx, s: Item, told: bool)
    ensures var st := AcceptReview(c, s, s.labels, told); var v := c.world(s.calls).verdict;
      && (v.Throws? && !v.missing ==> st.Thr?)
      && (v.Throws? && v.missing && !c.world(s.calls + 1).verdict.Throws? ==> st.Ret?)
  {
    hide ApplyEvent, ReviewLabelOn, WriteLabel, DeriveState;
  }

  lemma NothingDone(c: Ctx, s: Item, st: Step<Result>, f: Facts)
    requires Stands(s, st) && st.Thr?
    ensures Reviews(c, s, st, f)
  {
    ThrownReviews(c, s, st, f);
  }

  // --- the review's findings ---

  predicate Finds(p: Payload) {
    p.Commented? && !p.remark.signed && p.remark.outcome.Some? && p.remark.outcome.value.ReviewFound?
  }

  lemma FindingsRead(c: Ctx, i: Input)
    requires Finds(i.payload)
    ensures Translate(i.payload) == Some(ReviewFindings) && Plainly(i) && Allowed(c, i, ReviewFindings)
  {
  }

  lemma FindingsEvent(c: Ctx, s: Item, i: Input)
    requires Finds(i.payload) && s.labels == {AiReviewing}
    ensures OnEvent(c, s, i, ReviewFindings, s.labels) == TakeFindings(c, s, s.labels, Told(i))
  {
    hide TakeFindings, DeriveState, RuleFor, Finds;
    ReviewingRules();
    FindsComments(i.payload);
  }

  lemma FindsComments(p: Payload)
    requires Finds(p)
    ensures p.Commented?
  {
  }

  /** The review reports findings: a counted round is handed to rework, up to the
      cap; past it the PR goes to ai-stuck. */
  lemma FindingsAreARound(c: Ctx, s: Item, i: Input)
    requires c.mode && NoEdits(c) && s.labels == {AiReviewing} && Unhandled(s, i) && Finds(i.payload)
    ensures Round(c, s, CoordinateWebhook(c, s, i))
  {
    hide OnEvent, CoordinateWebhook, AtEvent, NoEdits, StuckFree, Unhandled, Fired, TakeFindings, Reached, Translate, Allowed, Moves;
    var e := ReviewFindings;
    FindingsRead(c, i);
    Delivers(c, s, i, e);
    var u := AtEvent(c, s, i, e);
    ClaimedUnfired(s, i, u);
    SameCounters(s, i, u);
    var st := CoordinateWebhook(c, s, i);
    if Reached(c, s, i, e) {
      FindingsEvent(c, u, i);
      TakesFindings(c, u, Told(i));
      Lifts(c, s, u, OnEvent(c, u, i, e, u.labels), st);
    } else {
      StopsShort(c, s, st, {AutoReworking}, Some(ReworkLoop));
      StopsShort(c, s, st, {AiStuck}, None);
    }
  }
}
