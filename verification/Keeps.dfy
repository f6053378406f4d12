// Applying an event keeps every kind, and what becomes of the kinds a matched
// rule ends.

module Keeps {
  import opened Wrappers
  import opened Graph
  import opened Labels
  import opened Items
  import opened Apply
  import opened Kinds

  /** Kinds whose proof goes through a rule's label calls one by one. */
  predicate CallByCall(k: Kind) {
    !Hands(k) && !OfStuck(k)
  }

  /** A kind once a rule has matched. */
  function Opened(k: Kind): Kind {
    if UntilMatch(k) then Ever(Matches, k.n) else if k.Unmatched? then Loose else k
  }

  lemma OpenedIsEnough(c: Ctx, k: Kind, s: Item)
    requires Ready(c, Opened(k), s) && WorldOk(c, k) && !k.Unmatched?
    ensures Ready(c, k, s)
  {
  }

  lemma MatchOpens(c: Ctx, k: Kind, s: Item, rule: Rule)
    requires Ready(c, k, s) && CallByCall(k) && !k.EntryIs?
    ensures Ready(c, Opened(k), Marked(s, Matched(rule, PendingRun(s))))
  {
    hide Tally, LastEntry, Passed, NoEdits, StuckFree, NoFailures;
    var m := Matched(rule, PendingRun(s));
    TallyGrows(s.trace, m, Matches);
    if !UntilMatch(k) && !k.Unmatched? {
      KeepMark(c, k, s, m);
    }
  }

  lemma KeepWriteOp(c: Ctx, k: Kind, s: Item, io: bool, op: LabelOp)
    requires Ready(c, k, s) && CallByCall(k) && !UntilMatch(k)
    requires k.Dry? ==> !io
    ensures Ready(c, k, WriteOp(c, s, io, op).s)
  {
    hide Ready, WriteLabel, CloseIssue;
    match op
    case AddOp(l) => KeepWriteLabel(c, k, s, io, true, l);
    case RemoveOp(l) => KeepWriteLabel(c, k, s, io, false, l);
    case CloseOp => KeepClose(c, k, s, io);
  }

  lemma {:induction false} KeepWriteOps(c: Ctx, k: Kind, s: Item, io: bool, ops: seq<LabelOp>)
    requires Ready(c, k, s) && CallByCall(k) && !UntilMatch(k)
    requires k.Dry? ==> !io
    ensures Ready(c, k, WriteOps(c, s, io, ops).s)
    decreases |ops|
  {
    hide Ready, WriteOp;
    if ops != [] {
      KeepWriteOp(c, k, s, io, ops[0]);
      var st := WriteOp(c, s, io, ops[0]);
      if st.Ret? {
        KeepWriteOps(c, k, st.s, io, ops[1..]);
      }
    }
  }

  lemma KeepReportRefused(c: Ctx, k: Kind, s: Item, io: bool, told: bool)
    requires Ready(c, k, s)
    requires k.Dry? ==> !io
    ensures Ready(c, k, ReportRefused(c, s, io, told))
    ensures Steady(c, s, ReportRefused(c, s, io, told))
  {
    hide Ready, Log, Comment;
    KeepLog(c, k, s);
    if told {
      KeepComment(c, k, Log(c, s).s, io);
    }
  }

  lemma KeepFireOrClear(c: Ctx, k: Kind, s: Item, io: bool, rule: Rule, told: bool)
    requires Ready(c, k, s)
    requires rule.run.Some? ==> FireOk(k, s, io, rule.run.value)
    requires k.Dry? ==> !io
    requires k.Quiet? ==> Tally(s.trace, Matches) > k.n
    ensures var t := FireOrClear(c, s, io, rule, told);
      Ready(c, k, t.s) && Steady(c, s, t.s) && (NoFailures(c) ==> t.Ret?)
  {
    hide Ready, FireWatched, FireUnwatched, ReportRefused, IsWatched;
    match rule.run
    case None => KeepDisarm(c, k, s);
    case Some(run) =>
      KeepFireWatched(c, k, s, io, run, false, false);
      KeepFireUnwatched(c, k, s, io, run, false);
      KeepReportRefused(c, k, FireRule(c, s, io, rule, run).s, io, told);
  }

  /** What applying an event must find for each kind. */
  predicate EventOk(c: Ctx, k: Kind, s: Item, e: Event, cl: set<Label>) {
    && (k.Released? && e.LabelledAutoReleasing? ==> s.releaseMerged.None?)
    && (Hands(k) ==> Own(e, cl) || RuleFor(cl, e).None?)
    && (OfStuck(k) && e.WatchdogExpired? && c.Enforced(e) && s.reworkExpired ==> Running(s, ReworkLoop))
    && (k.Handless? ==> !HandOut(e) || RuleFor(cl, e).None?)
  }

  /** The labels a handler goes by, against the ones really on: the same where
      nobody else edits any, the same about ai-stuck where nobody touches that. */
  predicate Reads(k: Kind, s: Item, cl: set<Label>) {
    && (Hands(k) || k.Still? || k.Address? ==> cl == s.labels)
    && (OfStuck(k) ==> (AiStuck in cl <==> AiStuck in s.labels))
  }

  lemma OnlyReleaseLabelFiresRelease(s: State, e: Event)
    requires Decide(s, e).Some? && Decide(s, e).value.run == Some(AutoReleaseLoop)
    ensures e == LabelledAutoReleasing
  {
    hide Decide;
    DecisionsAreRegular(s, e);
  }

  lemma RuleForNames(cl: set<Label>, e: Event)
    requires RuleFor(cl, e).Some?
    ensures DeriveState(Before(cl, e)) == Clear(RuleFor(cl, e).value.from) && RuleFor(cl, e).value.on == e
    ensures Decide(RuleFor(cl, e).value.from, e) == RuleFor(cl, e)
    ensures RuleFor(cl, e).value.run == Some(AutoReleaseLoop) ==> e == LabelledAutoReleasing
  {
    hide Decide, DeriveState;
    var s := DeriveState(Before(cl, e)).state;
    DecisionNames(s, e);
    if RuleFor(cl, e).value.run == Some(AutoReleaseLoop) {
      OnlyReleaseLabelFiresRelease(s, e);
    }
  }

  lemma KeepRuleCalls(c: Ctx, k: Kind, s: Item, rule: Rule, cl: set<Label>, told: bool)
    requires Ready(c, k, s) && CallByCall(k) && !UntilMatch(k)
    requires k.Released? && rule.run == Some(AutoReleaseLoop) ==> s.releaseMerged.None?
    ensures Ready(c, k, RuleCalls(c, s, rule, cl, told).s)
  {
    hide Ready, Holds, WriteOps, FireOrClear, Log, LabelOps, Tally;
    var io := c.Enforced(rule.on);
    DryIsShadow(c, k, s);
    var ops := LabelOps(cl, rule);
    KeepWriteOps(c, k, s, io, ops);
    WriteOpsFrame(c, s, io, ops);
    var s1 := WriteOps(c, s, io, ops).s;
    KeepFireOrClear(c, k, s1, io, rule, told);
    KeepLog(c, k, FireOrClear(c, s1, io, rule, told).s);
  }

  lemma KeepRuleCallByCall(c: Ctx, k: Kind, s: Item, rule: Rule, cl: set<Label>, told: bool)
    requires Ready(c, k, s) && CallByCall(k) && !k.Counted? && !k.EntryIs?
    requires k.Released? && rule.run == Some(AutoReleaseLoop) ==> s.releaseMerged.None?
    requires k.Handless? ==> !HandOut(rule.on)
    ensures Ready(c, Opened(k), ApplyRule(c, s, rule, cl, told).s)
  {
    hide Ready, Holds, RuleCalls, Tally;
    var s1 := Marked(s, Matched(rule, PendingRun(s)));
    MatchOpens(c, k, s, rule);
    KeepRuleCalls(c, Opened(k), s1, rule, cl, told);
    var t := RuleCalls(c, s1, rule, cl, told).s;
    KeepMark(c, Opened(k), t, AppliedMark(rule.on, t.calls));
  }

  lemma DryIsShadow(c: Ctx, k: Kind, s: Item)
    requires Ready(c, k, s)
    ensures k.Dry? ==> !c.mode
  {
  }

  // --- the labels a rule leaves ---

  /** The label sets a list of label calls passes through. */
  predicate PassesThrough(labels: set<Label>, ops: seq<LabelOp>, t: set<Label>)
    decreases |ops|
  {
    t == labels || (ops != [] && PassesThrough(Do(labels, ops[0]), ops[1..], t))
  }

  lemma WriteOpLabels(c: Ctx, s: Item, io: bool, op: LabelOp)
    requires NoEdits(c)
    ensures var st := WriteOp(c, s, io, op);
      && (!io ==> st.Ret? && st.s.labels == s.labels)
      && (io && st.Ret? ==> st.s.labels == Do(s.labels, op))
      && (st.s.labels == s.labels || st.s.labels == Do(s.labels, op))
      && (NoFailures(c) ==> st.Ret?)
  {
  }

  lemma {:induction false} WriteOpsLabels(c: Ctx, s: Item, io: bool, ops: seq<LabelOp>)
    requires NoEdits(c)
    ensures var st := WriteOps(c, s, io, ops);
      && (!io ==> st.Ret? && st.s.labels == s.labels)
      && (io && st.Ret? ==> st.s.labels == DoAll(s.labels, ops))
      && PassesThrough(s.labels, ops, st.s.labels)
      && (NoFailures(c) ==> st.Ret?)
    decreases |ops|
  {
    hide WriteOp, Do;
    if ops != [] {
      WriteOpLabels(c, s, io, ops[0]);
      var st := WriteOp(c, s, io, ops[0]);
      if st.Ret? {
        WriteOpsLabels(c, st.s, io, ops[1..]);
      }
    }
  }

  /** The labels while a rule's calls are made: as they were, with the rule's
      own state off, or as it leaves them. */
  predicate Between(cl: set<Label>, rule: Rule, t: set<Label>) {
    t == cl || t == After(cl, rule) || (!rule.to.Noop? && !rule.to.Close? && rule.from.At? && t == cl - {rule.from.lane})
  }

  lemma OpsStayBetween(cl: set<Label>, rule: Rule, t: set<Label>)
    requires PassesThrough(cl, LabelOps(cl, rule), t)
    ensures Between(cl, rule, t)
  {
    var ops := LabelOps(cl, rule);
    OpsReachAfter(cl, rule);
    if ops != [] && t != cl {
      var rest := Do(cl, ops[0]);
      assert PassesThrough(rest, ops[1..], t);
      if |ops| == 2 && t != rest {
        assert ops[1..][0] == ops[1] && ops[1..][1..] == [];
        assert PassesThrough(Do(rest, ops[1]), [], t);
        assert ops[1..] == [ops[1]];
        assert DoAll(rest, ops[1..]) == DoAll(Do(rest, ops[1]), []);
      }
    }
  }

  lemma RuleCallsLabels(c: Ctx, s: Item, rule: Rule, cl: set<Label>, told: bool)
    requires NoEdits(c)
    ensures var st := RuleCalls(c, s, rule, cl, told);
      && (!c.Enforced(rule.on) ==> st.s.labels == s.labels)
      && (c.Enforced(rule.on) && st.Ret? ==> st.s.labels == DoAll(s.labels, LabelOps(cl, rule)))
      && PassesThrough(s.labels, LabelOps(cl, rule), st.s.labels)
      && (NoFailures(c) ==> st.Ret?)
      && (st.Ret? && rule.run.None? ==> st.s.pending.None?)
  {
    hide WriteOps, FireOrClear, Log, LabelOps, DoAll, PassesThrough, Holds;
    var io := c.Enforced(rule.on);
    var ops := LabelOps(cl, rule);
    WriteOpsLabels(c, s, io, ops);
    var w := WriteOps(c, s, io, ops);
    if w.Ret? {
      FireLabels(c, w.s, io, rule, told);
      var f := FireOrClear(c, w.s, io, rule, told);
      LogLabels(c, f.s);
    }
  }

  lemma LogLabels(c: Ctx, s: Item)
    requires NoEdits(c)
    ensures Log(c, s).s.labels == s.labels && Log(c, s).s.pending == s.pending
    ensures NoFailures(c) ==> Log(c, s).Ret?
  {
  }

  lemma FireLabels(c: Ctx, s: Item, io: bool, rule: Rule, told: bool)
    requires NoEdits(c)
    ensures var st := FireOrClear(c, s, io, rule, told);
      && st.s.labels == s.labels
      && (NoFailures(c) ==> st.Ret?)
      && (rule.run.None? ==> st.s.pending.None?)
  {
    hide FireWatched, FireUnwatched, ReportRefused;
    KeepFireOrClear(c, Loose, s, io, rule, told);
  }

  // --- runs in which only the Worker moves labels ---

  /** An event nobody's label edit raised: not a label's own event, but for a
      review hand-off to an item with nothing else tracked. */
  predicate Own(e: Event, cl: set<Label>) {
    JustAdded(e).None? || (e.LabelledAiReviewing? && Before(cl, e) == {})
  }

  /** No rule of the Worker's own makes the merge-blocked and auto-merging pair. */
  lemma OwnRulesKeepApart(cl: set<Label>, e: Event, t: set<Label>)
    requires cl != {MergeBlocked, AutoMerging}
    requires Own(e, cl) && RuleFor(cl, e).Some? && Between(cl, RuleFor(cl, e).value, t)
    ensures t != {MergeBlocked, AutoMerging}
  {
    hide Decide, DeriveState;
    var rule := RuleFor(cl, e).value;
    RuleForNames(cl, e);
    ReadingMeans(Before(cl, e));
    OwnTargets(rule.from, e);
    if rule.from == At(AiStuck) && cl != {AiStuck} {
      StuckPair(cl);
    }
  }

  lemma StuckPair(cl: set<Label>)
    requires DeriveState(cl) == Clear(At(AiStuck)) && cl != {AiStuck}
    ensures exists y :: y != AiStuck && cl == {AiStuck, y}
  {
    ReadingMeans(cl);
    if |cl| == 1 {
      OnlyMember(cl);
    } else {
      var y :| y in cl && y != AiStuck;
      PairIs(cl, AiStuck, y);
    }
  }

  /** Where the Worker's own events lead to the two labels of the pair. */
  lemma OwnTargets(s: State, e: Event)
    requires Decide(s, e).Some? && (JustAdded(e).None? || e.LabelledAiReviewing?)
    ensures Decide(s, e).value.to == ToLabel(MergeBlocked) ==> s == At(AutoMerging)
    ensures Decide(s, e).value.to == ToLabel(AutoMerging) ==> s == At(AutoReworking)
    ensures Decide(s, e).value.to == Unlabel ==> s.At?
  {
    hide Decide;
    DecisionsAreRegular(s, e);
  }

  /** A PR the review passed moves on only by a person's label, or closes. */
  lemma PassedStays(cl: set<Label>, e: Event, t: set<Label>)
    requires Passed(cl) && Own(e, cl) && RuleFor(cl, e).Some? && Between(cl, RuleFor(cl, e).value, t)
    ensures t == cl && !HandOut(e) && e != ReviewPassed
  {
    hide Decide, DeriveState;
    RuleForNames(cl, e);
    ReadingMeans(cl);
    PassedRules(e);
  }

  lemma PassedIsNoHandOut(e: Event)
    requires HandOut(e) || e.ReviewPassed?
    ensures Decide(At(ReadyForReview), e).None?
  {
  }

  lemma PassedRules(e: Event)
    requires Decide(At(ReadyForReview), e).Some? && JustAdded(e).None?
    ensures Decide(At(ReadyForReview), e).value.to == Close && !HandOut(e) && e != ReviewPassed
  {
    hide Decide;
    DecisionsAreRegular(At(ReadyForReview), e);
    if HandOut(e) || e.ReviewPassed? {
      PassedIsNoHandOut(e);
    }
  }

  lemma ReviewPassedRule(s: State)
    requires Decide(s, ReviewPassed).Some?
    ensures Decide(s, ReviewPassed).value.to == ToLabel(ReadyForReview)
    ensures s == At(AiReviewing) || s == At(AiStuck)
  {
  }

  lemma ReviewPassedPasses(cl: set<Label>)
    requires RuleFor(cl, ReviewPassed).Some?
    ensures Passed(After(cl, RuleFor(cl, ReviewPassed).value))
  {
    hide Decide, DeriveState, RuleFor, Passed;
    var rule := RuleFor(cl, ReviewPassed).value;
    RuleForNames(cl, ReviewPassed);
    ReviewPassedRule(rule.from);
    ReadingMeans(cl);
    BesideReady(ReadyForReview);
    assert {ReadyForReview, ReadyForReview} == {ReadyForReview};
    if rule.from == At(AiStuck) && cl != {AiStuck} {
      StuckPair(cl);
      var y :| y != AiStuck && cl == {AiStuck, y};
      BesideReady(y);
    } else {
      assert After(cl, rule) == {ReadyForReview};
    }
  }

  lemma BesideReady(y: Label)
    requires y != AiStuck
    ensures {AiStuck, y} - {AiStuck} + {ReadyForReview} == {y, ReadyForReview} && Passed({y, ReadyForReview})
  {
    hide DeriveState;
    if y == ReadyForReview {
      assert {y, ReadyForReview} == {ReadyForReview};
      ReadingMeans({ReadyForReview});
    } else {
      PairReading(y, ReadyForReview);
    }
  }

  lemma LoneStays(cl: set<Label>, e: Event, t: set<Label>)
    requires |cl| <= 1 && Own(e, cl) && RuleFor(cl, e).Some? && Between(cl, RuleFor(cl, e).value, t)
    ensures |t| <= 1
  {
    hide Decide, DeriveState;
    var rule := RuleFor(cl, e).value;
    RuleForNames(cl, e);
    DecisionTargets(rule.from, e);
    SmallReading(Before(cl, e));
    if e.LabelledAiReviewing? {
      assert cl <= {AiReviewing};
    }
  }

  /** What becomes of a kind when an event has been applied: `matched` says its
      rule was found, `done` that nothing threw. */
  function AfterApply(k: Kind, e: Event, matched: bool, done: bool): Kind {
    if !matched then k
    else if k.Budget? && done && HandOut(e) then Budget(k.b + 1)
    else if k.Budget? && done && e == ReviewPassed then Spent(k.b)
    else if k.StuckBy? && e == ReworkCapReached then StuckOwed
    else Opened(k)
  }

  /** A matched rule's effect on the labels. */
  lemma RuleLabels(c: Ctx, s: Item, e: Event, cl: set<Label>, told: bool)
    requires NoEdits(c) && cl == s.labels && RuleFor(cl, e).Some?
    ensures var rule := RuleFor(cl, e).value; var st := ApplyRule(c, s, rule, cl, told);
      && Between(cl, rule, st.s.labels)
      && (st.Ret? && c.Enforced(e) ==> st.s.labels == After(cl, rule))
      && (NoFailures(c) ==> st.Ret?)
      && (st.Ret? && rule.run.None? ==> st.s.pending.None?)
  {
    hide RuleCalls, RuleFor, LabelOps, Between, PassesThrough, DoAll, After, NoEdits, StuckFree, NoFailures;
    var rule := RuleFor(cl, e).value;
    RuleForNames(cl, e);
    var s1 := Marked(s, Matched(rule, PendingRun(s)));
    RuleCallsLabels(c, s1, rule, cl, told);
    OpsStayBetween(cl, rule, RuleCalls(c, s1, rule, cl, told).s.labels);
    OpsReachAfter(cl, rule);
  }

  /** Its effect on the counters, and on the counts of hand-outs and verdicts. */
  lemma RuleCounts(c: Ctx, s: Item, rule: Rule, cl: set<Label>, told: bool)
    ensures var st := ApplyRule(c, s, rule, cl, told);
      && Framed(s, st.s)
      && Tally(st.s.trace, HandOuts) == Tally(s.trace, HandOuts) + (if st.Ret? && HandOut(rule.on) then 1 else 0)
      && Tally(st.s.trace, Verdicts) == Tally(s.trace, Verdicts) + (if st.Ret? && rule.on.ReviewPassed? then 1 else 0)
  {
    hide RuleCalls, Framed, Tally;
    var s1 := Marked(s, Matched(rule, PendingRun(s)));
    RuleTally(c, s, rule, cl, told, HandOuts);
    RuleTally(c, s, rule, cl, told, Verdicts);
    RuleCallsFrame(c, s1, rule, cl, told);
    var t := RuleCalls(c, s1, rule, cl, told).s;
    MarkFrames(s, Matched(rule, PendingRun(s)), s1, t, AppliedMark(rule.on, t.calls));
  }

  lemma MarkFrames(s: Item, m: Mark, s1: Item, t: Item, n: Mark)
    requires s1 == Marked(s, m) && Framed(s1, t)
    ensures Framed(s, t) && Framed(s, Marked(t, n))
  {
  }

  lemma RuleTally(c: Ctx, s: Item, rule: Rule, cl: set<Label>, told: bool, tag: Tag)
    requires tag.HandOuts? || tag.Verdicts?
    ensures var st := ApplyRule(c, s, rule, cl, told);
      Tally(st.s.trace, tag) == Tally(s.trace, tag) + if st.Ret? && Is(AppliedMark(rule.on, 0), tag) then 1 else 0
  {
    hide RuleCalls, Tally;
    var m := Matched(rule, PendingRun(s));
    var s1 := Marked(s, m);
    TallyGrows(s.trace, m, tag);
    KeepRuleCalls(c, Counted(tag, Tally(s.trace, tag)), s1, rule, cl, told);
    var t := RuleCalls(c, s1, rule, cl, told).s;
    TallyGrows(t.trace, AppliedMark(rule.on, t.calls), tag);
  }

  lemma FramedLeft(c: Ctx, s: Item, t: Item)
    requires Framed(s, t)
    ensures Left(c, s) == Left(c, t) && Attempts(s) == Attempts(t) && BotRounds(s) == BotRounds(t)
  {
  }

  lemma HandsHold(c: Ctx, k: Kind, s: Item, t: Item, e: Event, cl: set<Label>, done: bool)
    requires Ready(c, k, s) && Hands(k) && cl == s.labels && Own(e, cl) && RuleFor(cl, e).Some?
    requires Between(cl, RuleFor(cl, e).value, t.labels)
    requires done && c.Enforced(e) ==> t.labels == After(cl, RuleFor(cl, e).value)
    requires Framed(s, t)
    requires Tally(t.trace, HandOuts) == Tally(s.trace, HandOuts) + if done && HandOut(e) then 1 else 0
    requires Tally(t.trace, Verdicts) == Tally(s.trace, Verdicts) + if done && e.ReviewPassed? then 1 else 0
    ensures Ready(c, AfterApply(k, e, true, done), t)
  {
    hide RuleFor, DeriveState, Own, Between, After, Tally, NoEdits, StuckFree, NoFailures, Passed, Framed, Left;
    FramedLeft(c, s, t);
    HandsLabels(k, cl, e, t.labels, c.Enforced(e) && done);
  }

  lemma KeepRuleHands(c: Ctx, k: Kind, s: Item, e: Event, cl: set<Label>, told: bool)
    requires Ready(c, k, s) && Hands(k)
    requires cl == s.labels && Own(e, cl) && RuleFor(cl, e).Some?
    ensures var st := ApplyRule(c, s, RuleFor(cl, e).value, cl, told);
      Ready(c, AfterApply(k, e, true, st.Ret?), st.s)
  {
    hide ApplyRule, RuleFor, Own, Between, After, Holds, Framed;
    NoEditsFor(c, k);
    RuleForNames(cl, e);
    RuleLabels(c, s, e, cl, told);
    RuleCounts(c, s, RuleFor(cl, e).value, cl, told);
    var st := ApplyRule(c, s, RuleFor(cl, e).value, cl, told);
    HandsHold(c, k, s, st.s, e, cl, st.Ret?);
  }

  lemma NoEditsFor(c: Ctx, k: Kind)
    requires WorldOk(c, k) && Hands(k)
    ensures NoEdits(c) && c.mode
  {
  }

  /** The labels side of KeepRuleHands. */
  lemma HandsLabels(k: Kind, cl: set<Label>, e: Event, t: set<Label>, done: bool)
    requires Hands(k) && Own(e, cl) && RuleFor(cl, e).Some? && Between(cl, RuleFor(cl, e).value, t)
    requires done ==> t == After(cl, RuleFor(cl, e).value)
    requires k.Budget? || k.Verdict? ==> cl != {MergeBlocked, AutoMerging}
    requires k.Spent? || k.Finished? ==> Passed(cl)
    requires k.Lone? ==> |cl| <= 1
    ensures k.Budget? || k.Verdict? ==> t != {MergeBlocked, AutoMerging}
    ensures Passed(cl) ==> t == cl && !HandOut(e) && e != ReviewPassed
    ensures done && e == ReviewPassed ==> Passed(t)
    ensures k.Lone? ==> |t| <= 1
  {
    hide RuleFor, DeriveState, Own, Between, After;
    if k.Budget? || k.Verdict? {
      OwnRulesKeepApart(cl, e, t);
    }
    if Passed(cl) {
      PassedStays(cl, e, t);
    }
    if done && e == ReviewPassed {
      ReviewPassedPasses(cl);
    }
    if k.Lone? {
      LoneStays(cl, e, t);
    }
  }

  // --- runs in which nobody touches ai-stuck by hand ---

  lemma OnlyTheseReachStuck(s: State, e: Event)
    requires Decide(s, e).Some?
    ensures Decide(s, e).value.to == ToLabel(AiStuck) ==>
      (e.WatchdogExpired? || e.ReworkCapReached?) && Decide(s, e).value.run.None? && s != At(AiStuck)
    ensures s == At(AiStuck) && (Decide(s, e).value.to.Noop? || Decide(s, e).value.to.Close?) ==> Decide(s, e).value.run.None?
  {
    hide Decide;
    DecisionsAreRegular(s, e);
  }

  /** Labels holding ai-stuck read as ai-stuck, or as too many to tell. */
  lemma StuckReads(cl: set<Label>, e: Event)
    requires RuleFor(cl, e).Some?
    ensures AiStuck in cl <==> RuleFor(cl, e).value.from == At(AiStuck)
  {
    hide Decide, DeriveState;
    RuleForNames(cl, e);
    ReadingMeans(Before(cl, e));
  }

  /** A rule puts ai-stuck on, takes it off, or leaves it. */
  lemma OpsOnStuck(labels: set<Label>, cl: set<Label>, rule: Rule)
    requires AiStuck in labels <==> AiStuck in cl
    requires rule.from != At(AiStuck) || rule.to != ToLabel(AiStuck)
    ensures AiStuck in DoAll(labels, LabelOps(cl, rule)) <==>
      rule.to == ToLabel(AiStuck)
      || (AiStuck in cl && (rule.to.Noop? || rule.to.Close? || rule.from != At(AiStuck)))
  {
    var ops := LabelOps(cl, rule);
    if |ops| == 2 {
      assert ops == [ops[0], ops[1]];
      assert ops[1..] == [ops[1]] && ops[1..][1..] == [];
      var rest := Do(labels, ops[0]);
      assert DoAll(rest, ops[1..]) == DoAll(Do(rest, ops[1]), []);
      assert DoAll(labels, ops) == Do(rest, ops[1]);
    } else if |ops| == 1 {
      assert ops[1..] == [];
      assert DoAll(labels, ops) == Do(labels, ops[0]);
    } else {
      assert ops == [];
    }
  }

  lemma {:induction false} DoAllOnStuck(a: set<Label>, b: set<Label>, ops: seq<LabelOp>)
    requires AiStuck in a <==> AiStuck in b
    ensures AiStuck in DoAll(a, ops) <==> AiStuck in DoAll(b, ops)
    decreases |ops|
  {
    if ops != [] {
      DoAllOnStuck(Do(a, ops[0]), Do(b, ops[0]), ops[1..]);
    }
  }

  lemma WriteOpOnStuck(c: Ctx, s: Item, io: bool, op: LabelOp)
    requires StuckFree(c) && NoFailures(c)
    ensures var st := WriteOp(c, s, io, op);
      st.Ret? && (AiStuck in st.s.labels <==> AiStuck in if io then Do(s.labels, op) else s.labels)
  {
  }

  lemma {:induction false} WriteOpsOnStuck(c: Ctx, s: Item, io: bool, ops: seq<LabelOp>)
    requires StuckFree(c) && NoFailures(c)
    ensures var st := WriteOps(c, s, io, ops);
      st.Ret? && (AiStuck in st.s.labels <==> AiStuck in if io then DoAll(s.labels, ops) else s.labels)
    decreases |ops|
  {
    hide WriteOp, Do, StuckFree, NoFailures;
    if ops != [] {
      WriteOpOnStuck(c, s, io, ops[0]);
      var s1 := WriteOp(c, s, io, ops[0]).s;
      WriteOpsOnStuck(c, s1, io, ops[1..]);
      if io {
        DoAllOnStuck(s1.labels, Do(s.labels, ops[0]), ops[1..]);
      }
    }
  }

  lemma LogOnStuck(c: Ctx, s: Item)
    requires StuckFree(c) && NoFailures(c)
    ensures var st := Log(c, s); st.Ret? && (AiStuck in st.s.labels <==> AiStuck in s.labels) && st.s.pending == s.pending
  {
  }

  lemma FireOnStuck(c: Ctx, s: Item, io: bool, rule: Rule, told: bool)
    requires StuckFree(c) && NoFailures(c)
    ensures var st := FireOrClear(c, s, io, rule, told);
      && st.Ret? && (AiStuck in st.s.labels <==> AiStuck in s.labels)
      && (rule.run.None? ==> st.s.pending.None?)
  {
    hide FireWatched, FireUnwatched, ReportRefused, NoFailures, StuckFree, NoEdits;
    KeepFireOrClear(c, Loose, s, io, rule, told);
  }

  /** A matched rule's calls, whatever other labels people edit meanwhile. */
  lemma RuleCallsOnStuck(c: Ctx, s: Item, rule: Rule, cl: set<Label>, told: bool)
    requires StuckFree(c) && NoFailures(c)
    ensures var st := RuleCalls(c, s, rule, cl, told);
      && st.Ret?
      && (AiStuck in st.s.labels <==> AiStuck in if c.Enforced(rule.on) then DoAll(s.labels, LabelOps(cl, rule)) else s.labels)
      && (rule.run.None? ==> st.s.pending.None?)
  {
    hide WriteOps, FireOrClear, Log, LabelOps, DoAll, StuckFree, NoFailures;
    var io := c.Enforced(rule.on);
    WriteOpsOnStuck(c, s, io, LabelOps(cl, rule));
    var w := WriteOps(c, s, io, LabelOps(cl, rule)).s;
    FireOnStuck(c, w, io, rule, told);
    LogOnStuck(c, FireOrClear(c, w, io, rule, told).s);
  }

  /** The labels and the fire a matched rule leaves, as far as ai-stuck goes. */
  lemma RuleOnStuck(c: Ctx, s: Item, e: Event, cl: set<Label>, told: bool)
    requires StuckFree(c) && NoFailures(c) && c.mode && RuleFor(cl, e).Some?
    requires AiStuck in cl <==> AiStuck in s.labels
    requires StuckIsIdle(s)
    ensures var rule := RuleFor(cl, e).value; var st := ApplyRule(c, s, rule, cl, told);
      && st.Ret?
      && StuckIsIdle(st.s)
      && (AiStuck in st.s.labels <==>
          (rule.to == ToLabel(AiStuck) && c.Enforced(e))
          || (AiStuck in s.labels && (rule.to.Noop? || rule.to.Close? || !c.Enforced(e))))
  {
    hide RuleCalls, RuleFor, LabelOps, DoAll, StuckFree, NoFailures, Decide;
    var rule := RuleFor(cl, e).value;
    RuleForNames(cl, e);
    var s1 := Marked(s, Matched(rule, PendingRun(s)));
    RuleCallsOnStuck(c, s1, rule, cl, told);
    StuckReads(cl, e);
    OnlyTheseReachStuck(rule.from, e);
    OpsOnStuck(s.labels, cl, rule);
    if !c.Enforced(e) {
      ShadowRulesRunNothing(c, rule.from, e);
    }
  }

  /** Under the mode switch only the watchdog's own rules are ever shadow. */
  lemma ShadowRulesRunNothing(c: Ctx, s: State, e: Event)
    requires Decide(s, e).Some? && c.mode && !c.Enforced(e)
    ensures Decide(s, e).value.run.None?
  {
  }

  /** The last entry into ai-stuck, once a rule has been applied. */
  lemma RuleOnEntry(c: Ctx, s: Item, rule: Rule, cl: set<Label>, told: bool)
    ensures LastEntry(c, ApplyRule(c, s, rule, cl, told).s.trace) ==
      if rule.to == ToLabel(AiStuck) && c.Enforced(rule.on) then Some(Matched(rule, PendingRun(s))) else LastEntry(c, s.trace)
  {
    hide RuleCalls;
    var m := Matched(rule, PendingRun(s));
    var s1 := Marked(s, m);
    assert s1.trace[..|s.trace|] == s.trace;
    var k := EntryIs(LastEntry(c, s1.trace));
    KeepRuleCalls(c, k, s1, rule, cl, told);
    var t := RuleCalls(c, s1, rule, cl, told).s;
    KeepMark(c, k, t, AppliedMark(rule.on, t.calls));
  }

  lemma StuckWorld(c: Ctx, k: Kind, s: Item)
    requires Ready(c, k, s) && OfStuck(k)
    ensures StuckFree(c) && NoFailures(c) && c.mode && StuckIsIdle(s)
  {
    hide NoEdits, StuckFree, NoFailures, LastEntry;
  }

  lemma KeepRuleStuck(c: Ctx, k: Kind, s: Item, e: Event, cl: set<Label>, told: bool)
    requires Ready(c, k, s) && OfStuck(k) && Reads(k, s, cl) && EventOk(c, k, s, e, cl) && RuleFor(cl, e).Some?
    ensures var st := ApplyRule(c, s, RuleFor(cl, e).value, cl, told);
      st.Ret? && Ready(c, AfterApply(k, e, true, st.Ret?), st.s)
  {
    hide ApplyRule, RuleFor, Framed, LastEntry, NoEdits, StuckFree, NoFailures, Decide, Tally, AfterApply, StuckIsIdle;
    var rule := RuleFor(cl, e).value;
    StuckWorld(c, k, s);
    RuleForNames(cl, e);
    OnlyTheseReachStuck(rule.from, e);
    RuleOnStuck(c, s, e, cl, told);
    RuleOnEntry(c, s, rule, cl, told);
    RuleCounts(c, s, rule, cl, told);
    var t := ApplyRule(c, s, rule, cl, told).s;
    FramedExpired(s, t);
    StuckHolds(c, k, s, t, e, rule);
  }

  /** The claim of an expiry, across a rule that put ai-stuck on or took it off. */
  lemma StuckHolds(c: Ctx, k: Kind, s: Item, t: Item, e: Event, rule: Rule)
    requires Ready(c, k, s) && OfStuck(k) && StuckIsIdle(t) && s.reworkExpired == t.reworkExpired && rule.on == e
    requires e.WatchdogExpired? && c.Enforced(e) && s.reworkExpired ==> Running(s, ReworkLoop)
    requires rule.to == ToLabel(AiStuck) ==> e.WatchdogExpired? || e.ReworkCapReached?
    requires AiStuck in t.labels ==> (rule.to == ToLabel(AiStuck) && c.Enforced(e)) || AiStuck in s.labels
    requires LastEntry(c, t.trace) ==
      if rule.to == ToLabel(AiStuck) && c.Enforced(e) then Some(Matched(rule, PendingRun(s))) else LastEntry(c, s.trace)
    ensures Ready(c, AfterApply(k, e, true, true), t)
  {
    hide LastEntry, NoEdits, StuckFree, NoFailures, Tally;
  }

  lemma FramedExpired(s: Item, t: Item)
    requires Framed(s, t)
    ensures s.reworkExpired == t.reworkExpired
  {
  }

  /** Applying any event, for every kind a handler keeps. */
  lemma KeepApply(c: Ctx, k: Kind, s: Item, e: Event, cl: set<Label>, told: bool)
    requires Ready(c, k, s) && Reads(k, s, cl) && EventOk(c, k, s, e, cl) && !k.Counted? && !k.EntryIs?
    ensures var st := ApplyEvent(c, s, e, cl, told);
      Ready(c, AfterApply(k, e, RuleFor(cl, e).Some?, st.Ret?), st.s) && (NoFailures(c) ==> st.Ret?)
  {
    hide Ready, Holds, ApplyRule, RuleFor, NotApplied, Log, Own, NoEdits, StuckFree, NoFailures;
    if RuleFor(cl, e).None? {
      KeepLog(c, k, s);
    } else {
      var rule := RuleFor(cl, e).value;
      RuleForNames(cl, e);
      if Hands(k) {
        KeepRuleHands(c, k, s, e, cl, told);
      } else if OfStuck(k) {
        KeepRuleStuck(c, k, s, e, cl, told);
      } else {
        KeepRuleCallByCall(c, k, s, rule, cl, told);
      }
      RuleReturns(c, s, rule, cl, told);
    }
  }

  lemma RuleReturns(c: Ctx, s: Item, rule: Rule, cl: set<Label>, told: bool)
    ensures NoFailures(c) ==> ApplyRule(c, s, rule, cl, told).Ret?
  {
    hide WriteOps, FireOrClear, Log, LabelOps, NoFailures, Tally;
    var io := c.Enforced(rule.on);
    var s1 := Marked(s, Matched(rule, PendingRun(s)));
    OpsReturn(c, s1, io, LabelOps(cl, rule));
    var s2 := WriteOps(c, s1, io, LabelOps(cl, rule)).s;
    KeepFireOrClear(c, Loose, s2, io, rule, told);
    KeepLog(c, Loose, FireOrClear(c, s2, io, rule, told).s);
  }

  lemma {:induction false} OpsReturn(c: Ctx, s: Item, io: bool, ops: seq<LabelOp>)
    ensures NoFailures(c) ==> WriteOps(c, s, io, ops).Ret?
    decreases |ops|
  {
    hide WriteOp;
    if ops != [] {
      OpReturns(c, s, io, ops[0]);
      OpsReturn(c, WriteOp(c, s, io, ops[0]).s, io, ops[1..]);
    }
  }

  lemma OpReturns(c: Ctx, s: Item, io: bool, op: LabelOp)
    ensures NoFailures(c) ==> WriteOp(c, s, io, op).Ret?
  {
  }

  lemma AppliedMeans(c: Ctx, s: Item, e: Event, cl: set<Label>, told: bool)
    ensures var st := ApplyEvent(c, s, e, cl, told);
      st.Ret? ==> (st.v.Applied? <==> RuleFor(cl, e).Some?) && (st.v.Applied? ==> st.v.rule == RuleFor(cl, e).value)
  {
    hide RuleCalls, RuleFor, Log;
  }

  /** Kept, or opened by the rule that matched. */
  ghost predicate KeptOpen(c: Ctx, k: Kind, st: Step<Result>) {
    && (NoFailures(c) ==> st.Ret?)
    && (st.Ret? && !st.v.Applied? ==> Ready(c, k, st.s))
    && (st.Ret? && st.v.Applied? ==> Ready(c, Opened(k), st.s))
    && (st.Thr? ==> Ready(c, k, st.s) || Ready(c, Opened(k), st.s))
  }

  /** Events with no more to them than their rule. */
  predicate Simple(e: Event) {
    !HandOut(e) && !e.ReviewPassed? && !e.ReworkCapReached? && !e.WatchdogExpired?
  }

  lemma KeepSimple(c: Ctx, k: Kind, s: Item, e: Event, cl: set<Label>, told: bool)
    requires Ready(c, k, s) && Reads(k, s, cl) && EventOk(c, k, s, e, cl) && !k.Counted? && !k.EntryIs?
    requires Simple(e) || RuleFor(cl, e).None?
    ensures KeptOpen(c, k, ApplyEvent(c, s, e, cl, told))
  {
    hide Ready, ApplyEvent, RuleFor, Reads, EventOk;
    KeepApply(c, k, s, e, cl, told);
    AppliedMeans(c, s, e, cl, told);
  }
}
