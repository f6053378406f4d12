// A rework's whole way (worker/src/coordinate/webhook.ts, merge-gate.ts,
// review-gate.ts, routine-signal.ts, reconcile.ts): from the act that hands it
// out, through whatever happens meanwhile, to the push that brings it back.

module HandOuts {
  import opened Wrappers
  import opened Graph
  import opened Labels
  import opened Items
  import opened Apply
  import opened Gates
  import opened Deliveries
  import opened Stages
  import opened Webhook
  import opened Watchdog
  import opened Signals
  import opened Sweeping
  import opened Runs
  import opened Kinds
  import opened Keeps
  import opened GateKeeps
  import opened StageKeeps
  import opened WebhookKeeps
  import opened Termination
  import A = Addresses
  import O = Outcomes

  /** ai-reviewing added to an item that is stuck beside the label its review
      left: the rule takes ai-stuck off, but not the other. */
  predicate Crowded(labels: set<Label>) {
    labels == {AiStuck, AiBlocked, AiReviewing} || labels == {AiStuck, ReadyForReview, AiReviewing}
  }

  /** What a hand-out's act must find for its rework to come back. */
  predicate Addressable(s: Item, e: Event) {
    !Crowded(s.labels) && (e.ReviewFindings? ==> !A.MergeFixPending(s))
  }

  /** A hand-out by `e`, recorded after `at` calls: unless the removal of a
      retry's merge-blocked threw, it leaves the PR in rework, due back at the
      label it was handed out from, exactly if its act found that. */
  predicate Answers(c: Ctx, s: Item, t: Item, e: Event, at: nat) {
    || (e.MergeGateFailedSoft? && A.RemovalThrew(c, s.labels, at))
    || (A.DueBack(t, A.HomeOf(e)) <==> Addressable(s, e))
  }

  predicate OutAs(c: Ctx, s: Item, t: Item, e: Event, at: nat) {
    HandOut(e) && A.OutBy(t, e, at) && Answers(c, s, t, e, at)
  }

  /** So for any hand-out applied since `s`, whatever threw after it. */
  ghost predicate Addressed(c: Ctx, s: Item, t: Item) {
    A.Out(s, t) ==> exists e, at :: OutAs(c, s, t, e, at)
  }

  // --- steps that hand nothing out ---

  lemma OnwardIsAddressed(c: Ctx, s: Item, t: Item)
    ensures A.Onward(s, t) ==> Addressed(c, s, t)
    ensures !A.Out(s, t) ==> Addressed(c, s, t)
  {
  }

  lemma KeptIsAddressed(c: Ctx, s: Item, st: Step<Result>)
    requires KeptOpen(c, A.NoOutSince(s), st)
    ensures Addressed(c, s, st.s)
  {
    hide KeptOpen, A.Onward, Addressed;
    A.KeptOnward(c, s, st);
    OnwardIsAddressed(c, s, st.s);
  }

  lemma ReadyIsAddressed(c: Ctx, s: Item, t: Item)
    requires Ready(c, A.NoOutSince(s), t)
    ensures Addressed(c, s, t)
  {
    hide Ready, A.Onward, Addressed;
    A.NoOutSays(c, s, t);
    OnwardIsAddressed(c, s, t);
  }

  /** An address goes by the labels of the act, and by a pending fix of the
      merge gate. */
  lemma SameStart(c: Ctx, s: Item, s1: Item, t: Item)
    requires s.labels == s1.labels && s.trace == s1.trace && s.ciFix == s1.ciFix && Addressed(c, s1, t)
    ensures Addressed(c, s, t)
  {
    hide A.DueBack, A.OutBy, Tally;
    if A.Out(s, t) {
      var e, at :| OutAs(c, s1, t, e, at);
      assert OutAs(c, s, t, e, at);
    }
  }

  /** The end of a delivery, or of the act around one. */
  lemma CarriedOn(c: Ctx, s: Item, t: Item, u: Item)
    requires Addressed(c, s, t) && A.SamePlace(t, u) && t.trace == u.trace
    ensures Addressed(c, s, u)
  {
    hide A.DueBack, Tally, LastOut;
    if A.Out(s, u) {
      var e, at :| OutAs(c, s, t, e, at);
      A.DueBackSame(t, u, A.HomeOf(e));
      assert OutAs(c, s, u, e, at);
    }
  }

  lemma GlancedSame(c: Ctx, s: Item, t: Item)
    requires Glanced(c, s, t) && NoEdits(c)
    ensures s.labels == t.labels && s.ciFix == t.ciFix && s.trace == t.trace && s.rounds == t.rounds
  {
  }

  lemma PlainOut(c: Ctx, s: Item, i: Input, e: Event, cl: set<Label>, later: Later, restart: bool)
    requires LaterOk(s, later) && !e.WatchdogExpired? && !e.ReworkCapReached? && !e.ReviewPassed?
    requires HandOut(e) ==> RuleFor(cl, e).None?
    ensures Addressed(c, s, Plain(c, s, i, e, cl, later, restart).s)
  {
    hide Ready, Plain, KeptOpen, RuleFor, LaterOk, Addressed;
    A.NoOutYet(c, s);
    NoOutFits(c, s, e, cl);
    KeepPlain(c, A.NoOutSince(s), s, i, e, cl, later, restart);
    KeptIsAddressed(c, s, Plain(c, s, i, e, cl, later, restart));
  }

  lemma NoOutFits(c: Ctx, s: Item, e: Event, cl: set<Label>)
    requires HandOut(e) ==> RuleFor(cl, e).None?
    ensures EventOk(c, A.NoOutSince(s), s, e, cl) && Evented(A.NoOutSince(s))
  {
    hide RuleFor;
  }

  lemma ReworkLabelOut(c: Ctx, s: Item, i: Input, cl: set<Label>)
    ensures Addressed(c, s, OnReworkLabel(c, s, i, cl).s)
  {
    hide Ready, OnReworkLabel, KeptOpen, Addressed;
    A.NoOutYet(c, s);
    KeepReworkLabel(c, A.NoOutSince(s), s, i, cl);
    KeptIsAddressed(c, s, OnReworkLabel(c, s, i, cl));
  }

  lemma ReleaseOut(c: Ctx, s: Item, cl: set<Label>, signal: bool, m: Remark, told: bool)
    ensures Addressed(c, s, ReleaseApprovedStage(c, s, cl, signal, m, told).s)
    ensures Addressed(c, s, PublishedStage(c, s, cl, signal, m, told).s)
    ensures Addressed(c, s, BuiltStage(c, s, cl, signal, m, told).s)
    ensures Addressed(c, s, RetryReleasePublish(c, s, cl, told).s)
  {
    hide Ready, ReleaseApprovedStage, PublishedStage, BuiltStage, RetryReleasePublish, KeptOpen, Addressed;
    var k := A.NoOutSince(s);
    A.NoOutYet(c, s);
    KeepReleaseApproved(c, k, s, cl, signal, m, told);
    KeptIsAddressed(c, s, ReleaseApprovedStage(c, s, cl, signal, m, told));
    KeepPublished(c, k, s, cl, signal, m, told);
    KeptIsAddressed(c, s, PublishedStage(c, s, cl, signal, m, told));
    KeepBuilt(c, k, s, cl, signal, m, told);
    KeptIsAddressed(c, s, BuiltStage(c, s, cl, signal, m, told));
    KeepRetryRelease(c, k, s, cl, told);
    KeptIsAddressed(c, s, RetryReleasePublish(c, s, cl, told));
  }

  lemma MergedOut(c: Ctx, s: Item, cl: set<Label>, shipped: Option<Shipped>, tag: string, told: bool)
    ensures Addressed(c, s, PrMergedStage(c, s, cl, shipped, told).s)
    ensures Addressed(c, s, ReleasedStage(c, s, cl, tag, told).s)
  {
    hide Ready, PrMergedStage, ReleasedStage, KeptOpen, Addressed;
    A.NoOutYet(c, s);
    KeepPrMerged(c, A.NoOutSince(s), s, cl, shipped, told);
    KeptIsAddressed(c, s, PrMergedStage(c, s, cl, shipped, told));
    KeepReleased(c, A.NoOutSince(s), s, cl, tag, told);
    KeptIsAddressed(c, s, ReleasedStage(c, s, cl, tag, told));
  }

  lemma PassedOut(c: Ctx, s: Item, cl: set<Label>, told: bool)
    ensures Addressed(c, s, OnReviewPassed(c, s, cl, told).s)
  {
    hide Ready, OnReviewPassed, KeptOpen, Addressed;
    A.NoOutYet(c, s);
    KeepReviewPassed(c, A.NoOutSince(s), s, cl, told);
    KeptIsAddressed(c, s, OnReviewPassed(c, s, cl, told));
  }

  lemma BlockOut(c: Ctx, s: Item, cl: set<Label>, e: Event, told: bool)
    requires Simple(e) && JustAdded(e).None?
    ensures Addressed(c, s, BlockMerge(c, s, cl, e, told).s)
  {
    hide BlockMerge, Addressed, A.Out;
    A.BlockOnward(c, s, cl, e, told);
    OnwardIsAddressed(c, s, BlockMerge(c, s, cl, e, told).s);
  }

  /** An event that is no hand-out's, and nothing more. */
  lemma EventOut(c: Ctx, s: Item, e: Event, cl: set<Label>, told: bool)
    requires Simple(e)
    ensures Addressed(c, s, ApplyEvent(c, s, e, cl, told).s)
    ensures A.Onward(s, ApplyEvent(c, s, e, cl, told).s)
  {
    hide Ready, ApplyEvent, KeptOpen, Addressed, RuleFor, A.Onward;
    A.NoOutYet(c, s);
    NoOutFits(c, s, e, cl);
    KeepSimple(c, A.NoOutSince(s), s, e, cl, told);
    A.KeptOnward(c, s, ApplyEvent(c, s, e, cl, told));
    OnwardIsAddressed(c, s, ApplyEvent(c, s, e, cl, told).s);
  }

  lemma NoteOut(c: Ctx, s: Item, known: bool)
    ensures Addressed(c, s, NoteOverride(c, s, known).s)
  {
    hide Ready, NoteOverride, KeptOpen, Addressed;
    A.NoOutYet(c, s);
    KeepNote(c, A.NoOutSince(s), s, known);
    KeptIsAddressed(c, s, NoteOverride(c, s, known));
  }

  // --- the gates ---

  lemma FindingsOut(c: Ctx, s: Item, cl: set<Label>, told: bool)
    requires c.mode && NoEdits(c) && cl == s.labels && DeriveState(cl) == Clear(At(AiReviewing))
    ensures Addressed(c, s, TakeFindings(c, s, cl, told).s)
  {
    hide TakeFindings, NoEdits, StuckFree, A.DueBack, A.MergeFixPending, DeriveState, A.OutBy, A.Out;
    ReadingMeans(cl);
    A.FindingsAddress(c, s, cl, told);
    var t := TakeFindings(c, s, cl, told).s;
    if A.Out(s, t) {
      var at :| A.OutBy(t, ReviewFindings, at);
      assert OutAs(c, s, t, ReviewFindings, at);
    }
  }

  /** The review's gate, by the labels its caller goes by. */
  lemma ReviewGateOut(c: Ctx, s: Item, cl: set<Label>, told: bool)
    requires c.mode && NoEdits(c)
    ensures var t := ReviewGate(c, s, cl, told).s;
      A.Out(s, t) ==>
        && (exists at :: A.OutBy(t, ReviewCiFailed, at)) && cl == {AiReviewing}
        && (A.DueBack(t, AiReviewing) <==> s.labels <= {AiReviewing, AutoReworking})
  {
    hide HandReviewToRework, ApplyEvent, Say, Read, NoEdits, StuckFree, A.DueBack, A.OutBy, AnyUnfinished, AnyFailed, A.Onward, Tally,
      Ready, NoFailures, Steady;
    ReadGlances(c, s);
    var s1 := Read(c, s).s;
    GlancedSame(c, s, s1);
    A.ReviewCiAddresses(c, s1, cl, told);
    EventOut(c, s1, ReviewCiPassed, cl, told);
    OnwardIsNotOut(s1, ApplyEvent(c, s1, ReviewCiPassed, cl, told).s);
    A.NoOutYet(c, s);
    KeepLog(c, A.NoOutSince(s), s);
    A.NoOutSays(c, s, Log(c, s).s);
    OnwardIsNotOut(s, Log(c, s).s);
  }

  lemma OnwardFrom(s: Item, s1: Item, t: Item)
    requires s.trace == s1.trace && A.Onward(s1, t)
    ensures A.Onward(s, t)
  {
  }

  lemma OnwardIsNotOut(s: Item, t: Item)
    requires A.Onward(s, t)
    ensures !A.Out(s, t)
  {
  }

  /** The same gate, by the labels really on. */
  lemma ReviewGateAddressed(c: Ctx, s: Item, cl: set<Label>, told: bool)
    requires c.mode && NoEdits(c) && cl == s.labels
    ensures Addressed(c, s, ReviewGate(c, s, cl, told).s)
  {
    hide ReviewGate, NoEdits, StuckFree, A.DueBack, A.OutBy, A.Out;
    ReviewGateOut(c, s, cl, told);
    var t := ReviewGate(c, s, cl, told).s;
    if A.Out(s, t) {
      var at :| A.OutBy(t, ReviewCiFailed, at);
      assert OutAs(c, s, t, ReviewCiFailed, at);
    }
  }

  /** What ai-reviewing's rule leaves on for its gate, whose own labels then
      read as ai-reviewing alone. */
  lemma CrowdedIs(cl: set<Label>)
    requires AiReviewing in cl && RuleFor(cl, LabelledAiReviewing).Some?
    requires cl - {AiStuck, AiBlocked, ReadyForReview} == {AiReviewing}
    ensures After(cl, RuleFor(cl, LabelledAiReviewing).value) <= {AiReviewing, AutoReworking} <==> !Crowded(cl)
  {
    hide Decide, DeriveState;
    var e := LabelledAiReviewing;
    var rule := RuleFor(cl, e).value;
    var before := cl - {AiReviewing};
    RuleForNames(cl, e);
    DecisionTargets(rule.from, e);
    ReadingMeans(before);
    assert cl == before + {AiReviewing};
    if rule.from == At(AiStuck) && before != {AiStuck} {
      StuckPair(before);
      var y :| y != AiStuck && before == {AiStuck, y};
      assert y in cl && y != AiReviewing;
      assert y == AiBlocked || y == ReadyForReview;
      assert cl == {AiStuck, y, AiReviewing} && After(cl, rule) == {y, AiReviewing};
      assert y in After(cl, rule);
    } else if rule.from.At? {
      assert before == {rule.from.lane} && After(cl, rule) == {AiReviewing};
      assert !Crowded(cl) by {
        assert AiStuck in cl ==> before == {AiStuck};
      }
    }
  }

  lemma ReviewLabelOut(c: Ctx, s: Item, cl: set<Label>, told: bool)
    requires c.mode && NoEdits(c) && cl == s.labels
    ensures Addressed(c, s, ReviewLabelOn(c, s, cl, told).s)
  {
    hide ApplyEvent, ReviewGate, RuleFor, After, NoEdits, StuckFree, A.DueBack, A.OutBy, DeriveState, Crowded, A.Onward, Tally, Addressed;
    var e := LabelledAiReviewing;
    var s1 := if DeriveState(cl - {AiReviewing}) == Clear(At(AiStuck))
              then PutExpired(PutCiFix(PutRounds(s, None), None), false) else s;
    A.EventNames(c, s1, e, cl, told);
    EventOut(c, s1, e, cl, told);
    var st := ApplyEvent(c, s1, e, cl, told);
    OnwardFrom(s, s1, st.s);
    OnwardIsAddressed(c, s, st.s);
    A.SameOnward(s, s);
    OnwardIsAddressed(c, s, s);
    if AiReviewing in cl && !Running(s, ReviewLoop) && st.Ret? && st.v.Applied? {
      AppliedLabels(c, s1, e, cl, told);
      GatedOut(c, s, st.s, cl, told);
    }
  }

  /** The gate behind ai-reviewing's own rule. */
  lemma GatedOut(c: Ctx, s: Item, s2: Item, cl: set<Label>, told: bool)
    requires c.mode && NoEdits(c) && cl == s.labels && AiReviewing in cl && A.Onward(s, s2)
    requires RuleFor(cl, LabelledAiReviewing).Some? && s2.labels == After(cl, RuleFor(cl, LabelledAiReviewing).value)
    ensures Addressed(c, s, ReviewGate(c, s2, cl - {AiStuck, AiBlocked, ReadyForReview}, told).s)
  {
    hide ReviewGate, RuleFor, After, NoEdits, StuckFree, A.DueBack, A.OutBy, Crowded, Tally, LastOut;
    var mine := cl - {AiStuck, AiBlocked, ReadyForReview};
    ReviewGateOut(c, s2, mine, told);
    var t := ReviewGate(c, s2, mine, told).s;
    if A.Out(s, t) {
      var at :| A.OutBy(t, ReviewCiFailed, at);
      CrowdedIs(cl);
      assert OutAs(c, s, t, ReviewCiFailed, at);
    }
  }

  lemma AcceptOut(c: Ctx, s: Item, cl: set<Label>, told: bool)
    requires c.mode && NoEdits(c) && cl == s.labels
    ensures Addressed(c, s, AcceptReview(c, s, cl, told).s)
  {
    hide ApplyEvent, ReviewLabelOn, WriteLabel, NoEdits, StuckFree, DeriveState, Drop, Read, Addressed, A.Onward, Ready;
    ReadGlances(c, s);
    var s1 := Read(c, s).s;
    GlancedSame(c, s, s1);
    A.SameOnward(s, s1);
    OnwardIsAddressed(c, s, s1);
    DropsOut(c, s, s1, LabelledAiReviewing);
    EventOut(c, s1, LabelledAiReviewing, cl, told);
    OnwardFrom(s, s1, ApplyEvent(c, s1, LabelledAiReviewing, cl, told).s);
    OnwardIsAddressed(c, s, ApplyEvent(c, s1, LabelledAiReviewing, cl, told).s);
    ReadingMeans(cl);
    if cl == {} {
      assert cl + {AiReviewing} == {AiReviewing} && c.Enforced(LabelledAiReviewing);
      MarkedOut(c, s, s1, told);
    }
  }

  /** The drops a hand-off ends in. */
  lemma DropsOut(c: Ctx, s: Item, s1: Item, e: Event)
    requires s.trace == s1.trace
    ensures forall r :: Addressed(c, s, Drop(c, s1, r).s)
  {
    hide Say, Addressed, A.Onward, Ready, NoFailures, Steady;
    A.NoOutYet(c, s1);
    KeepLog(c, A.NoOutSince(s1), s1);
    A.NoOutSays(c, s1, Log(c, s1).s);
    OnwardFrom(s, s1, Log(c, s1).s);
    OnwardIsAddressed(c, s, Log(c, s1).s);
  }

  lemma MarkedLabels(c: Ctx, s: Item)
    requires NoEdits(c) && s.labels == {}
    ensures var w := WriteLabel(c, s, true, true, AiReviewing); (w.Ret? ==> w.s.labels == {AiReviewing}) && w.s.ciFix == s.ciFix
  {
  }

  /** The Worker's own ai-reviewing, and what comes of it. */
  lemma MarkedOut(c: Ctx, s: Item, s1: Item, told: bool)
    requires c.mode && NoEdits(c) && s.labels == {} == s1.labels && s.trace == s1.trace && s.ciFix == s1.ciFix
    ensures var w := WriteLabel(c, s1, true, true, AiReviewing);
      if w.Thr? then Addressed(c, s, w.s) else Addressed(c, s, ReviewLabelOn(c, w.s, {AiReviewing}, told).s)
  {
    hide ReviewLabelOn, WriteLabel, NoEdits, StuckFree, Addressed, A.Onward, Ready, NoFailures, Steady;
    MarkedLabels(c, s1);
    var w := WriteLabel(c, s1, true, true, AiReviewing);
    A.NoOutYet(c, s1);
    KeepWriteLabel(c, A.NoOutSince(s1), s1, true, true, AiReviewing);
    A.NoOutSays(c, s1, w.s);
    OnwardFrom(s, s1, w.s);
    OnwardIsAddressed(c, s, w.s);
    if w.Ret? {
      ReviewLabelOut(c, w.s, {AiReviewing}, told);
      FromNothing(c, s, w.s, ReviewLabelOn(c, w.s, {AiReviewing}, told).s);
    }
  }

  lemma FromNothing(c: Ctx, s: Item, s1: Item, t: Item)
    requires s.labels == {} && s1.labels == {AiReviewing} && A.Onward(s, s1) && s.ciFix == s1.ciFix && Addressed(c, s1, t)
    ensures Addressed(c, s, t)
  {
    hide A.DueBack, A.OutBy, Tally, LastOut;
    if A.Out(s, t) {
      var e, at :| OutAs(c, s1, t, e, at);
      assert MergeBlocked !in s1.labels && AiStuck !in s1.labels && AiStuck !in s.labels;
      assert !Crowded(s.labels) && !Crowded(s1.labels);
      assert OutAs(c, s, t, e, at);
    }
  }

  lemma ReviewOut(c: Ctx, s: Item, i: Input, cl: set<Label>)
    requires c.mode && NoEdits(c) && cl == s.labels
    ensures Addressed(c, s, OnReviewLabel(c, s, i, cl).s)
  {
    hide AcceptReview, ReviewLabelOn, NoEdits, StuckFree, Addressed, DeriveState, A.Onward;
    AcceptOut(c, s, cl, Told(i));
    ReviewLabelOut(c, s, cl, Told(i));
    A.SameOnward(s, s);
    OnwardIsAddressed(c, s, s);
  }

  lemma SettledSame(c: Ctx, s: Item)
    requires NoEdits(c)
    ensures var t := SettledFacts(c, s).s; t.labels == s.labels && t.trace == s.trace && t.ciFix == s.ciFix
  {
    hide SettledFacts, NoEdits, StuckFree;
    SettledGlances(c, s);
  }

  lemma MergeLabelOut(c: Ctx, s: Item, i: Input, cl: set<Label>)
    requires c.mode && NoEdits(c) && cl == s.labels
    ensures Addressed(c, s, OnMergeLabel(c, s, i, cl).s)
  {
    hide SettledFacts, HandToRework, BlockMerge, Plain, NoEdits, StuckFree, Addressed, HardBlock, DeriveGate, A.Onward, OutAs;
    var s1 := if MergeBlocked in cl then PutCiFix(s, None) else s;
    SettledSame(c, s1);
    var s2 := SettledFacts(c, s1).s;
    A.SameOnward(s, s);
    OnwardIsAddressed(c, s, s);
    A.SameOnward(s, s2);
    OnwardIsAddressed(c, s, s2);
    BlockFrom(c, s, s2, cl, MergeGateFailedHard, Told(i));
    MergeGateFrom(c, s, s2, cl, Told(i));
    PlainFrom(c, s, s2, i, LabelledAutoMerging, cl, NOTHING_LATER);
  }

  lemma BlockFrom(c: Ctx, s: Item, s1: Item, cl: set<Label>, e: Event, told: bool)
    requires s.trace == s1.trace && Simple(e) && JustAdded(e).None?
    ensures Addressed(c, s, BlockMerge(c, s1, cl, e, told).s)
  {
    hide BlockMerge, Tally;
    A.BlockOnward(c, s1, cl, e, told);
  }

  lemma PlainFrom(c: Ctx, s: Item, s1: Item, i: Input, e: Event, cl: set<Label>, later: Later)
    requires s.trace == s1.trace && Simple(e) && LaterOk(s1, later)
    ensures Addressed(c, s, Plain(c, s1, i, e, cl, later, false).s)
  {
    hide Plain, Ready, KeptOpen, Addressed, A.Onward, RuleFor, LaterOk;
    A.NoOutYet(c, s1);
    NoOutFits(c, s1, e, cl);
    KeepPlain(c, A.NoOutSince(s1), s1, i, e, cl, later, false);
    A.KeptOnward(c, s1, Plain(c, s1, i, e, cl, later, false));
    OnwardFrom(s, s1, Plain(c, s1, i, e, cl, later, false).s);
    OnwardIsAddressed(c, s, Plain(c, s1, i, e, cl, later, false).s);
  }

  lemma MergeGateFrom(c: Ctx, s: Item, s1: Item, cl: set<Label>, told: bool)
    requires c.mode && NoEdits(c) && cl == s.labels == s1.labels && s.trace == s1.trace
    ensures Addressed(c, s, HandToRework(c, s1, cl, told).s)
  {
    hide HandToRework, NoEdits, StuckFree, A.DueBack, A.OutBy, Tally, A.RemovalThrew;
    A.MergeGateAddresses(c, s1, cl, told);
    var t := HandToRework(c, s1, cl, told).s;
    if A.Out(s, t) {
      var at :| A.OutBy(t, MergeGateFailedSoft, at) && (A.RemovalThrew(c, cl, at) || A.DueBack(t, AutoMerging));
      assert OutAs(c, s, t, MergeGateFailedSoft, at);
    }
  }

  lemma MergeChecksOut(c: Ctx, s: Item, cl: set<Label>, told: bool)
    requires c.mode && NoEdits(c) && cl == s.labels
    ensures Addressed(c, s, OnMergeChecks(c, s, cl, told).s)
  {
    hide SettledFacts, HandToRework, BlockMerge, ApplyEvent, NoEdits, StuckFree, Addressed, HardBlock, AnyUnfinished, AnyFailed, A.Onward,
      A.SamePlace;
    SettledSame(c, s);
    var s1 := SettledFacts(c, s).s;
    A.SameOnward(s, s1);
    OnwardIsAddressed(c, s, s1);
    BlockFrom(c, s, s1, cl, MergeGateFailedHard, told);
    MergeGateFrom(c, s, s1, cl, told);
    EventOut(c, s1, MergeGatePassed, cl, told);
    var t := ApplyEvent(c, s1, MergeGatePassed, cl, told).s;
    OnwardFrom(s, s1, t);
    OnwardIsAddressed(c, s, t);
    MarkedFired(c, s, t, SettledFacts(c, s));
  }

  lemma MarkedFired(c: Ctx, s: Item, t: Item, f: Step<Facts>)
    requires Addressed(c, s, t)
    ensures f.Ret? ==> Addressed(c, s, t.(mergeFiredFor := f.v.headSha))
  {
    hide Addressed;
    if f.Ret? {
      CarriedOn(c, s, t, t.(mergeFiredFor := f.v.headSha));
    }
  }

  lemma SuiteOut(c: Ctx, s: Item, completed: bool, told: bool)
    requires c.mode && NoEdits(c)
    ensures Addressed(c, s, OnCheckSuite(c, s, completed, told).s)
  {
    hide ReviewGate, OnMergeChecks, NoEdits, StuckFree, Addressed, GetLabels, DeriveState, A.Onward;
    LabelsGlance(c, s);
    var g := GetLabels(c, s);
    GlancedSame(c, s, g.s);
    A.SameOnward(s, s);
    OnwardIsAddressed(c, s, s);
    A.SameOnward(s, g.s);
    OnwardIsAddressed(c, s, g.s);
    if completed && g.Ret? {
      ReviewGateAddressed(c, g.s, g.v, told);
      SameStart(c, s, g.s, ReviewGate(c, g.s, g.v, told).s);
      MergeChecksOut(c, g.s, g.v, told);
      SameStart(c, s, g.s, OnMergeChecks(c, g.s, g.v, told).s);
    }
  }

  // --- the delivery ---

  lemma ReportOut(c: Ctx, s: Item, i: Input, e: Event, cl: set<Label>, m: Remark)
    requires c.mode && NoEdits(c) && cl == s.labels && ReportEvent(e)
    ensures Addressed(c, s, OnReport(c, s, i, e, cl, m).s)
  {
    hide ReleaseApprovedStage, PublishedStage, BuiltStage, BlockMerge, TakeFindings, Plain, OnReviewPassed, NoEdits, StuckFree, Addressed,
      RuleFor, DeriveState;
    match e
    case MergeBlockReported => BlockOut(c, s, cl, MergeBlockReported, Told(i));
    case ReviewFindings =>
      if DeriveState(cl) == Clear(At(AiReviewing)) {
        FindingsOut(c, s, cl, Told(i));
      } else {
        FindingsNeedReview(cl);
        PlainOut(c, s, i, e, cl, NOTHING_LATER, false);
      }
    case ReviewPassed => PassedOut(c, s, cl, Told(i));
    case _ => ReleaseOut(c, s, cl, i.actor.SignalActor?, m, Told(i));
  }

  /** What a delivery's event may be, once its push has been classified. */
  predicate Routable(p: Payload, e: Event) {
    && !e.WatchdogExpired? && !e.ReworkCapReached?
    && (HandOut(e) ==> e.ReviewFindings? && p.Commented?) && (e.ReviewPassed? ==> p.Commented?)
  }

  lemma RouteOut(c: Ctx, s: Item, i: Input, e: Event, cl: set<Label>, later: Later)
    requires c.mode && NoEdits(c) && cl == s.labels && Routable(i.payload, e) && LaterOk(s, later)
    ensures Addressed(c, s, Route(c, s, i, e, cl, later).s)
  {
    hide OnReport, OnReworkLabel, OnReviewLabel, OnMergeLabel, RetryReleasePublish, PrMergedStage, ReleasedStage, Plain, NoEdits, StuckFree,
      Addressed, RuleFor, LaterOk, A.Onward;
    A.SameOnward(s, s);
    OnwardIsAddressed(c, s, s);
    if i.payload.Commented? && ReportEvent(e) {
      ReportOut(c, s, i, e, cl, i.payload.remark);
    } else if e.LabelledAutoReworking? {
      ReworkLabelOut(c, s, i, cl);
    } else if e.LabelledAiReviewing? {
      ReviewOut(c, s, i, cl);
    } else if e.LabelledAutoMerging? {
      MergeLabelOut(c, s, i, cl);
    } else if e.LabelledAutoReleasing? && s.releaseMerged.Some? {
      ReleaseOut(c, s, cl, false, Remark(None, None, false, false, false, false), Told(i));
    } else if i.payload.PrMergedHere? && e.PrMerged? {
      MergedOut(c, s, cl, i.payload.shipped, "", Told(i));
    } else if i.payload.ReleasedHere? && i.payload.tag.Some? && e.Released? {
      MergedOut(c, s, cl, None, i.payload.tag.value, Told(i));
    } else {
      PlainOut(c, s, i, e, cl, later, false);
    }
  }

  lemma EndedEvents(e: Event, reading: Reading, f: Event)
    requires EndsRework(e, reading) && (f == e || (e.ReworkPushed? && (f.CiFixPushed? || f.ReviewFixPushed?)))
    ensures Simple(f) && !ReportEvent(f) && JustAdded(f).None? && !f.PrMerged? && !f.Released?
  {
  }

  lemma ClassifiedOut(c: Ctx, s: Item, i: Input, e: Event, cl: set<Label>)
    requires c.mode && NoEdits(c) && cl == s.labels && Routable(i.payload, e)
    ensures Addressed(c, s, OnEvent(c, s, i, e, cl).s)
  {
    hide EndRework, Route, Drop, NoEdits, StuckFree, Addressed, DeriveState, SameButCounters, LaterOk, EndsRework;
    EndReworkMeans(s, e, cl);
    var p := EndRework(s, e, cl);
    CountersOnly(s, p.s);
    RouteOut(c, p.s, i, p.e, cl, p.later);
    DropsOut(c, s, p.s, e);
    var t := Route(c, p.s, i, p.e, cl, p.later).s;
    if EndsRework(e, DeriveState(cl)) {
      EndedEvents(e, DeriveState(cl), p.e);
      ReturnRoute(c, p.s, i, p.e, cl, p.later);
      PlainFrom(c, s, p.s, i, p.e, cl, p.later);
    } else {
      SameStart(c, s, p.s, t);
    }
  }

  lemma CountersOnly(s: Item, t: Item)
    requires SameButCounters(s, t)
    ensures s.labels == t.labels && s.trace == t.trace
  {
  }

  lemma TranslatedRoutes(p: Payload)
    requires Translate(p).Some?
    ensures Routable(p, Translate(p).value)
  {
    TranslationArises(p);
  }

  lemma TakeOut(c: Ctx, s: Item, i: Input, e: Event)
    requires c.mode && NoEdits(c) && Routable(i.payload, e)
    ensures Addressed(c, s, TakeEvent(c, s, i, e).s)
  {
    hide Counts, GetLabels, OnEvent, NoEdits, StuckFree, Addressed, Routable, A.Onward;
    CountsGlances(c, s, i, e);
    var s1 := Counts(c, s, i, e).s;
    LabelsGlance(c, s1);
    var g := GetLabels(c, s1);
    GlancedSame(c, s, s1);
    GlancedSame(c, s1, g.s);
    A.SameOnward(s, s1);
    A.SameOnward(s, g.s);
    OnwardIsAddressed(c, s, s1);
    OnwardIsAddressed(c, s, g.s);
    if g.Ret? {
      ClassifiedOut(c, g.s, i, e, g.v);
      SameStart(c, s, g.s, OnEvent(c, g.s, i, e, g.v).s);
    }
  }

  lemma ProcessOut(c: Ctx, s: Item, i: Input)
    requires c.mode && NoEdits(c)
    ensures Addressed(c, s, ProcessEvent(c, s, i).s)
  {
    hide OnCheckSuite, TakeEvent, NoteOverride, NoEdits, StuckFree, Addressed, Translate, Human, Routable, A.Onward, Ready, KeptOpen;
    if i.payload.CheckSuite? {
      SuiteOut(c, s, i.payload.completed, Told(i));
    } else {
      BotGlances(c, s);
      var s1 := BotLogin(c, s).s;
      GlancedSame(c, s, s1);
      A.SameOnward(s, s1);
      OnwardIsAddressed(c, s, s1);
      NoteOut(c, s1, HasSnapshot(i.payload));
      SameStart(c, s, s1, NoteOverride(c, s1, HasSnapshot(i.payload)).s);
      if Translate(i.payload).Some? {
        TranslatedRoutes(i.payload);
        TakeOut(c, s1, i, Translate(i.payload).value);
        SameStart(c, s, s1, TakeEvent(c, s1, i, Translate(i.payload).value).s);
      }
    }
  }

  /** What a delivery does once it has been processed: nothing to a hand-out's
      item, whose payload closed nothing; nothing it hands out, otherwise. */
  lemma ClosedOut(c: Ctx, s: Item, t: Item, p: Payload)
    requires Addressed(c, s, t) && (A.Out(s, t) ==> !p.PrClosed? && !p.IssueClosedNow?)
    ensures Addressed(c, s, AfterClose(c, t, p).s)
  {
    hide Addressed, AfterClose, Ready, A.Out, A.Onward;
    if !p.PrClosed? && !p.IssueClosedNow? {
      NothingClosed(c, t, p);
    } else {
      A.NoOutYet(c, t);
      KeepAfterClose(c, A.NoOutSince(t), t, p);
      A.NoOutSays(c, t, AfterClose(c, t, p).s);
      StillNotOut(s, t, AfterClose(c, t, p).s);
      OnwardIsAddressed(c, s, AfterClose(c, t, p).s);
    }
  }

  lemma StillNotOut(s: Item, t: Item, u: Item)
    requires !A.Out(s, t) && A.Onward(t, u)
    ensures !A.Out(s, u)
  {
  }

  lemma NothingClosed(c: Ctx, t: Item, p: Payload)
    requires !p.PrClosed? && !p.IssueClosedNow?
    ensures AfterClose(c, t, p) == Ret(t, ())
  {
  }

  /** A close is an event of its own, and hands nothing out. */
  lemma ClosingEvent(p: Payload)
    requires p.PrClosed? || p.IssueClosedNow?
    ensures Translate(p).Some? ==> Translate(p).value.Merged? || Translate(p).value.IssueClosed?
    ensures !p.CheckSuite? && !p.Commented? && !OnClosedIssue(p)
  {
  }

  lemma ClosingRoute(c: Ctx, s: Item, i: Input, e: Event, cl: set<Label>)
    requires !i.payload.Commented? && (e.Merged? || e.IssueClosed?)
    ensures OnEvent(c, s, i, e, cl) == Plain(c, s, i, e, cl, NOTHING_LATER, false)
  {
    hide Plain, DeriveState;
  }

  lemma ClosingOnward(c: Ctx, s: Item, i: Input)
    requires i.payload.PrClosed? || i.payload.IssueClosedNow?
    ensures !A.Out(s, ProcessEvent(c, s, i).s)
  {
    hide GetLabels, BotLogin, OnEvent, Plain, Translate, Human, NoteOverride, Ready, KeptOpen, RuleFor, Tally, LastOut, Glanced,
      NoFailures;
    var k := A.NoOutSince(s);
    A.NoOutYet(c, s);
    ClosingEvent(i.payload);
    BotGlances(c, s);
    var s1 := BotLogin(c, s).s;
    KeepGlanced(c, k, s, s1);
    A.NoOutSays(c, s, s1);
    KeepNote(c, k, s1, HasSnapshot(i.payload));
    A.KeptOnward(c, s, NoteOverride(c, s1, HasSnapshot(i.payload)));
    if Translate(i.payload).Some? {
      var e := Translate(i.payload).value;
      LabelsGlance(c, s1);
      var g := GetLabels(c, s1);
      KeepGlanced(c, k, s1, g.s);
      A.NoOutSays(c, s, g.s);
      if g.Ret? {
        ClosingRoute(c, g.s, i, e, g.v);
        KeepPlain(c, k, g.s, i, e, g.v, NOTHING_LATER, false);
        A.KeptOnward(c, s, Plain(c, g.s, i, e, g.v, NOTHING_LATER, false));
      }
    }
  }

  lemma WebhookOut(c: Ctx, s: Item, i: Input)
    requires c.mode && NoEdits(c)
    ensures Addressed(c, s, ProcessWebhook(c, s, i).s)
  {
    hide ProcessEvent, NoEdits, StuckFree, Addressed, LogDeduped, AfterClose, SecondCarrier, A.Out, Ready, KeptOpen, A.Onward;
    A.NoOutYet(c, s);
    KeepLogDeduped(c, A.NoOutSince(s), s);
    KeptIsAddressed(c, s, LogDeduped(c, s));
    ProcessOut(c, s, i);
    var e := ProcessEvent(c, s, i);
    if i.payload.PrClosed? || i.payload.IssueClosedNow? {
      ClosingOnward(c, s, i);
    }
    if e.Ret? {
      var t := RememberReport(e.s, s.pending, i.payload, e.v);
      RememberedPlace(e.s, s.pending, i.payload, e.v);
      CarriedOn(c, s, e.s, t);
      StillOut(s, e.s, t);
      ClosedOut(c, s, t, i.payload);
    }
  }

  lemma StillOut(s: Item, t: Item, u: Item)
    requires t.trace == u.trace
    ensures A.Out(s, u) <==> A.Out(s, t)
  {
  }

  lemma RememberedPlace(s: Item, before: Option<Fire>, p: Payload, r: Result)
    ensures var t := RememberReport(s, before, p, r); A.SamePlace(s, t) && t.trace == s.trace
  {
  }

  lemma DeliveryOut(c: Ctx, s: Item, i: Input)
    requires c.mode && NoEdits(c)
    ensures Addressed(c, s, CoordinateWebhook(c, s, i).s)
  {
    hide ProcessWebhook, NoEdits, StuckFree, Addressed, A.Onward;
    A.SameOnward(s, s);
    OnwardIsAddressed(c, s, s);
    WebhookOut(c, s, i);
    var s1 := s.(seen := s.seen + {i.id});
    WebhookOut(c, s1, i);
    var t := ProcessWebhook(c, s1, i).s;
    SameStart(c, s, s1, t);
    CarriedOn(c, s, t, t.(seen := t.seen - {i.id}));
  }

  // --- the signal and the sweep ---

  lemma LogOut(c: Ctx, s: Item)
    ensures Addressed(c, s, Log(c, s).s) && Addressed(c, s, s)
  {
    hide Ready, Say, Addressed, NoFailures, Steady;
    A.NoOutYet(c, s);
    ReadyIsAddressed(c, s, s);
    KeepLog(c, A.NoOutSince(s), s);
    ReadyIsAddressed(c, s, Log(c, s).s);
  }

  lemma SameTraceOut(c: Ctx, s: Item, t: Item)
    requires s.trace == t.trace
    ensures Addressed(c, s, t)
  {
    hide Addressed, A.Onward;
    A.SameOnward(s, t);
    OnwardIsAddressed(c, s, t);
  }

  lemma OutcomeOut(c: Ctx, s: Item, f: Fire, o: O.Outcome, q: bool)
    requires c.mode && NoEdits(c)
    ensures Addressed(c, s, ApplyOutcome(c, s, f, o, q).s)
  {
    hide CoordinateWebhook, NoEdits, StuckFree, Addressed, SignalInput;
    DeliveryOut(c, s, SignalInput(f, o, q));
    CarriedOn(c, s, CoordinateWebhook(c, s, SignalInput(f, o, q)).s, ApplyOutcome(c, s, f, o, q).s);
  }

  lemma BlockedOut(c: Ctx, s: Item, f: Fire)
    ensures Addressed(c, s, NoteBlocked(c, s, f).s)
  {
    hide Addressed, Say, A.Onward;
    var s1 := Arm(c, s, f.(stepped := true, blocked := true));
    SameTraceOut(c, s, s1);
    A.SaidOnward(c, s1, c.mode);
    OnwardFrom(s, s1, Comment(c, s1, c.mode).s);
    OnwardIsAddressed(c, s, Comment(c, s1, c.mode).s);
  }

  lemma LiveOut(c: Ctx, s: Item, f: Fire, sig: Signal)
    requires c.mode && NoEdits(c) && !sig.EndedEarly?
    ensures Addressed(c, s, OnLive(c, s, f, sig).s)
  {
    hide ApplyOutcome, NoteBlocked, EndFire, NoEdits, StuckFree, Addressed;
    match sig
    case Report(_, o, q) => OutcomeOut(c, s, f, o, q);
    case Blocked(_) => BlockedOut(c, s, f);
    case _ => SameTraceOut(c, s, OnLive(c, s, f, sig).s);
  }

  lemma SignalOut(c: Ctx, s: Item, sig: Signal)
    requires c.mode && NoEdits(c) && !sig.EndedEarly?
    ensures Addressed(c, s, OnSignal(c, s, sig).s)
  {
    hide OnLive, NoEdits, StuckFree, Addressed, LogDeduped, Say, AlreadyApplied, Ready, KeptOpen;
    LogOut(c, s);
    A.NoOutYet(c, s);
    KeepLogDeduped(c, A.NoOutSince(s), s);
    KeptIsAddressed(c, s, LogDeduped(c, s));
    if s.pending.Some? {
      LiveOut(c, s, s.pending.value, sig);
    }
  }

  lemma FiredOut(c: Ctx, s: Item, s1: Item, run: Routine)
    requires s.trace == s1.trace
    ensures Addressed(c, s, Refire(c, s1, run).s)
  {
    hide FireWatched, Say, Ready, Addressed, A.Onward, Steady, NoFailures;
    var k := A.NoOutSince(s1);
    A.NoOutYet(c, s1);
    KeepFireWatched(c, k, s1, true, run, false, false);
    var f := FireWatched(c, s1, true, run, false, false).s;
    KeepLog(c, k, f);
    A.NoOutSays(c, s1, f);
    A.NoOutSays(c, s1, Log(c, f).s);
    OnwardFrom(s, s1, f);
    OnwardFrom(s, s1, Log(c, f).s);
    OnwardIsAddressed(c, s, f);
    OnwardIsAddressed(c, s, Log(c, f).s);
  }

  lemma RetriedOut(c: Ctx, s: Item, s1: Item, cl: set<Label>)
    requires s.trace == s1.trace
    ensures Addressed(c, s, RetryMerge(c, s1, cl).s)
  {
    hide ApplyEvent, Say, Ready, Addressed, A.Onward, Steady, NoFailures, KeptOpen, RuleFor;
    var k := A.NoOutSince(s1);
    A.NoOutYet(c, s1);
    NoOutFits(c, s1, LabelledAutoMerging, cl);
    KeepSimple(c, k, s1, LabelledAutoMerging, cl, false);
    var a := ApplyEvent(c, s1, LabelledAutoMerging, cl, false);
    A.KeptOnward(c, s1, a);
    OnwardFrom(s, s1, a.s);
    OnwardIsAddressed(c, s, a.s);
    LogOut(c, a.s);
    A.NoOutYet(c, a.s);
    KeepLog(c, A.NoOutSince(a.s), a.s);
    A.NoOutSays(c, a.s, Log(c, a.s).s);
    OnwardOn(s, a.s, Log(c, a.s).s);
    OnwardIsAddressed(c, s, Log(c, a.s).s);
  }

  lemma OnwardOn(s: Item, t: Item, u: Item)
    requires A.Onward(s, t) && A.Onward(t, u)
    ensures A.Onward(s, u)
  {
  }

  lemma SweepMergeOut(c: Ctx, s: Item, cl: set<Label>, run: Routine)
    requires c.mode && NoEdits(c) && cl == s.labels
    ensures Addressed(c, s, SweepMerge(c, s, cl, run).s)
  {
    hide SettledFacts, HandToRework, BlockMerge, RetryMerge, Refire, NoEdits, StuckFree, Addressed, HardBlock, DeriveGate;
    var s1 := if MergeBlocked in cl then PutCiFix(s, None) else s;
    SettledSame(c, s1);
    var s2 := SettledFacts(c, s1).s;
    SameTraceOut(c, s, s2);
    BlockFrom(c, s, s2, cl, MergeGateFailedHard, false);
    MergeGateFrom(c, s, s2, cl, false);
    RetriedOut(c, s, s2, cl);
    FiredOut(c, s, s2, run);
  }

  lemma SweepIdleOut(
    c: Ctx, s: Item, cl: set<Label>, run: Routine, enforced: bool, budget: bool, last: Option<int>)
    requires c.mode && NoEdits(c) && cl == s.labels
    ensures Addressed(c, s, SweepIdle(c, s, cl, run, enforced, budget, last).s)
  {
    hide ReviewGate, SweepMerge, Refire, NoEdits, StuckFree, Addressed, DeriveState, Say;
    ReviewGateAddressed(c, s, cl, false);
    SweepMergeOut(c, s, cl, run);
    FiredOut(c, s, s, run);
    SameTraceOut(c, s, s);
    var r := s.(reported := Some(last));
    LogOut(c, r);
    SameStart(c, s, r, Log(c, r).s);
  }

  lemma SweepOut(c: Ctx, s: Item, enforced: bool, budget: bool, at: Option<int>)
    requires c.mode && NoEdits(c)
    ensures Addressed(c, s, Reconcile(c, s, enforced, budget, at).s)
  {
    hide GetLabels, Read, SweepRun, SweepIdle, NoEdits, StuckFree, Addressed, Watched;
    SameTraceOut(c, s, s);
    LabelsGlance(c, s);
    var g := GetLabels(c, s);
    GlancedSame(c, s, g.s);
    SameTraceOut(c, s, g.s);
    if !Watched(s) && g.Ret? && SweepRun(g.v, g.s.releaseMerged.Some?).Some? {
      var run := SweepRun(g.v, g.s.releaseMerged.Some?).value;
      ReadGlances(c, g.s);
      var a := Read(c, g.s);
      GlancedSame(c, g.s, a.s);
      SameTraceOut(c, s, a.s);
      if a.Ret? {
        var last := Latest(a.v.at, at);
        SweepIdleOut(c, a.s, g.v, run, enforced, budget, last);
        SameStart(c, s, a.s, SweepIdle(c, a.s, g.v, run, enforced, budget, last).s);
      }
    }
  }

  // --- the whole way ---

  /** The acts a hand-out is made in: a delivery, a signal or the sweep. A
      comment the alarm or an ended run recovers is a delivery within one. */
  predicate HandsOut(a: Act) {
    a.Delivery? || (a.SignalIn? && !a.signal.EndedEarly?) || a.Sweep?
  }

  /** A hand-out that applied in any delivery, signal or sweep, whatever labels
      and counters it starts from and whatever throws after it: the PR is due
      back at the label it was handed out from, unless ai-reviewing was added to
      an item stuck beside its review's own label, or the review found something
      while the merge gate's fix was still pending. */
  lemma HandOutIsAddressed(c: Ctx, s: Item, a: Act)
    requires c.mode && NoEdits(c) && HandsOut(a) && A.Out(s, Handle(c, s, a))
    ensures var t := Handle(c, s, a); var m := LastOut(t.trace);
      m.Some? && m.value.AppliedMark? && HandOut(m.value.on) && Answers(c, s, t, m.value.on, m.value.at)
  {
    hide CoordinateWebhook, OnSignal, Reconcile, NoEdits, StuckFree, A.Out, Answers, LastOut;
    match a {
      case Delivery(i) => DeliveryOut(c, s, i);
      case SignalIn(sig) => SignalOut(c, s, sig);
      case Sweep(enforced, budget, at) => SweepOut(c, s, enforced, budget, at);
    }
    var e, at :| OutAs(c, s, Handle(c, s, a), e, at);
  }

  /** A hand-out that comes back: no removal of a retry's merge-blocked threw, and
      its act found what it needs. */
  predicate ComesBack(c: Ctx, s: Item, m: Option<Mark>) {
    && m.Some? && m.value.AppliedMark? && Addressable(s, m.value.on)
    && !(m.value.on.MergeGateFailedSoft? && A.RemovalThrew(c, s.labels, m.value.at))
  }

  /** The whole way: handed out in such an act, which may then have thrown,
      through any run of the Worker's own in which no rule matches but a shadow
      expiry's, and back on its push to the label it was handed out from. */
  lemma ReworkComesHome(c: Ctx, s: Item, a: Act, acts: seq<Act>, push: Input)
    requires c.mode && NoEdits(c) && HandsOut(a) && A.Out(s, Handle(c, s, a))
    requires ComesBack(c, s, LastOut(Handle(c, s, a).trace))
    requires OwnRun(acts) && A.Rests(c, Handle(c, s, a), acts)
    requires push.payload.Pushed? && (push.id == NoId || push.id !in Run(c, Handle(c, s, a), acts).seen)
    ensures var out := Handle(c, s, a); var t := Run(c, out, acts);
      A.Comes(c, t, CoordinateWebhook(c, t, push), A.PushCalls(c), A.HomeOf(LastOut(out.trace).value.on))
  {
    hide Run, Handle, HandsOut, OwnRun, NoEdits, StuckFree, A.DueBack, CoordinateWebhook, A.Comes, Addressable, A.Rests, A.Out, LastOut;
    HandOutIsAddressed(c, s, a);
    var out := Handle(c, s, a);
    var home := A.HomeOf(LastOut(out.trace).value.on);
    A.AddressStands(c, out, home, acts);
    A.PushReturns(c, Run(c, out, acts), push, home);
  }
}

/** The reworks that do not come home, each at its input. */
module GoneAstray {
  import opened Wrappers
  import opened Graph
  import opened Labels
  import opened Items
  import opened Apply
  import opened Gates
  import opened Deliveries
  import opened Webhook
  import opened Watchdog
  import opened Kinds
  import opened Keeps
  import opened GateKeeps
  import opened HandOuts
  import A = Addresses

  // --- the row after the fire ---

  /** What a hand-out's own handler does with it. */
  function HandedStep(c: Ctx, s: Item, e: Event, told: bool): Step<Result> {
    match e
    case MergeGateFailedSoft => HandToRework(c, s, s.labels, told)
    case ReviewCiFailed => HandReviewToRework(c, s, s.labels, told)
    case _ => TakeFindings(c, s, s.labels, told)
  }

  predicate WithinCap(c: Ctx, s: Item, e: Event) {
    if e.ReviewFindings? then BotRounds(s) + 1 <= c.caps.botReviewReworks else Attempts(s) < c.caps.ciFixAttempts
  }

  /** Its rule's label calls and its fire. */
  function Fired(c: Ctx, s: Item, e: Event, told: bool): Step<()>
    requires RuleFor(s.labels, e).Some?
  {
    var rule := RuleFor(s.labels, e).value;
    var (w, _) :- WriteOps(c, Marked(s, Matched(rule, PendingRun(s))), c.Enforced(e), LabelOps(s.labels, rule));
    FireOrClear(c, w, c.Enforced(e), rule, told)
  }

  lemma HomeRules(e: Event)
    requires HandOut(e)
    ensures RuleFor({A.HomeOf(e)}, e) == Some(Rule(At(A.HomeOf(e)), e, ToLabel(AutoReworking), Some(ReworkLoop)))
  {
    hide DeriveState, Decide;
    ReadingMeans({A.HomeOf(e)});
    HomeDecisions();
  }

  lemma HomeDecisions()
    ensures Decide(At(AutoMerging), MergeGateFailedSoft)
      == Some(Rule(At(AutoMerging), MergeGateFailedSoft, ToLabel(AutoReworking), Some(ReworkLoop)))
    ensures Decide(At(AiReviewing), ReviewCiFailed)
      == Some(Rule(At(AiReviewing), ReviewCiFailed, ToLabel(AutoReworking), Some(ReworkLoop)))
    ensures Decide(At(AiReviewing), ReviewFindings)
      == Some(Rule(At(AiReviewing), ReviewFindings, ToLabel(AutoReworking), Some(ReworkLoop)))
  {
  }

  lemma ReworkIsWatched()
    ensures Decide(At(AutoReworking), WatchdogExpired)
      == Some(Rule(At(AutoReworking), WatchdogExpired, ToLabel(AiStuck), None))
  {
  }

  lemma WatchedRuns(c: Ctx, s: Item, io: bool, run: Routine)
    ensures var st := FireWatched(c, s, io, run, false, false); st.Ret? ==> Running(st.s, run)
  {
    hide Say;
    var s1 := Forget(s, run);
    var s2 := Arm(c, s1, NewFire(s1, run, false, false, None));
    match FireRoutine(c, s2, io, run)
    case Limited(s3, at) =>
      var s4 := Arm(c, s3, NewFire(s3, run, false, false, Some(at + (c.number % 30) * 1000)));
      SayFrames(c, s4, io, CommentWrite(false));
    case _ =>
  }

  lemma FiredRuns(c: Ctx, s: Item, io: bool, rule: Rule, told: bool)
    requires rule.run == Some(ReworkLoop) && rule.to == ToLabel(AutoReworking) && FireOrClear(c, s, io, rule, told).Ret?
    ensures Running(FireOrClear(c, s, io, rule, told).s, ReworkLoop)
  {
    hide FireWatched, Decide;
    ReworkIsWatched();
    WatchedRuns(c, s, io, ReworkLoop);
  }

  /** Once fired, the PR is in rework with its run pending, its counters as they
      were; and the hand-out has applied exactly if its row goes through. */
  lemma FiredMeans(c: Ctx, s: Item, e: Event, told: bool)
    requires c.mode && NoEdits(c) && HandOut(e) && s.labels == {A.HomeOf(e)} && RuleFor(s.labels, e).Some?
    requires Fired(c, s, e, told).Ret?
    ensures var f := Fired(c, s, e, told).s; var st := ApplyEvent(c, s, e, s.labels, told);
      && f.labels == {AutoReworking} && Running(f, ReworkLoop) && Framed(s, f)
      && (st.Ret? <==> !Fails(c, f)) && (st.Ret? ==> st.v.Applied?)
      && (st.Thr? ==> st.s == Log(c, f).s)
  {
    hide WriteOps, FireOrClear, LabelOps, NoEdits, StuckFree, RuleFor, DoAll, PassesThrough, Framed;
    HomeRules(e);
    var rule := RuleFor(s.labels, e).value;
    var s1 := Marked(s, Matched(rule, PendingRun(s)));
    WriteOpsLabels(c, s1, true, LabelOps(s.labels, rule));
    WriteOpsFrame(c, s1, true, LabelOps(s.labels, rule));
    A.SwapOps(s.labels, s.labels, rule, A.HomeOf(e));
    A.LoneSwap(s.labels);
    var w := WriteOps(c, s1, true, LabelOps(s.labels, rule)).s;
    FireLabels(c, w, true, rule, told);
    FireOrClearFrames(c, w, true, rule, told);
    FiredRuns(c, w, true, rule, told);
    FramedOn(s, s1, w, FireOrClear(c, w, true, rule, told).s);
  }

  lemma FramedOn(s: Item, s1: Item, t: Item, u: Item)
    requires s1 == s.(trace := s1.trace) && Framed(s1, t) && Framed(t, u)
    ensures Framed(s, u)
  {
  }

  lemma RowPlace(c: Ctx, s: Item)
    requires NoEdits(c)
    ensures A.SamePlace(s, Log(c, s).s) && Log(c, s).s.pending == s.pending
  {
  }

  /** A hand-out whose label calls and fire went through leaves the PR in
      rework, and due back exactly if its row goes through too: the count is
      written after the row, and if that throws, rework-loop runs with the
      return address as it was. */
  lemma RowDecides(c: Ctx, s: Item, e: Event, told: bool)
    requires c.mode && NoEdits(c) && HandOut(e) && s.labels == {A.HomeOf(e)} && WithinCap(c, s, e)
    requires RuleFor(s.labels, e).Some? && Fired(c, s, e, told).Ret?
    requires AddressOf(s) != Some(A.HomeOf(e)) && (e.ReviewFindings? ==> !A.MergeFixPending(s))
    ensures var t := HandedStep(c, s, e, told).s; var f := Fired(c, s, e, told).s;
      && (A.DueBack(t, A.HomeOf(e)) <==> !Fails(c, f))
      && (Fails(c, f) ==> t.labels == {AutoReworking} && Running(t, ReworkLoop) && AddressOf(t) == AddressOf(s))
  {
    hide ApplyEvent, Fired, Say, WriteLabel, NoEdits, StuckFree, RuleFor, Framed, AddressOf, BlockMerge, CapRework, A.Out, A.OutBy, Fails;
    FiredMeans(c, s, e, told);
    var f := Fired(c, s, e, told).s;
    RowPlace(c, f);
    FramedAddress(s, f);
    A.SameAddress(f, Log(c, f).s);
    A.OutEvent(c, s, e, s.labels, told);
    if !Fails(c, f) {
      HandedHome(c, s, e, told);
    }
  }

  lemma FramedAddress(s: Item, t: Item)
    requires Framed(s, t)
    ensures AddressOf(s) == AddressOf(t)
  {
  }

  lemma HandedHome(c: Ctx, s: Item, e: Event, told: bool)
    requires c.mode && NoEdits(c) && HandOut(e) && s.labels == {A.HomeOf(e)} && WithinCap(c, s, e)
    requires var st := ApplyEvent(c, s, e, s.labels, told); st.Ret? && st.v.Applied?
    requires e.ReviewFindings? ==> !A.MergeFixPending(s)
    ensures A.DueBack(HandedStep(c, s, e, told).s, A.HomeOf(e))
  {
    hide ApplyEvent, Say, WriteLabel, NoEdits, StuckFree, RuleFor, Framed, AddressOf, BlockMerge, CapRework;
    A.SwappedOut(c, s, e, s.labels, told);
    A.LoneSwap(s.labels);
    var u := ApplyEvent(c, s, e, s.labels, told).s;
    if e.MergeGateFailedSoft? {
      NothingWritten(c, u, MergeBlocked);
      var t := PutCiFix(u, Some(CiFix(Attempts(s) + 1, true, false)));
      A.SaidLabels(c, t, true);
      A.FixAddress(t, Comment(c, t, true).s);
    } else if e.ReviewCiFailed? {
      var t := PutCiFix(u, Some(CiFix(Attempts(s) + 1, true, true)));
      A.SaidLabels(c, t, true);
      A.FixAddress(t, Comment(c, t, true).s);
    } else {
      var t := PutRounds(u, Some(Rounds(BotRounds(s) + 1, true)));
      A.SaidLabels(c, t, true);
      A.RoundAddress(s, u, Comment(c, t, true).s);
    }
  }

  /** With nothing pending before, its push then only takes the label off. */
  lemma LostAddressUnlabels(c: Ctx, s: Item, push: Input)
    requires c.mode && NoEdits(c) && s.labels == {AutoReworking} && AddressOf(s).None?
    requires push.payload.Pushed? && (push.id == NoId || push.id !in s.seen)
    ensures var st := CoordinateWebhook(c, s, push); st.Ret? ==> st.v.Applied? && st.s.labels == {}
  {
    hide ProcessEvent, NoEdits, StuckFree, AddressOf;
    var s0 := if push.id == NoId then s else s.(seen := s.seen + {push.id});
    A.SameAddress(s, s0);
    LostProcess(c, s0, push);
  }

  lemma LostProcess(c: Ctx, s: Item, push: Input)
    requires c.mode && NoEdits(c) && s.labels == {AutoReworking} && AddressOf(s).None? && push.payload.Pushed?
    ensures var st := ProcessEvent(c, s, push); st.Ret? ==> st.v.Applied? && st.s.labels == {}
  {
    hide OnEvent, GetLabels, NoEdits, StuckFree, AddressOf;
    BotGlances(c, s);
    var s1 := BotLogin(c, s).s;
    A.GlancedAddress(c, s, s1);
    LabelsGlance(c, s1);
    var g := GetLabels(c, s1);
    A.GlancedAddress(c, s1, g.s);
    if g.Ret? {
      LostEvent(c, g.s, push);
    }
  }

  lemma LostEvent(c: Ctx, s: Item, push: Input)
    requires c.mode && NoEdits(c) && s.labels == {AutoReworking} && AddressOf(s).None? && push.payload.Pushed?
    ensures var st := OnEvent(c, s, push, ReworkPushed, s.labels); st.Ret? ==> st.v.Applied? && st.s.labels == {}
  {
    hide Plain, DeriveState, NoEdits, StuckFree, RuleFor;
    ReadingMeans({AutoReworking});
    LostEnd(s);
    LostPlain(c, s, push);
  }

  lemma LostEnd(s: Item)
    requires AddressOf(s).None?
    ensures EndRework(s, ReworkPushed, {AutoReworking}) == ReworkEnd(s, ReworkPushed, false, NOTHING_LATER)
  {
    ReadingMeans({AutoReworking});
  }

  lemma LostRule()
    ensures RuleFor({AutoReworking}, ReworkPushed) == Some(Rule(At(AutoReworking), ReworkPushed, Unlabel, None))
  {
    hide DeriveState;
    ReadingMeans({AutoReworking});
  }

  lemma LostPlain(c: Ctx, s: Item, push: Input)
    requires c.mode && NoEdits(c) && s.labels == {AutoReworking}
    ensures var st := Plain(c, s, push, ReworkPushed, s.labels, NOTHING_LATER, false);
      st.Ret? ==> st.v.Applied? && st.s.labels == {}
  {
    hide ApplyEvent, RuleFor, NoEdits, StuckFree, DeriveState, NoteOverride, ClearLater;
    LostRule();
    AppliedLabels(c, s, ReworkPushed, s.labels, Told(push));
    AppliedMeans(c, s, ReworkPushed, s.labels, Told(push));
    A.ClearedLabels(ApplyEvent(c, s, ReworkPushed, s.labels, Told(push)).s, NOTHING_LATER);
    assert {AutoReworking} - {AutoReworking} == {};
  }

  /** So with merge-blocked's own removal, where it throws: the retry is handed
      out, and the address stays as it was. */
  lemma RemovalDecides(c: Ctx, s: Item, told: bool)
    requires c.mode && NoEdits(c) && s.labels == {AutoMerging, MergeBlocked} && WithinCap(c, s, MergeGateFailedSoft)
    requires AddressOf(s) != Some(AutoMerging)
    requires var st := ApplyEvent(c, s, MergeGateFailedSoft, s.labels, told); st.Ret? && st.v.Applied?
    ensures var t := HandToRework(c, s, s.labels, told).s; var at := ApplyEvent(c, s, MergeGateFailedSoft, s.labels, told).s.calls;
      && (A.DueBack(t, AutoMerging) <==> !A.RemovalThrew(c, s.labels, at))
      && (A.RemovalThrew(c, s.labels, at) ==> AddressOf(t) == AddressOf(s))
  {
    hide ApplyEvent, Say, NoEdits, StuckFree, RuleFor, Framed, AddressOf;
    var e := MergeGateFailedSoft;
    A.SwappedOut(c, s, e, s.labels, told);
    A.LoneSwap(s.labels);
    var u := ApplyEvent(c, s, e, s.labels, told).s;
    FramedAddress(s, u);
    var w := WriteLabel(c, u, true, false, MergeBlocked);
    WrittenPlace(c, u);
    var t := PutCiFix(w.s, Some(CiFix(Attempts(s) + 1, true, false)));
    A.SaidLabels(c, t, true);
    A.FixAddress(t, Comment(c, t, true).s);
  }

  lemma WrittenPlace(c: Ctx, s: Item)
    requires NoEdits(c)
    ensures var w := WriteLabel(c, s, true, false, MergeBlocked);
      && (w.Thr? <==> c.world(s.calls).verdict.Throws?) && AddressOf(w.s) == AddressOf(s)
      && (w.Ret? ==> w.s.labels == s.labels - {MergeBlocked})
  {
  }

  // --- what the act finds ---

  lemma EventReturns(c: Ctx, s: Item, e: Event, cl: set<Label>, told: bool)
    requires NoFailures(c) && RuleFor(cl, e).Some?
    ensures var st := ApplyEvent(c, s, e, cl, told); st.Ret? && st.v.Applied?
  {
    hide ApplyRule, RuleFor, NoFailures;
    RuleReturns(c, s, RuleFor(cl, e).value, cl, told);
    AppliedMeans(c, s, e, cl, told);
  }

  lemma FindingsMisaddressed(c: Ctx, s: Item, told: bool)
    requires c.mode && NoEdits(c) && NoFailures(c) && s.labels == {AiReviewing} && A.MergeFixPending(s)
    requires BotRounds(s) + 1 <= c.caps.botReviewReworks
    ensures var st := TakeFindings(c, s, s.labels, told);
      st.Ret? && st.v.Applied? && A.Out(s, st.s) && A.DueBack(st.s, AutoMerging)
  {
    hide ApplyEvent, Say, NoEdits, StuckFree, NoFailures, RuleFor, Framed, A.Out, A.OutBy, A.Onward, AddressOf;
    var e := ReviewFindings;
    HomeRules(e);
    EventReturns(c, s, e, s.labels, told);
    A.SwappedOut(c, s, e, s.labels, told);
    A.OutEvent(c, s, e, s.labels, told);
    A.LoneSwap(s.labels);
    var u := ApplyEvent(c, s, e, s.labels, told).s;
    var t := PutRounds(u, Some(Rounds(BotRounds(s) + 1, true)));
    A.SameOnward(u, t);
    A.OutStays(s, u, t, e, u.calls);
    A.SaidLabels(c, t, true);
    SayReturns(c, t, true, CommentWrite(false));
    A.SaidOnward(c, t, true);
    A.OutStays(s, t, Comment(c, t, true).s, e, u.calls);
    FramedFix(s, u);
    A.FixAddress(t, Comment(c, t, true).s);
  }

  lemma FramedFix(s: Item, t: Item)
    requires Framed(s, t)
    ensures s.ciFix == t.ciFix && s.rounds == t.rounds
  {
  }

  /** A delivery of the review's findings, read down to the handler they have of
      their own. */
  lemma FindingsRouted(c: Ctx, s: Item, i: Input)
    requires NoEdits(c) && NoFailures(c) && s.labels == {AiReviewing}
    requires i.payload.Commented? && Translate(i.payload) == Some(ReviewFindings)
    ensures var g := GetLabels(c, BotLogin(c, s).s).s;
      && g.labels == {AiReviewing} && g.ciFix == s.ciFix && g.rounds == s.rounds && g.trace == s.trace
      && ProcessEvent(c, s, i) == TakeFindings(c, g, g.labels, Told(i))
  {
    hide TakeFindings, NoEdits, StuckFree, NoFailures, Translate, DeriveState, GetLabels, BotLogin;
    ReadingMeans({AiReviewing});
    BotGlances(c, s);
    var s1 := BotLogin(c, s).s;
    GlancedSame(c, s, s1);
    LabelsGlance(c, s1);
    GlancedSame(c, s1, GetLabels(c, s1).s);
  }

  /** Findings while the merge gate's fix is pending: their push goes to
      auto-merging. The fix stays pending where its rework expired to ai-stuck,
      a person took that label off, and then added ai-reviewing to the PR. */
  lemma FindingsGoToMerging(c: Ctx, s: Item, i: Input)
    requires c.mode && NoEdits(c) && NoFailures(c) && s.labels == {AiReviewing} && A.MergeFixPending(s)
    requires BotRounds(s) + 1 <= c.caps.botReviewReworks
    requires i.payload.Commented? && Translate(i.payload) == Some(ReviewFindings) && !SecondCarrier(s, i.payload)
    requires i.id == NoId || i.id !in s.seen
    ensures var t := CoordinateWebhook(c, s, i).s; A.Out(s, t) && A.DueBack(t, AutoMerging)
  {
    hide ProcessEvent, TakeFindings, NoEdits, StuckFree, NoFailures, Translate, AddressOf, Tally, GetLabels, BotLogin;
    var s0 := if i.id == NoId then s else s.(seen := s.seen + {i.id});
    FindingsRouted(c, s0, i);
    var g := GetLabels(c, BotLogin(c, s0).s).s;
    FindingsMisaddressed(c, g, Told(i));
    var e := ProcessEvent(c, s0, i);
    RememberedPlace(e.s, s0.pending, i.payload, e.v);
    A.SameAddress(e.s, RememberReport(e.s, s0.pending, i.payload, e.v));
  }

  /** The expiry leaves the fix pending; a person's removal of ai-stuck is no
      event, and ai-reviewing added to an untracked PR clears no fix. */
  lemma ExpiryKeepsTheFix(c: Ctx, s: Item, f: Fire)
    requires c.Enforced(WatchdogExpired) && NoEdits(c) && NoFailures(c) && A.DueBack(s, AutoMerging)
    ensures var t := Expire(c, s, f).s; t.labels == {AiStuck} && A.MergeFixPending(t)
  {
    hide ApplyEvent, Say, NoEdits, StuckFree, NoFailures, RuleFor, GetLabels, Framed, DeriveState;
    ExpiredRule();
    LabelsGlance(c, s);
    var g := GetLabels(c, s).s;
    GlancedSame(c, s, g);
    SayReturns(c, g, true, CommentWrite(true));
    SaidFix(c, g);
    var s3 := PutExpired(Say(c, g, true, CommentWrite(true)).s, f.run == ReworkLoop);
    EventReturns(c, s3, WatchdogExpired, s3.labels, false);
    AppliedLabels(c, s3, WatchdogExpired, s3.labels, false);
    ApplyFrames(c, s3, WatchdogExpired, s3.labels, false);
    FramedFix(s3, ApplyEvent(c, s3, WatchdogExpired, s3.labels, false).s);
    assert {AutoReworking} - {AutoReworking} + {AiStuck} == {AiStuck};
  }

  lemma ExpiredRule()
    ensures RuleFor({AutoReworking}, WatchdogExpired) == Some(Rule(At(AutoReworking), WatchdogExpired, ToLabel(AiStuck), None))
  {
    hide DeriveState, Decide;
    ReadingMeans({AutoReworking});
    ReworkIsWatched();
  }

  lemma SaidFix(c: Ctx, s: Item)
    requires NoEdits(c)
    ensures A.SamePlace(s, Say(c, s, true, CommentWrite(true)).s)
  {
  }

  predicate Red(f: Facts) {
    f.checks != [] && !AnyUnfinished(f) && AnyFailed(f)
  }

  lemma CrowdedRule(cl: set<Label>)
    requires Crowded(cl)
    ensures AiReviewing in cl && RuleFor(cl, LabelledAiReviewing).Some? && cl - {AiStuck, AiBlocked, ReadyForReview} == {AiReviewing}
    ensures var rule := RuleFor(cl, LabelledAiReviewing).value; rule.run.None? && After(cl, rule) == cl - {AiStuck}
    ensures DeriveState(cl - {AiReviewing}) == Clear(At(AiStuck))
  {
    hide Decide, DeriveState;
    var y := if AiBlocked in cl then AiBlocked else ReadyForReview;
    assert cl - {AiReviewing} == {AiStuck, y};
    PairReading(AiStuck, y);
    ReviewWhenStuck();
  }

  lemma ReviewWhenStuck()
    ensures Decide(At(AiStuck), LabelledAiReviewing)
      == Some(Rule(At(AiStuck), LabelledAiReviewing, ToLabel(AiReviewing), None))
  {
  }

  lemma RuleLeavesIdle(c: Ctx, s: Item, e: Event, cl: set<Label>, told: bool)
    requires NoEdits(c) && cl == s.labels && RuleFor(cl, e).Some? && RuleFor(cl, e).value.run.None?
    requires ApplyEvent(c, s, e, cl, told).Ret?
    ensures ApplyEvent(c, s, e, cl, told).s.pending.None?
  {
    hide ApplyRule, RuleFor, NoEdits, StuckFree, Between, After;
    RuleLabels(c, s, e, cl, told);
  }

  lemma RedGate(c: Ctx, s: Item, told: bool)
    requires c.mode && NoEdits(c) && NoFailures(c) && s.pending.None? && s.ciFix.None?
    requires forall n :: Red(c.world(n).facts)
    ensures var st := ReviewGate(c, s, {AiReviewing}, told);
      st.Ret? && st.v.Applied? && A.Out(s, st.s) && st.s.labels == s.labels - {AiReviewing} + {AutoReworking}
  {
    hide ApplyEvent, Say, NoEdits, StuckFree, NoFailures, RuleFor, Framed, AnyUnfinished, AnyFailed, A.OutBy, A.Onward, Tally;
    var e := ReviewCiFailed;
    ReadGlances(c, s);
    var s1 := Read(c, s).s;
    GlancedSame(c, s, s1);
    assert Read(c, s).v.facts == c.world(s.calls).facts;
    HomeRules(e);
    EventReturns(c, s1, e, {AiReviewing}, told);
    A.SwappedOut(c, s1, e, {AiReviewing}, told);
    A.OutEvent(c, s1, e, {AiReviewing}, told);
    var u := ApplyEvent(c, s1, e, {AiReviewing}, told).s;
    var t := PutCiFix(u, Some(CiFix(Attempts(s1) + 1, true, true)));
    A.SameOnward(u, t);
    A.OutStays(s1, u, t, e, u.calls);
    A.SaidLabels(c, t, true);
    SayReturns(c, t, true, CommentWrite(false));
    A.SaidOnward(c, t, true);
    A.OutStays(s1, t, Comment(c, t, true).s, e, u.calls);
  }

  lemma CrowdedLabel(c: Ctx, s: Item, told: bool)
    requires c.mode && NoEdits(c) && NoFailures(c) && Crowded(s.labels) && !Running(s, ReviewLoop)
    requires forall n :: Red(c.world(n).facts)
    ensures var st := ReviewLabelOn(c, s, s.labels, told);
      st.Ret? && A.Out(s, st.s) && st.s.labels == s.labels - {AiStuck, AiReviewing} + {AutoReworking}
  {
    hide ApplyEvent, ReviewGate, NoEdits, StuckFree, NoFailures, RuleFor, Framed, DeriveState, Crowded, After, Red, A.Onward, Tally;
    var cl := s.labels;
    var e := LabelledAiReviewing;
    CrowdedRule(cl);
    var s1 := PutExpired(PutCiFix(PutRounds(s, None), None), false);
    EventReturns(c, s1, e, cl, told);
    ApplyFrames(c, s1, e, cl, told);
    var st := ApplyEvent(c, s1, e, cl, told);
    AppliedLabels(c, s1, e, cl, told);
    RuleLeavesIdle(c, s1, e, cl, told);
    FramedFix(s1, st.s);
    EventOut(c, s1, e, cl, told);
    RedGate(c, st.s, told);
    OutAfter(s, s1, st.s, ReviewGate(c, st.s, {AiReviewing}, told).s);
    assert cl - {AiStuck} - {AiReviewing} + {AutoReworking} == cl - {AiStuck, AiReviewing} + {AutoReworking};
  }

  lemma OutAfter(s: Item, s1: Item, t: Item, u: Item)
    requires s.trace == s1.trace && A.Onward(s1, t) && A.Out(t, u)
    ensures A.Out(s, u)
  {
  }

  lemma CrowdedTaken(c: Ctx, s: Item, i: Input)
    requires c.mode && NoEdits(c) && NoFailures(c) && Crowded(s.labels) && !Running(s, ReviewLoop)
    requires (forall n :: Red(c.world(n).facts)) && i.payload.Labeled?
    ensures var st := TakeEvent(c, s, i, LabelledAiReviewing);
      st.Ret? && A.Out(s, st.s) && st.s.labels == s.labels - {AiStuck, AiReviewing} + {AutoReworking}
  {
    hide ReviewLabelOn, NoEdits, StuckFree, NoFailures, DeriveState, GetLabels, Crowded, Red, Tally;
    LabelsGlance(c, s);
    var g := GetLabels(c, s).s;
    GlancedSame(c, s, g);
    CrowdedLabel(c, g, Told(i));
  }

  /** ai-reviewing added beside ai-stuck and the review's own label, CI red: its
      delivery hands the PR out with that label left on, so that no push brings
      it back. */
  lemma CrowdedGoesNowhere(c: Ctx, s: Item, i: Input)
    requires c.mode && NoEdits(c) && NoFailures(c) && Crowded(s.labels) && !Running(s, ReviewLoop)
    requires forall n :: Red(c.world(n).facts)
    requires i.payload.Labeled? && i.payload.onPr && !i.payload.own && i.payload.lane == Some(AiReviewing)
    requires i.id == NoId || i.id !in s.seen
    ensures var t := CoordinateWebhook(c, s, i).s;
      A.Out(s, t) && t.labels == s.labels - {AiStuck, AiReviewing} + {AutoReworking}
  {
    hide TakeEvent, NoEdits, StuckFree, NoFailures, Crowded, Red, Tally, BotLogin;
    var s0 := if i.id == NoId then s else s.(seen := s.seen + {i.id});
    BotGlances(c, s0);
    var s1 := BotLogin(c, s0).s;
    GlancedSame(c, s0, s1);
    PendingGlanced(c, s0, s1);
    CrowdedTaken(c, s1, i);
  }

  lemma PendingGlanced(c: Ctx, s: Item, t: Item)
    requires Glanced(c, s, t)
    ensures s.pending == t.pending
  {
  }
}
