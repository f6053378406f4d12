// A delivery keeps every kind (worker/src/coordinate/webhook.ts).

module WebhookKeeps {
  import opened Wrappers
  import opened Graph
  import opened Labels
  import opened Items
  import opened Apply
  import opened Gates
  import opened Deliveries
  import opened Stages
  import opened Webhook
  import opened Kinds
  import opened Keeps
  import opened GateKeeps
  import opened StageKeeps

  /** Not a label edit by anyone but the Worker. */
  predicate Worker(p: Payload) {
    (p.Labeled? ==> p.own) && (p.Unlabeled? ==> p.own)
  }

  /** What each kind asks of a delivery. */
  predicate Fits(k: Kind, p: Payload) {
    && Handled(k)
    && (Hands(k) || k.Still? || k.Address? ==> Worker(p))
    && (k.Still? && p.ReviewRequested? ==> k.labels != {})
    && (k.Quiet? && k.fire.Some? && k.fire.value.deferUntil.Some? ==> !p.PrClosed? && !p.IssueClosedNow?)
    && (k.Unmatched? ==> p.Commented?)
  }

  /** Kinds that stand between handlers that hand nothing out. */
  predicate Evented(k: Kind) {
    !k.Counted? && !k.EntryIs? && !k.StuckOwed? && !k.AtLeast?
  }

  /** Kinds that stand between handlers. */
  predicate Handled(k: Kind) {
    Evented(k) && !k.Handless?
  }

  /** What an event says of the payload it came from. */
  predicate Arises(p: Payload, e: Event) {
    && !e.WatchdogExpired? && !e.ReworkCapReached?
    && (HandOut(e) ==> e.ReviewFindings? && p.Commented?)
    && (e.ReviewPassed? ==> p.Commented?)
    && (JustAdded(e).Some? ==> (p.Labeled? && !p.own) || (p.ReviewRequested? && e.LabelledAiReviewing?))
    && (e.UnlabelledAutoReworking? ==> p.Unlabeled? && !p.own)
    && (e.ReworkPushed? || e.CiFixPushed? || e.ReviewFixPushed? ==> p.Pushed?)
  }

  lemma TranslationArises(p: Payload)
    requires Translate(p).Some?
    ensures Arises(p, Translate(p).value)
  {
  }

  // --- the small steps ---

  lemma KeepLogDeduped(c: Ctx, k: Kind, s: Item)
    requires Ready(c, k, s)
    ensures KeptOpen(c, k, LogDeduped(c, s))
  {
    hide Ready, Holds, GetLabels, Log, NoEdits, StuckFree, NoFailures;
    LabelsGlance(c, s);
    KeepGlanced(c, k, s, GetLabels(c, s).s);
    KeepLog(c, k, GetLabels(c, s).s);
  }

  lemma KeepNote(c: Ctx, k: Kind, s: Item, known: bool)
    requires Ready(c, k, s)
    ensures KeptOpen(c, k, NoteOverride(c, s, known))
  {
    hide Ready, Holds, GetLabels, Log, NoEdits, StuckFree, NoFailures;
    LabelsGlance(c, s);
    KeepGlanced(c, k, s, GetLabels(c, s).s);
    KeepLog(c, k, GetLabels(c, s).s);
    KeepLog(c, k, s);
  }

  lemma KeepDrop(c: Ctx, k: Kind, s: Item, r: Result)
    requires Ready(c, k, s) && !r.Applied?
    ensures KeptOpen(c, k, Drop(c, s, r))
  {
    hide Ready, Log, NoFailures;
    KeepLog(c, k, s);
  }

  /** The late push's values keep the counts. */
  predicate LaterOk(s: Item, later: Later) {
    && (later.ciFix.Some? ==> later.ciFix.value.attempts == Attempts(s))
    && (later.rounds.Some? ==> later.rounds.value.botRounds == BotRounds(s))
  }

  lemma KeepClearLater(c: Ctx, k: Kind, s: Item, later: Later)
    requires Ready(c, k, s) && LaterOk(s, later) && !k.Address?
    ensures Ready(c, k, ClearLater(s, later))
  {
    hide Ready;
    var s1 := if later.ciFix.Some? then PutCiFix(s, later.ciFix) else s;
    var s2 := if later.rounds.Some? then PutRounds(s1, later.rounds) else s1;
    KeepCounters(c, k, s, s2);
    KeepUnexpired(c, k, s2);
  }

  lemma KeepSettle(c: Ctx, k: Kind, s: Item, cl: set<Label>, r: Result, later: Later, restart: bool)
    requires Ready(c, k, s) && (r.Applied? ==> LaterOk(s, later) && !k.Address?)
    ensures Ready(c, k, Settle(c, s, cl, r, later, restart))
  {
    hide Ready, ClearLater, LaterOk, DeriveState, Comment;
    DryIsShadow(c, k, s);
    if r.Applied? {
      KeepClearLater(c, k, s, later);
      var s1 := ClearLater(s, later);
      KeepUnexpired(c, k, s1);
      KeepComment(c, k, s1, c.Enforced(LabelledAutoReworking));
      KeepComment(c, k, PutExpired(s1, false), c.Enforced(LabelledAutoReworking));
    }
  }

  lemma LaterFramed(s: Item, t: Item, later: Later)
    requires Framed(s, t) && LaterOk(s, later)
    ensures LaterOk(t, later)
  {
  }

  lemma OpenedIsOpen(k: Kind)
    ensures !Opened(k).Address?
  {
  }

  lemma KeepPlain(c: Ctx, k: Kind, s: Item, i: Input, e: Event, cl: set<Label>, later: Later, restart: bool)
    requires Ready(c, k, s) && Reads(k, s, cl) && Evented(k) && EventOk(c, k, s, e, cl)
    requires Simple(e) || RuleFor(cl, e).None?
    requires LaterOk(s, later)
    ensures KeptOpen(c, k, Plain(c, s, i, e, cl, later, restart))
  {
    hide Ready, ApplyEvent, Settle, NoteOverride, Reads, EventOk, RuleFor, NoFailures, Opened, LaterOk, Simple;
    KeepSimple(c, k, s, e, cl, Told(i));
    ApplyFrames(c, s, e, cl, Told(i));
    var st := ApplyEvent(c, s, e, cl, Told(i));
    LaterFramed(s, st.s, later);
    OpenedIsOpen(k);
    if st.Ret? {
      if st.v.Applied? {
        KeepSettle(c, Opened(k), st.s, cl, st.v, later, restart);
      } else {
        KeepSettle(c, k, st.s, cl, st.v, later, restart);
        KeepNote(c, k, Settle(c, st.s, cl, st.v, later, restart), true);
      }
    }
  }

  // --- a person's labels ---

  /** Kinds that say nothing about a person's label edits. */
  predicate Edited(k: Kind) {
    Evented(k) && (LabelFree(k) || k.Dry?) && !k.Unmatched?
  }

  lemma EditedEvents(c: Ctx, k: Kind, s: Item, e: Event, cl: set<Label>)
    requires Edited(k) && !e.WatchdogExpired? && (k.Handless? ==> !HandOut(e)) && !e.LabelledAutoReleasing?
    ensures EventOk(c, k, s, e, cl)
  {
  }

  /** The counts a person's rework round starts with. */
  lemma KeepRound(c: Ctx, k: Kind, s: Item, counted: bool, stuck: bool)
    requires Ready(c, k, s) && Edited(k)
    ensures var s1 := if counted then s.(reviewReworks := if stuck then 1 else s.reviewReworks + 1) else s;
      Ready(c, k, if stuck then PutExpired(PutRounds(s1, None), false) else s1)
  {
    hide Ready, Left;
    var s1 := if counted then s.(reviewReworks := if stuck then 1 else s.reviewReworks + 1) else s;
    KeepCounters(c, k, s, s1);
    KeepCounters(c, k, s1, PutRounds(s1, None));
    KeepUnexpired(c, k, PutRounds(s1, None));
  }

  lemma KeepReworkRule(c: Ctx, k: Kind, s: Item, i: Input, cl: set<Label>, restart: bool)
    requires Ready(c, k, s) && Reads(k, s, cl) && Edited(k)
    ensures var t := if restart then PutCiFix(PutRounds(s, Some(Rounds(0, true))), None) else s;
      KeptOpen(c, k, Plain(c, t, i, LabelledAutoReworking, cl, NOTHING_LATER, restart))
  {
    hide Ready, Plain, KeptOpen, Left, EventOk;
    var t := if restart then PutCiFix(PutRounds(s, Some(Rounds(0, true))), None) else s;
    KeepCounters(c, k, s, t);
    EditedEvents(c, k, t, LabelledAutoReworking, cl);
    KeepPlain(c, k, t, i, LabelledAutoReworking, cl, NOTHING_LATER, restart);
  }

  lemma KeepReworkLabel(c: Ctx, k: Kind, s: Item, i: Input, cl: set<Label>)
    requires Ready(c, k, s) && Reads(k, s, cl) && Edited(k)
    ensures KeptOpen(c, k, OnReworkLabel(c, s, i, cl))
  {
    hide Ready, DeriveState, CapRework, Plain, KeptOpen;
    KeepCapRework(c, k, s, cl, Told(i));
    var before := DeriveState(cl - {AutoReworking});
    var stuck := before == Clear(At(AiStuck));
    var counted := before == Clear(Untracked) || stuck;
    KeepRound(c, k, s, counted, stuck);
    var s1 := if counted then s.(reviewReworks := if stuck then 1 else s.reviewReworks + 1) else s;
    var s2 := if stuck then PutExpired(PutRounds(s1, None), false) else s1;
    KeepReworkRule(c, k, s2, i, cl, false);
    KeepReworkRule(c, k, s2, i, cl, true);
  }

  lemma KeepMergeLabel(c: Ctx, k: Kind, s: Item, i: Input, cl: set<Label>)
    requires Ready(c, k, s) && Reads(k, s, cl) && Edited(k) && !k.Handless?
    ensures KeptOpen(c, k, OnMergeLabel(c, s, i, cl))
  {
    hide Ready, Holds, SettledFacts, BlockMerge, HandToRework, Plain, NoFailures, EventOk, DeriveGate, HardBlock;
    var s1 := if MergeBlocked in cl then PutCiFix(s, None) else s;
    KeepCounters(c, k, s, s1);
    SettledGlances(c, s1);
    var s2 := SettledFacts(c, s1).s;
    ReadsGlanced(c, k, s1, s2, cl);
    EditedEvents(c, k, s2, MergeGateFailedHard, cl);
    EditedEvents(c, k, s2, LabelledAutoMerging, cl);
    KeepBlockMerge(c, k, s2, cl, MergeGateFailedHard, Told(i));
    KeepHandToRework(c, k, s2, cl, Told(i));
    KeepPlain(c, k, s2, i, LabelledAutoMerging, cl, NOTHING_LATER, false);
  }

  // --- ai-reviewing ---

  /** Whether ai-reviewing is the item's only tracked label, or a person's edit. */
  predicate ReviewFits(k: Kind, cl: set<Label>) {
    Handled(k) && !k.Unmatched? && (Edited(k) || cl - {AiReviewing} == {})
  }

  lemma KeepReviewReset(c: Ctx, k: Kind, s: Item, cl: set<Label>)
    requires Ready(c, k, s) && Reads(k, s, cl) && ReviewFits(k, cl)
    ensures var t := if DeriveState(cl - {AiReviewing}) == Clear(At(AiStuck))
                     then PutExpired(PutCiFix(PutRounds(s, None), None), false) else s;
      Ready(c, k, t) && Reads(k, t, cl)
  {
    hide Ready, Holds, Left, AddressOf;
    if DeriveState(cl - {AiReviewing}) == Clear(At(AiStuck)) {
      ReadingMeans(cl - {AiReviewing});
      KeepCounters(c, k, s, PutCiFix(PutRounds(s, None), None));
      KeepUnexpired(c, k, PutCiFix(PutRounds(s, None), None));
    }
  }

  /** The labels the gate goes by, once ai-reviewing's rule has applied. */
  lemma GateReads(c: Ctx, k: Kind, s: Item, cl: set<Label>, told: bool)
    requires Ready(c, k, s) && Reads(k, s, cl) && ReviewFits(k, cl)
    requires AiReviewing in cl && RuleFor(cl, LabelledAiReviewing).Some?
    requires ApplyEvent(c, s, LabelledAiReviewing, cl, told).Ret?
    ensures Reads(Opened(k), ApplyEvent(c, s, LabelledAiReviewing, cl, told).s, cl - {AiStuck, AiBlocked, ReadyForReview})
  {
    hide ApplyRule, RuleFor, Holds, NoEdits, StuckFree, NoFailures, DeriveState, Decide;
    var e := LabelledAiReviewing;
    var rule := RuleFor(cl, e).value;
    RuleForNames(cl, e);
    DecisionTargets(rule.from, e);
    if Hands(k) {
      HandsSay(c, k, s, cl);
      RuleLabels(c, s, e, cl, told);
      LoneReview(cl, rule);
    } else if OfStuck(k) {
      StuckWorld(c, k, s);
      RuleOnStuck(c, s, e, cl, told);
    }
  }

  lemma LoneReview(cl: set<Label>, rule: Rule)
    requires AiReviewing in cl && cl - {AiReviewing} == {} && RuleFor(cl, LabelledAiReviewing) == Some(rule)
    ensures After(cl, rule) == {AiReviewing} == cl - {AiStuck, AiBlocked, ReadyForReview}
  {
    hide DeriveState, Decide;
    RuleForNames(cl, LabelledAiReviewing);
    ReadingMeans({});
    DecisionTargets(Untracked, LabelledAiReviewing);
    assert cl == {AiReviewing} + (cl - {AiReviewing});
  }

  lemma KeepReviewLabelOn(c: Ctx, k: Kind, s: Item, cl: set<Label>, told: bool)
    requires Ready(c, k, s) && Reads(k, s, cl) && ReviewFits(k, cl)
    ensures KeptOpen(c, k, ReviewLabelOn(c, s, cl, told))
  {
    hide Ready, Holds, Reads, ReviewGate, ApplyEvent, RuleFor, NoFailures, Opened, DeriveState, ReviewFits;
    if AiReviewing in cl && !Running(s, ReviewLoop) {
      var s1 := if DeriveState(cl - {AiReviewing}) == Clear(At(AiStuck))
                then PutExpired(PutCiFix(PutRounds(s, None), None), false) else s;
      KeepReviewReset(c, k, s, cl);
      KeepReviewRule(c, k, s1, cl, told);
    }
  }

  /** ai-reviewing's rule, then the gate. */
  lemma KeepReviewRule(c: Ctx, k: Kind, s: Item, cl: set<Label>, told: bool)
    requires Ready(c, k, s) && Reads(k, s, cl) && ReviewFits(k, cl) && AiReviewing in cl
    ensures var st := ApplyEvent(c, s, LabelledAiReviewing, cl, told);
      && (NoFailures(c) ==> st.Ret?)
      && (st.Ret? && !st.v.Applied? ==> Ready(c, k, st.s))
      && (st.Thr? ==> Ready(c, k, st.s) || Ready(c, Opened(k), st.s))
      && (st.Ret? && st.v.Applied? ==>
        var g := ReviewGate(c, st.s, cl - {AiStuck, AiBlocked, ReadyForReview}, told);
        Ready(c, Opened(k), g.s) && Ready(c, k, g.s) && (NoFailures(c) ==> g.Ret?))
  {
    hide Ready, Holds, Reads, ReviewGate, ApplyEvent, RuleFor, NoFailures, Opened;
    var e := LabelledAiReviewing;
    assert EventOk(c, k, s, e, cl);
    KeepSimple(c, k, s, e, cl, told);
    AppliedMeans(c, s, e, cl, told);
    var st := ApplyEvent(c, s, e, cl, told);
    if st.Ret? && st.v.Applied? {
      GateReads(c, k, s, cl, told);
      OpenedGate(k);
      KeepReviewGate(c, Opened(k), st.s, cl - {AiStuck, AiBlocked, ReadyForReview}, told);
      ReopenKept(c, k, s, ReviewGate(c, st.s, cl - {AiStuck, AiBlocked, ReadyForReview}, told));
    }
  }

  lemma OpenedGate(k: Kind)
    requires Handled(k)
    ensures !Opened(k).Handless? && !Opened(k).Counted? && !Opened(k).EntryIs? && !Opened(k).StuckOwed? && Opened(Opened(k)) == Opened(k)
  {
  }

  /** A second event after one that matched: the kind stays opened. */
  lemma ReopenKept(c: Ctx, k: Kind, s: Item, st: Step<Result>)
    requires Ready(c, k, s) && !k.Unmatched? && Handled(k) && KeptOpen(c, Opened(k), st)
    ensures Ready(c, Opened(k), st.s) && Ready(c, k, st.s)
  {
    hide Holds, NoFailures, NoEdits, StuckFree;
    OpenedGate(k);
    assert Ready(c, Opened(k), st.s);
    OpenedIsEnough(c, k, st.s);
  }

  /** What a review hand-off finds: for a return address, the PR in rework; for
      labels that stand still, some label, so that it adds none. */
  predicate HandedFits(k: Kind, cl: set<Label>) {
    Handled(k) && !k.Unmatched? && (k.Still? ==> cl != {}) && (k.Address? ==> cl == {AutoReworking})
  }

  /** The Worker's own ai-reviewing, on an item with nothing tracked. */
  lemma KeepReviewMark(c: Ctx, k: Kind, s: Item, cl: set<Label>)
    requires Ready(c, k, s) && Reads(k, s, cl) && HandedFits(k, cl) && cl == {}
    ensures var w := WriteLabel(c, s, c.Enforced(LabelledAiReviewing), true, AiReviewing);
      && Ready(c, k, w.s)
      && (NoFailures(c) ==> w.Ret?)
      && (w.Ret? ==> Reads(k, w.s, cl + {AiReviewing}) && ReviewFits(k, cl + {AiReviewing}))
  {
    hide Holds, NoFailures;
    var io := c.Enforced(LabelledAiReviewing);
    assert cl + {AiReviewing} - {AiReviewing} == {};
    if Hands(k) {
      HandsSay(c, k, s, cl);
      MarkedReview(c, k, s, io);
    } else {
      KeepWriteLabel(c, k, s, io, true, AiReviewing);
    }
  }

  lemma MarkReturns(c: Ctx, s: Item, io: bool)
    requires s.labels == {} && NoEdits(c)
    ensures var w := WriteLabel(c, s, io, true, AiReviewing);
      (NoFailures(c) ==> w.Ret?) && (w.s.labels == {} || w.s.labels == {AiReviewing}) && (w.Ret? && io ==> w.s.labels == {AiReviewing})
  {
  }

  lemma MarkHolds(c: Ctx, k: Kind, s: Item, t: Item)
    requires Ready(c, k, s) && Hands(k) && s.labels == {} && (t.labels == {} || t.labels == {AiReviewing})
    requires Left(c, t) == Left(c, s)
    requires Tally(t.trace, HandOuts) == Tally(s.trace, HandOuts) && Tally(t.trace, Verdicts) == Tally(s.trace, Verdicts)
    ensures Ready(c, k, t)
  {
    hide Left, Tally, NoEdits, StuckFree, NoFailures, DeriveState;
  }

  lemma MarkedReview(c: Ctx, k: Kind, s: Item, io: bool)
    requires Ready(c, k, s) && Hands(k) && s.labels == {} && NoEdits(c)
    ensures var w := WriteLabel(c, s, io, true, AiReviewing);
      Ready(c, k, w.s) && (NoFailures(c) ==> w.Ret?) && (w.Ret? && io ==> w.s.labels == {AiReviewing})
  {
    hide Left, Tally, NoEdits, StuckFree, NoFailures, Ready;
    MarkReturns(c, s, io);
    if io {
      var t := WriteLabel(c, s, io, true, AiReviewing).s;
      SameLeft(c, s, t);
      TallyGrows(s.trace, LabelWrite(true, AiReviewing), HandOuts);
      TallyGrows(s.trace, LabelWrite(true, AiReviewing), Verdicts);
      MarkHolds(c, k, s, t);
    }
  }

  lemma AmbiguousDrops(c: Ctx, k: Kind, s: Item, cl: set<Label>)
    requires HandedFits(k, cl) && AiReviewing !in cl && DeriveState(cl).Ambiguous?
    ensures RuleFor(cl, LabelledAiReviewing).None? && EventOk(c, k, s, LabelledAiReviewing, cl)
  {
    hide DeriveState, Decide;
    assert Before(cl, LabelledAiReviewing) == cl;
  }

  lemma KeepAcceptReview(c: Ctx, k: Kind, s: Item, cl: set<Label>, told: bool)
    requires Ready(c, k, s) && Reads(k, s, cl) && HandedFits(k, cl) && AiReviewing !in cl
    ensures KeptOpen(c, k, AcceptReview(c, s, cl, told))
  {
    hide Ready, Reads, Read, Drop, ApplyEvent, WriteLabel, ReviewLabelOn, NoFailures, RuleFor, KeptOpen, DeriveState, EventOk,
      ReviewFits;
    ReadGlances(c, s);
    var s1 := Read(c, s).s;
    ReadsGlanced(c, k, s, s1, cl);
    if Read(c, s).Thr? {
      KeptEvent(c, k, Thr(s1));
    }
    KeepDrop(c, k, s1, StaleLabel(LabelledAiReviewing));
    ReadingMeans(cl);
    match DeriveState(cl)
    case Ambiguous =>
      AmbiguousDrops(c, k, s1, cl);
      KeepSimple(c, k, s1, LabelledAiReviewing, cl, told);
    case Clear(At(l)) => KeepDrop(c, k, s1, DroppedNoRule(At(l), LabelledAiReviewing));
    case Clear(Untracked) =>
      KeepReviewMark(c, k, s1, cl);
      var w := WriteLabel(c, s1, c.Enforced(LabelledAiReviewing), true, AiReviewing);
      if w.Ret? {
        KeepReviewLabelOn(c, k, w.s, cl + {AiReviewing}, told);
      } else {
        KeptEvent(c, k, Thr(w.s));
      }
  }

  lemma KeepOnReviewLabel(c: Ctx, k: Kind, s: Item, i: Input, cl: set<Label>)
    requires Ready(c, k, s) && Reads(k, s, cl)
    requires if i.payload.ReviewRequested? then HandedFits(k, cl) else Edited(k) && Handled(k)
    ensures KeptOpen(c, k, OnReviewLabel(c, s, i, cl))
  {
    hide Ready, Reads, AcceptReview, ReviewLabelOn, NoFailures, Opened;
    ReadingMeans(cl - {AiReviewing});
    if !i.payload.ReviewRequested? {
      KeepReviewLabelOn(c, k, s, cl, Told(i));
    } else if AiReviewing !in cl {
      KeepAcceptReview(c, k, s, cl, Told(i));
    } else if DeriveState(cl - {AiReviewing}) == Clear(Untracked) {
      KeepReviewLabelOn(c, k, s, cl, Told(i));
    }
  }

  // --- the review's verdict ---

  lemma KeepReviewPassed(c: Ctx, k: Kind, s: Item, cl: set<Label>, told: bool)
    requires Ready(c, k, s) && Reads(k, s, cl) && Evented(k)
    ensures KeptOpen(c, k, OnReviewPassed(c, s, cl, told))
  {
    hide Ready, Holds, Reads, ApplyEvent, RuleFor, NoFailures;
    var e := ReviewPassed;
    OwnEvents(c, k, s, e, cl);
    KeepApply(c, k, s, e, cl, told);
    AppliedMeans(c, s, e, cl, told);
    var st := ApplyEvent(c, s, e, cl, told);
    if st.Ret? && st.v.Applied? {
      KeepFresh(c, k, st.s);
    }
  }

  /** A passed review's fresh counts cost a budget nothing: it is spent. */
  lemma KeepFresh(c: Ctx, k: Kind, s: Item)
    requires Ready(c, AfterApply(k, ReviewPassed, true, true), s)
    ensures Ready(c, Opened(k), PutExpired(PutCiFix(PutRounds(s, None), None), false))
  {
    hide Ready;
    var k1 := AfterApply(k, ReviewPassed, true, true);
    var t := PutCiFix(PutRounds(s, None), None);
    KeepCounters(c, k1, s, t);
    KeepUnexpired(c, k1, t);
    if k.Budget? {
      SpentIsBudget(c, k.b, PutExpired(t, false));
    }
  }

  lemma SpentIsBudget(c: Ctx, b: int, s: Item)
    requires Ready(c, Spent(b), s)
    ensures Ready(c, Budget(b), s)
  {
  }

  // --- CI ---

  lemma KeepGatePassed(c: Ctx, k: Kind, s: Item, cl: set<Label>, told: bool, sha: Option<Sha>)
    requires Ready(c, k, s) && Reads(k, s, cl) && Handled(k)
    ensures var st := ApplyEvent(c, s, MergeGatePassed, cl, told);
      KeptOpen(c, k, st) && (st.Ret? && st.v.Applied? ==> Ready(c, Opened(k), st.s.(mergeFiredFor := sha)))
  {
    hide Ready, Reads, ApplyEvent, NoFailures, Opened, Left, AddressOf;
    OwnEvents(c, k, s, MergeGatePassed, cl);
    KeepSimple(c, k, s, MergeGatePassed, cl, told);
    var st := ApplyEvent(c, s, MergeGatePassed, cl, told);
    if st.Ret? && st.v.Applied? {
      var t := st.s.(mergeFiredFor := sha);
      SameLeft(c, st.s, t);
      KeepCounters(c, Opened(k), st.s, t);
    }
  }

  lemma KeepMergeChecks(c: Ctx, k: Kind, s: Item, cl: set<Label>, told: bool)
    requires Ready(c, k, s) && Reads(k, s, cl) && Handled(k)
    ensures KeptOpen(c, k, OnMergeChecks(c, s, cl, told))
  {
    hide Ready, Holds, Reads, SettledFacts, BlockMerge, HandToRework, ApplyEvent, NoFailures, HardBlock, AnyFailed,
      AnyUnfinished, Opened, EventOk;
    SettledGlances(c, s);
    var s1 := SettledFacts(c, s).s;
    ReadsGlanced(c, k, s, s1, cl);
    OwnEvents(c, k, s1, MergeGateFailedHard, cl);
    KeepBlockMerge(c, k, s1, cl, MergeGateFailedHard, told);
    KeepHandToRework(c, k, s1, cl, told);
    if SettledFacts(c, s).Ret? {
      KeepGatePassed(c, k, s1, cl, told, SettledFacts(c, s).v.headSha);
    }
  }

  lemma KeepCheckSuite(c: Ctx, k: Kind, s: Item, completed: bool, told: bool)
    requires Ready(c, k, s) && Handled(k)
    ensures KeptOpen(c, k, OnCheckSuite(c, s, completed, told))
  {
    hide Ready, Holds, GetLabels, ReviewGate, OnMergeChecks, NoFailures, DeriveState;
    LabelsGlance(c, s);
    var s1 := GetLabels(c, s).s;
    KeepGlanced(c, k, s, s1);
    if GetLabels(c, s).Ret? {
      var cl := GetLabels(c, s).v;
      KeepReviewGate(c, k, s1, cl, told);
      KeepMergeChecks(c, k, s1, cl, told);
    }
  }

  // --- reports, and the route of an event ---

  lemma FindingsNeedReview(cl: set<Label>)
    requires DeriveState(cl) != Clear(At(AiReviewing))
    ensures RuleFor(cl, ReviewFindings).None?
  {
    hide DeriveState;
  }

  lemma KeepReport(c: Ctx, k: Kind, s: Item, i: Input, e: Event, cl: set<Label>, m: Remark)
    requires Ready(c, k, s) && Reads(k, s, cl) && Handled(k) && ReportEvent(e)
    ensures KeptOpen(c, k, OnReport(c, s, i, e, cl, m))
  {
    hide Ready, Reads, ReleaseApprovedStage, PublishedStage, BlockMerge, BuiltStage, TakeFindings, Plain, OnReviewPassed,
      KeptOpen, DeriveState, EventOk, RuleFor;
    var told := Told(i);
    match e
    case ReleaseApproved => KeepReleaseApproved(c, k, s, cl, i.actor.SignalActor?, m, told);
    case ReleasePublished => KeepPublished(c, k, s, cl, i.actor.SignalActor?, m, told);
    case MergeBlockReported =>
      OwnEvents(c, k, s, e, cl);
      KeepBlockMerge(c, k, s, cl, MergeBlockReported, told);
    case BuildSucceeded => KeepBuilt(c, k, s, cl, i.actor.SignalActor?, m, told);
    case ReviewFindings =>
      if DeriveState(cl) == Clear(At(AiReviewing)) {
        KeepTakeFindings(c, k, s, cl, told);
      } else {
        FindingsNeedReview(cl);
        OwnEvents(c, k, s, e, cl);
        KeepPlain(c, k, s, i, e, cl, NOTHING_LATER, false);
      }
    case ReviewPassed => KeepReviewPassed(c, k, s, cl, told);
    case _ =>
  }

  /** What a route finds: the payload fits the kind and the event the payload. */
  predicate RouteFits(k: Kind, p: Payload, e: Event, cl: set<Label>) {
    Fits(k, p) && Arises(p, e) && (k.Address? ==> cl == {AutoReworking}) && (k.Still? ==> cl == k.labels)
  }

  lemma RouteMeans(c: Ctx, k: Kind, s: Item, p: Payload, e: Event, cl: set<Label>)
    requires RouteFits(k, p, e, cl)
    ensures Handled(k)
    ensures e.LabelledAutoReworking? || e.LabelledAutoMerging? || e.LabelledAutoReleasing? ==> Edited(k)
    ensures e.LabelledAiReviewing? ==> if p.ReviewRequested? then HandedFits(k, cl) else Edited(k)
    ensures !(p.Commented? && ReportEvent(e)) && !e.LabelledAiReviewing? && (e.LabelledAutoReleasing? ==> s.releaseMerged.None?)
      ==> Simple(e) && EventOk(c, k, s, e, cl)
  {
  }

  lemma KeepRoute(c: Ctx, k: Kind, s: Item, i: Input, e: Event, cl: set<Label>, later: Later)
    requires Ready(c, k, s) && Reads(k, s, cl) && LaterOk(s, later) && RouteFits(k, i.payload, e, cl)
    ensures KeptOpen(c, k, Route(c, s, i, e, cl, later))
  {
    hide Ready, Reads, OnReport, OnReworkLabel, OnReviewLabel, OnMergeLabel, RetryReleasePublish, PrMergedStage, ReleasedStage,
      Plain, KeptOpen, RouteFits, LaterOk, EventOk, Edited, HandedFits, Handled, Simple, RuleFor;
    RouteMeans(c, k, s, i.payload, e, cl);
    if i.payload.Commented? && ReportEvent(e) {
      KeepReport(c, k, s, i, e, cl, i.payload.remark);
    } else if e.LabelledAutoReworking? {
      KeepReworkLabel(c, k, s, i, cl);
    } else if e.LabelledAiReviewing? {
      KeepOnReviewLabel(c, k, s, i, cl);
    } else if e.LabelledAutoMerging? {
      KeepMergeLabel(c, k, s, i, cl);
    } else if e.LabelledAutoReleasing? && s.releaseMerged.Some? {
      KeepReleaseLabel(c, k, s, i, e, cl);
    } else {
      KeepStagesOrPlain(c, k, s, i, e, cl, later);
    }
  }

  lemma KeepReleaseLabel(c: Ctx, k: Kind, s: Item, i: Input, e: Event, cl: set<Label>)
    requires Ready(c, k, s) && Reads(k, s, cl) && Edited(k)
    ensures KeptOpen(c, k, RetryReleasePublish(c, s, cl, Told(i)))
    ensures KeptOpen(c, k, Ret(s, StaleLabel(e)))
  {
    hide Ready, Reads, RetryReleasePublish;
    KeepRetryRelease(c, k, s, cl, Told(i));
  }

  lemma KeepStagesOrPlain(c: Ctx, k: Kind, s: Item, i: Input, e: Event, cl: set<Label>, later: Later)
    requires Ready(c, k, s) && Reads(k, s, cl) && LaterOk(s, later) && Evented(k) && Simple(e) && EventOk(c, k, s, e, cl)
    ensures KeptOpen(c, k, Plain(c, s, i, e, cl, later, false))
    ensures i.payload.PrMergedHere? ==> KeptOpen(c, k, PrMergedStage(c, s, cl, i.payload.shipped, Told(i)))
    ensures i.payload.ReleasedHere? && i.payload.tag.Some? ==>
      KeptOpen(c, k, ReleasedStage(c, s, cl, i.payload.tag.value, Told(i)))
  {
    hide Ready, Reads, Plain, PrMergedStage, ReleasedStage, KeptOpen, EventOk, RuleFor;
    KeepPlain(c, k, s, i, e, cl, later, false);
    if i.payload.PrMergedHere? {
      KeepPrMerged(c, k, s, cl, i.payload.shipped, Told(i));
    } else if i.payload.ReleasedHere? && i.payload.tag.Some? {
      KeepReleased(c, k, s, cl, i.payload.tag.value, Told(i));
    }
  }

  // --- a push, and the rest of a delivery ---

  /** What the end of a rework leaves, before any rule. */
  lemma EndReworkMeans(s: Item, e: Event, cl: set<Label>)
    ensures var p := EndRework(s, e, cl);
      && SameButCounters(s, p.s)
      && Attempts(p.s) == Attempts(s) && BotRounds(p.s) == BotRounds(s)
      && LaterOk(p.s, p.later)
      && (p.e == e || (e.ReworkPushed? && (p.e.CiFixPushed? || p.e.ReviewFixPushed?)))
      && (!EndsRework(e, DeriveState(cl)) ==> p.s == s)
  {
    hide DeriveState;
  }

  lemma KeepEndRework(c: Ctx, k: Kind, s: Item, e: Event, cl: set<Label>)
    requires Ready(c, k, s) && (k.Address? ==> !EndsRework(e, DeriveState(cl)))
    ensures Ready(c, k, EndRework(s, e, cl).s)
  {
    hide Ready, DeriveState, EndRework, EndsRework, LaterOk;
    EndReworkMeans(s, e, cl);
    KeepCounters(c, k, s, EndRework(s, e, cl).s);
  }

  lemma EndReworkFits(k: Kind, s: Item, p: Payload, e: Event, cl: set<Label>)
    requires RouteFits(k, p, e, cl) && Reads(k, s, cl)
    ensures RouteFits(k, p, EndRework(s, e, cl).e, cl) && Reads(k, EndRework(s, e, cl).s, cl)
  {
    hide EndRework, EndsRework, DeriveState;
    EndReworkMeans(s, e, cl);
  }

  lemma KeepOnEvent(c: Ctx, k: Kind, s: Item, i: Input, e: Event, cl: set<Label>)
    requires Ready(c, k, s) && Reads(k, s, cl) && RouteFits(k, i.payload, e, cl)
    requires k.Address? ==> AddressOf(s) == Some(k.home)
    ensures KeptOpen(c, k, OnEvent(c, s, i, e, cl))
  {
    hide Ready, Reads, RouteFits, EndRework, EndsRework, DeriveState, Route, Drop, KeptOpen, LaterOk, AddressOf;
    if k.Address? && EndsRework(e, DeriveState(cl)) {
      KeepReturn(c, k, s, i, e, cl);
    } else {
      EndReworkMeans(s, e, cl);
      KeepEndRework(c, k, s, e, cl);
      EndReworkFits(k, s, i.payload, e, cl);
      var p := EndRework(s, e, cl);
      KeepDrop(c, k, p.s, DroppedNoRule(At(AiStuck), p.e));
      KeepRoute(c, k, p.s, i, p.e, cl, p.later);
    }
  }

  /** The event the end of a handed-out rework is. */
  lemma ReturnEvent(s: Item, e: Event, cl: set<Label>)
    requires cl == {AutoReworking} && EndsRework(e, DeriveState(cl)) && AddressOf(s).Some? && !e.UnlabelledAutoReworking?
    ensures var r := EndRework(s, e, cl);
      (r.e.CiFixPushed? || r.e.ReviewFixPushed? || r.e.ReworkNoChange?) && !r.later.expired
  {
    hide DeriveState;
    ReadingMeans({AutoReworking});
  }

  lemma InRework(e: Event)
    requires e.CiFixPushed? || e.ReviewFixPushed? || e.ReworkNoChange?
    ensures RuleFor({AutoReworking}, e).Some?
  {
    hide Decide, DeriveState;
    ReadingMeans({AutoReworking});
    DecisionsInRework();
  }

  /** The end of a handed-out rework is a rule of its own: a return address
      lasts exactly until then. */
  lemma ReturnMatches(k: Kind, s: Item, p: Payload, e: Event, cl: set<Label>)
    requires k.Address? && RouteFits(k, p, e, cl) && EndsRework(e, DeriveState(cl)) && AddressOf(s) == Some(k.home)
    ensures var r := EndRework(s, e, cl);
      && RuleFor(cl, r.e).Some? && !r.e.ReworkPushed? && Simple(r.e) && JustAdded(r.e).None?
      && !ReportEvent(r.e) && !r.e.PrMerged? && !r.e.Released? && !r.later.expired
  {
    hide EndRework, EndsRework, AddressOf, RuleFor, DeriveState;
    ReturnEvent(s, e, cl);
    InRework(EndRework(s, e, cl).e);
  }

  lemma DecisionsInRework()
    ensures Decide(At(AutoReworking), CiFixPushed) == Some(Rule(At(AutoReworking), CiFixPushed, ToLabel(AutoMerging), Some(MergeFlow)))
    ensures Decide(At(AutoReworking), ReviewFixPushed) == Some(Rule(At(AutoReworking), ReviewFixPushed, ToLabel(AiReviewing), None))
    ensures Decide(At(AutoReworking), ReworkNoChange) == Some(Rule(At(AutoReworking), ReworkNoChange, Unlabel, None))
  {
  }

  /** Where the end of a rework is routed. */
  lemma ReturnRoute(c: Ctx, s: Item, i: Input, e: Event, cl: set<Label>, later: Later)
    requires !ReportEvent(e) && JustAdded(e).None? && !e.PrMerged? && !e.Released?
    ensures Route(c, s, i, e, cl, later) == Plain(c, s, i, e, cl, later, false)
  {
    hide OnReport, OnReworkLabel, OnReviewLabel, OnMergeLabel, RetryReleasePublish, PrMergedStage, ReleasedStage, Plain;
  }

  lemma KeepReturn(c: Ctx, k: Kind, s: Item, i: Input, e: Event, cl: set<Label>)
    requires Ready(c, k, s) && k.Address? && Reads(k, s, cl) && RouteFits(k, i.payload, e, cl)
    requires EndsRework(e, DeriveState(cl)) && AddressOf(s) == Some(k.home)
    ensures KeptOpen(c, k, OnEvent(c, s, i, e, cl))
  {
    hide Ready, Holds, RouteFits, EndRework, EndsRework, DeriveState, Plain, LaterOk, AddressOf, RuleFor, NoFailures, Simple, Route,
      Drop, SameButCounters, ReportEvent;
    ReturnMatches(k, s, i.payload, e, cl);
    EndReworkMeans(s, e, cl);
    var p := EndRework(s, e, cl);
    AddressCounts(c, k, s);
    KeepCounters(c, AtLeast(k.n), s, p.s);
    ReturnRoute(c, p.s, i, p.e, cl, p.later);
    KeepMatched(c, k.n, p.s, i, p.e, cl, p.later);
    OpenedAgain(c, k, s, Plain(c, p.s, i, p.e, cl, p.later, false).s);
  }

  lemma OpenedAgain(c: Ctx, k: Kind, s: Item, t: Item)
    requires Ready(c, k, s) && Ready(c, Opened(k), t) && !k.Unmatched?
    ensures Ready(c, k, t)
  {
    hide Holds;
    OpenedIsEnough(c, k, t);
  }

  lemma AddressCounts(c: Ctx, k: Kind, s: Item)
    requires Ready(c, k, s) && k.Address?
    ensures Ready(c, AtLeast(k.n), s)
  {
    hide Tally;
  }

  lemma KeepMatched(c: Ctx, n: nat, s: Item, i: Input, e: Event, cl: set<Label>, later: Later)
    requires Ready(c, AtLeast(n), s) && RuleFor(cl, e).Some? && Simple(e) && JustAdded(e).None? && LaterOk(s, later)
    ensures var st := Plain(c, s, i, e, cl, later, false);
      Ready(c, Ever(Matches, n), st.s) && (NoFailures(c) ==> st.Ret?)
  {
    hide Ready, ApplyEvent, Settle, RuleFor, NoFailures, LaterOk;
    KeepApply(c, AtLeast(n), s, e, cl, Told(i));
    AppliedMeans(c, s, e, cl, Told(i));
    ApplyFrames(c, s, e, cl, Told(i));
    var st := ApplyEvent(c, s, e, cl, Told(i));
    LaterFramed(s, st.s, later);
    if st.Ret? {
      KeepSettle(c, Ever(Matches, n), st.s, cl, st.v, later, false);
    }
  }

  // --- the whole delivery ---

  /** A return address, or labels that stand still, that no rule has ended yet. */
  predicate Fresh(k: Kind, s: Item) {
    k.Address? || k.Still? ==> Tally(s.trace, Matches) <= k.n
  }

  lemma AddressSays(c: Ctx, k: Kind, s: Item)
    requires Ready(c, k, s) && Fresh(k, s)
    ensures k.Address? ==> s.labels == {AutoReworking} && AddressOf(s) == Some(k.home)
    ensures k.Still? ==> s.labels == k.labels
  {
  }

  lemma FreshGlanced(c: Ctx, k: Kind, s: Item, t: Item)
    requires Ready(c, k, s) && Fresh(k, s) && Glanced(c, s, t)
    ensures Ready(c, k, t) && Fresh(k, t)
  {
    hide Holds, Tally, NoEdits, StuckFree;
    KeepGlanced(c, k, s, t);
  }

  lemma CountsGlances(c: Ctx, s: Item, i: Input, e: Event)
    ensures Glanced(c, s, Counts(c, s, i, e).s)
    ensures NoFailures(c) ==> Counts(c, s, i, e).Ret?
  {
    hide TrustedAuthor, NoEdits, StuckFree, NoFailures;
    if i.payload.Commented? {
      TrustedGlances(c, s, i.actor.SignalActor?, i.payload.remark);
    }
  }

  lemma LabelsFresh(c: Ctx, k: Kind, s: Item, p: Payload, e: Event)
    requires Ready(c, k, s) && Fresh(k, s) && Fits(k, p) && Arises(p, e)
    ensures var st := GetLabels(c, s);
      && Ready(c, k, st.s)
      && (NoFailures(c) ==> st.Ret?)
      && (st.Ret? ==> Reads(k, st.s, st.v) && RouteFits(k, p, e, st.v) && (k.Address? ==> AddressOf(st.s) == Some(k.home)))
  {
    hide Ready, Fresh, GetLabels, Fits, Arises, AddressOf, Glanced, NoFailures;
    LabelsGlance(c, s);
    FreshGlanced(c, k, s, GetLabels(c, s).s);
    AddressSays(c, k, GetLabels(c, s).s);
  }

  lemma KeepTakeEvent(c: Ctx, k: Kind, s: Item, i: Input, e: Event)
    requires Ready(c, k, s) && Fresh(k, s) && Fits(k, i.payload) && Arises(i.payload, e)
    ensures KeptOpen(c, k, TakeEvent(c, s, i, e))
  {
    hide Ready, Fresh, Counts, GetLabels, OnEvent, Fits, Arises, NoFailures, Opened, AddressOf, Glanced, Reads, RouteFits;
    CountsGlances(c, s, i, e);
    var s1 := Counts(c, s, i, e).s;
    FreshGlanced(c, k, s, s1);
    LabelsFresh(c, k, s1, i.payload, e);
    var st := GetLabels(c, s1);
    if st.Ret? {
      KeepOnEvent(c, k, st.s, i, e, st.v);
    }
  }

  lemma FitsHandled(k: Kind, p: Payload)
    requires Fits(k, p)
    ensures Handled(k)
  {
  }

  lemma KeepProcessEvent(c: Ctx, k: Kind, s: Item, i: Input)
    requires Ready(c, k, s) && Fresh(k, s) && Fits(k, i.payload)
    ensures KeptOpen(c, k, ProcessEvent(c, s, i))
  {
    hide Ready, Fresh, OnCheckSuite, BotLogin, NoteOverride, TakeEvent, Translate, Human, Fits, Arises, NoFailures, Opened, Glanced,
      Handled;
    FitsHandled(k, i.payload);
    if i.payload.CheckSuite? {
      KeepCheckSuite(c, k, s, i.payload.completed, Told(i));
    } else {
      BotGlances(c, s);
      var s1 := BotLogin(c, s).s;
      FreshGlanced(c, k, s, s1);
      KeepNote(c, k, s1, HasSnapshot(i.payload));
      if Translate(i.payload).Some? {
        TranslationArises(i.payload);
        KeepTakeEvent(c, k, s1, i, Translate(i.payload).value);
      }
    }
  }

  lemma KeepRemember(c: Ctx, k: Kind, s: Item, before: Option<Fire>, p: Payload, r: Result)
    requires Ready(c, k, s)
    requires k.Remembers? && before.Some? && before.value.run == k.run ==> Tally(s.trace, Starts(k.run)) > k.n
    ensures Ready(c, k, RememberReport(s, before, p, r))
    ensures RememberReport(s, before, p, r).pending == s.pending
  {
    hide Tally, LastEntry, NoEdits, StuckFree, NoFailures, Passed;
  }

  /** What a close asks of a kind: not to hold on to a deferred fire. */
  predicate CloseFits(k: Kind, p: Payload) {
    k.Quiet? && k.fire.Some? && k.fire.value.deferUntil.Some? ==> !p.PrClosed? && !p.IssueClosedNow?
  }

  lemma KeepCloseDrop(c: Ctx, k: Kind, s: Item, p: Payload)
    requires Ready(c, k, s) && CloseFits(k, p)
    ensures Ready(c, k, if (p.PrClosed? || p.IssueClosedNow?) && Deferred(s) then Disarm(s) else s)
  {
    hide WorldOk;
    if (p.PrClosed? || p.IssueClosedNow?) && Deferred(s) {
      KeepDisarm(c, k, s);
    }
  }

  lemma KeepAfterClose(c: Ctx, k: Kind, s: Item, p: Payload)
    requires Ready(c, k, s) && CloseFits(k, p)
    ensures var st := AfterClose(c, s, p); Ready(c, k, st.s) && (NoFailures(c) ==> st.Ret?)
  {
    hide Ready, HandOffMerged, ExportWorkLog, NoFailures, NoEdits, StuckFree, CloseFits;
    if p.PrClosed? {
      KeepHandOffs(c, k, s, p.merged, p.hasCommit, p.closes, 0);
      var h := HandOffMerged(c, s, p.merged, p.hasCommit, p.closes);
      if h.Ret? {
        KeepExport(c, k, h.s, p.merged, p.closes);
        KeepCloseDrop(c, k, ExportWorkLog(c, h.s, p.merged, p.closes), p);
      }
    } else {
      KeepCloseDrop(c, k, s, p);
    }
  }

  /** What follows the event: the memory of a report, and a close's own part. */
  lemma KeepTail(c: Ctx, k: Kind, s: Item, before: Option<Fire>, p: Payload, r: Result)
    requires Ready(c, k, s) && CloseFits(k, p)
    requires k.Remembers? && before.Some? && before.value.run == k.run ==> Tally(s.trace, Starts(k.run)) > k.n
    ensures var st := AfterClose(c, RememberReport(s, before, p, r), p); Ready(c, k, st.s) && (NoFailures(c) ==> st.Ret?)
  {
    hide Ready, AfterClose, RememberReport, NoFailures, CloseFits, Tally;
    KeepRemember(c, k, s, before, p, r);
    KeepAfterClose(c, k, RememberReport(s, before, p, r), p);
  }

  /** A run already pending when an outcome came has been started since. */
  lemma KeepStarted(c: Ctx, k: Kind, s: Item, i: Input)
    requires Ready(c, k, s) && k.Remembers? && Running(s, k.run)
    ensures Tally(ProcessEvent(c, s, i).s.trace, Starts(k.run)) > k.n
  {
    hide ProcessEvent, NoFailures;
    var k1 := Ever(Starts(k.run), k.n);
    assert Ready(c, k1, s);
    KeepProcessEvent(c, k1, s, i);
    EverHolds(c, k1, ProcessEvent(c, s, i));
  }

  lemma EverHolds(c: Ctx, k: Kind, st: Step<Result>)
    requires KeptOpen(c, k, st) && k.Ever?
    ensures Tally(st.s.trace, k.tag) > k.n
  {
    hide NoFailures;
  }

  lemma KeepProcess(c: Ctx, k: Kind, s: Item, i: Input)
    requires Ready(c, k, s) && Fresh(k, s) && Fits(k, i.payload)
    ensures KeptOpen(c, k, ProcessWebhook(c, s, i))
  {
    hide Ready, Holds, Fresh, ProcessEvent, LogDeduped, AfterClose, RememberReport, SecondCarrier, NoFailures, CloseFits, Tally;
    if SecondCarrier(s, i.payload) {
      KeepLogDeduped(c, k, s);
    } else {
      KeepProcessEvent(c, k, s, i);
      if k.Remembers? && Running(s, k.run) {
        KeepStarted(c, k, s, i);
      }
      KeepProcessTail(c, k, s, i);
    }
  }

  lemma KeepProcessTail(c: Ctx, k: Kind, s: Item, i: Input)
    requires Ready(c, k, s) && Fits(k, i.payload) && KeptOpen(c, k, ProcessEvent(c, s, i))
    requires k.Remembers? && Running(s, k.run) ==> Tally(ProcessEvent(c, s, i).s.trace, Starts(k.run)) > k.n
    requires !SecondCarrier(s, i.payload)
    ensures KeptOpen(c, k, ProcessWebhook(c, s, i))
  {
    hide Ready, ProcessEvent, AfterClose, RememberReport, SecondCarrier, NoFailures, Tally;
    var st := ProcessEvent(c, s, i);
    if st.Ret? {
      if st.v.Applied? {
        KeepTail(c, Opened(k), st.s, s.pending, i.payload, st.v);
      } else {
        KeepTail(c, k, st.s, s.pending, i.payload, st.v);
      }
    }
  }

  lemma KeepProcessWebhook(c: Ctx, k: Kind, s: Item, i: Input)
    requires Ready(c, k, s) && Fits(k, i.payload)
    ensures KeptOpen(c, k, ProcessWebhook(c, s, i))
  {
    hide ProcessWebhook, NoFailures, Tally;
    if Fresh(k, s) {
      KeepProcess(c, k, s, i);
    } else {
      var k1 := Ever(Matches, k.n);
      KeepProcess(c, k1, s, i);
      StaleKept(c, k, s, ProcessWebhook(c, s, i));
    }
  }

  lemma StaleKept(c: Ctx, k: Kind, s: Item, st: Step<Result>)
    requires Ready(c, k, s) && (k.Address? || k.Still?) && KeptOpen(c, Ever(Matches, k.n), st)
    ensures KeptOpen(c, k, st)
  {
    hide NoFailures;
  }

  lemma KeepSeen(c: Ctx, k: Kind, s: Item, seen: set<DeliveryId>)
    requires Ready(c, k, s)
    requires k.Seen? ==> (k.id in s.seen ==> k.id in seen)
    requires k.Unseen? ==> (k.id in seen ==> k.id in s.seen)
    ensures Ready(c, k, s.(seen := seen))
  {
    hide Tally, LastEntry, Passed;
  }

  lemma SeenSays(c: Ctx, k: Kind, s: Item)
    requires Ready(c, k, s) && k.Seen?
    ensures k.id in s.seen
  {
  }

  /** A delivery keeps every kind it fits. */
  lemma KeepDelivery(c: Ctx, k: Kind, s: Item, i: Input)
    requires Ready(c, k, s) && Fits(k, i.payload)
    requires k.Unseen? ==> i.id != k.id
    ensures KeptOpen(c, k, CoordinateWebhook(c, s, i))
  {
    hide Ready, ProcessWebhook, NoFailures, Fits;
    if i.id == NoId {
      KeepProcessWebhook(c, k, s, i);
    } else if i.id !in s.seen {
      if k.Seen? {
        SeenSays(c, k, s);
      }
      KeepSeen(c, k, s, s.seen + {i.id});
      var s1 := s.(seen := s.seen + {i.id});
      KeepProcessWebhook(c, k, s1, i);
      var st := ProcessWebhook(c, s1, i);
      if st.Thr? {
        var k1 := if Ready(c, k, st.s) then k else Opened(k);
        KeepSeen(c, k1, st.s, st.s.seen - {i.id});
      }
    }
  }
}
