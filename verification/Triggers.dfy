// What a label edit does (graph/github/from-github.ts,
// worker/src/coordinate/webhook.ts): a person's trigger label, a routine's own
// swap, a trigger taken off.

module Triggers {
  import opened Wrappers
  import opened Graph
  import opened Labels
  import opened Items
  import opened Apply
  import opened Gates
  import opened Deliveries
  import opened Stages
  import opened Webhook
  import opened Kinds
  import opened WebhookKeeps
  import opened Fires
  import opened Delivering
  import opened Steps
  import opened Reports

  // --- a person's label on an issue ---

  /** The routine an issue's trigger label asks for; after the Worker merged its
      release, the part that follows the merge. */
  function RunOf(l: Label, merged: bool): Option<Routine> {
    match l
    case AiReady => Some(IssueBuildLoop)
    case AutoReleasing => Some(if merged then ReleasePublish else AutoReleaseLoop)
    case AiDiscussing => Some(IssueDiscussLoop)
    case _ => None
  }

  /** The label is on, beside nothing, or beside ai-stuck on a person's retry. */
  predicate JustOn(labels: set<Label>, l: Label) {
    labels == {l} || (l != AiDiscussing && l != AiStuck && labels == {AiStuck, l})
  }

  predicate IssueLabel(p: Payload, l: Label) {
    p.Labeled? && !p.onPr && !p.own && !p.closed && p.lane == Some(l)
  }

  lemma TriggerRule(labels: set<Label>, l: Label)
    requires l in {AiReady, AutoReleasing, AiDiscussing} && JustOn(labels, l)
    ensures var e := IssueLabelled(l).value; var found := RuleFor(labels, e);
      && IssueLabelled(l).Some? && JustAdded(e) == Some(l)
      && found.Some? && found.value.to == ToLabel(l) && found.value.run == RunOf(l, false) && After(labels, found.value) == {l}
  {
    hide DeriveState, Decide;
    var e := IssueLabelled(l).value;
    TriggerDecision(l);
    ReadingMeans(Before(labels, e));
    if labels == {l} {
      assert Before(labels, e) == {};
      assert After(labels, Decide(Untracked, e).value) == {l};
    } else {
      assert Before(labels, e) == {AiStuck};
      assert DeriveState({AiStuck}) == Clear(At(AiStuck));
      assert After(labels, Decide(At(AiStuck), e).value) == {l};
    }
  }

  lemma TriggerDecision(l: Label)
    requires l in {AiReady, AutoReleasing, AiDiscussing}
    ensures var e := IssueLabelled(l).value;
      && Decide(Untracked, e) == Some(Rule(Untracked, e, ToLabel(l), RunOf(l, false)))
      && (l != AiDiscussing ==> Decide(At(AiStuck), e) == Some(Rule(At(AiStuck), e, ToLabel(l), RunOf(l, false))))
  {
  }

  lemma LabelEvent(s: Item, e: Event, cl: set<Label>)
    requires JustAdded(e).Some? || e.BuildSucceeded? || e.BuildBlocked?
    ensures EndRework(s, e, cl) == ReworkEnd(s, e, false, NOTHING_LATER)
  {
    hide DeriveState;
  }

  lemma MergedRule()
    ensures RuleFor({AutoReleasing}, ReleaseMerged) == Some(Rule(At(AutoReleasing), ReleaseMerged, Noop, Some(ReleasePublish)))
  {
    hide DeriveState;
    ReadingMeans({AutoReleasing});
    assert Before({AutoReleasing}, ReleaseMerged) == {AutoReleasing};
    assert DeriveState({AutoReleasing}) == Clear(At(AutoReleasing));
  }

  lemma WriteRests(c: Ctx, s: Item, io: bool, add: bool, l: Label)
    requires NoEdits(c)
    ensures var w := WriteLabel(c, s, io, add, l);
      && Unfired(s, w.s) && Counters(s, w.s)
      && (w.Ret? ==> w.s.labels == if !io then s.labels else if add then s.labels + {l} else s.labels - {l})
  {
    WritesUnfired(c, s, io, add, l);
  }

  /** The part after the merge, again: ai-stuck comes off first. */
  lemma RetryMoves(c: Ctx, s: Item, told: bool)
    requires c.mode && NoEdits(c) && JustOn(s.labels, AutoReleasing)
    ensures Moves(c, s, RetryReleasePublish(c, s, s.labels, told), {AutoReleasing}, Some(ReleasePublish))
  {
    hide WriteLabel, ApplyEvent, NoEdits, StuckFree, Fired, RuleFor, Moves, After, Framed;
    var io := AiStuck in s.labels && c.Enforced(ReleaseMerged);
    WriteRests(c, s, io, false, AiStuck);
    var w := WriteLabel(c, s, io, false, AiStuck);
    assert s.labels - {AiStuck} == {AutoReleasing};
    if w.Ret? {
      assert w.s.labels == {AutoReleasing};
      MergedRule();
      EventMoves(c, w.s, ReleaseMerged, told);
      var st := ApplyEvent(c, w.s, ReleaseMerged, {AutoReleasing}, told);
      NoopStays({AutoReleasing}, ReleaseMerged);
      UnfiredItself(st.s);
      Moved(c, w.s, st);
      MovesOn(c, s, w.s, st, st, {AutoReleasing}, Some(ReleasePublish));
    } else {
      StopsShort(c, s, Thr(w.s), {AutoReleasing}, Some(ReleasePublish));
    }
  }

  lemma Moved(c: Ctx, s: Item, st: Step<Result>)
    ensures forall to, run | Moves(c, s, st, to, run) && st.Ret? :: st.v.Applied?
  {
    hide Fired;
  }

  lemma NoopStays(labels: set<Label>, e: Event)
    requires RuleFor(labels, e).Some? && RuleFor(labels, e).value.to.Noop?
    ensures After(labels, RuleFor(labels, e).value) == labels
  {
    hide RuleFor;
  }

  lemma TriggerMoves(c: Ctx, s: Item, i: Input, l: Label)
    requires c.mode && NoEdits(c) && IssueLabel(i.payload, l) && l in {AiReady, AutoReleasing, AiDiscussing} && JustOn(s.labels, l)
    ensures Moves(c, s, OnEvent(c, s, i, IssueLabelled(l).value, s.labels), {l}, RunOf(l, s.releaseMerged.Some?))
  {
    hide EndRework, Plain, RetryReleasePublish, NoEdits, StuckFree, Fired, Moves, After, RuleFor, DeriveState;
    var e := IssueLabelled(l).value;
    LabelEvent(s, e, s.labels);
    TriggerRule(s.labels, l);
    PlainMoves(c, s, i, e, NOTHING_LATER, false);
    if l == AutoReleasing {
      RetryMoves(c, s, Told(i));
    }
  }

  /** A person adds a trigger label to an open issue: it carries that label
      alone, ai-stuck off, and the label's own routine is the one thing fired. */
  lemma TriggerStartsItsRoutine(c: Ctx, s: Item, i: Input, l: Label)
    requires c.mode && NoEdits(c) && IssueLabel(i.payload, l) && l in {AiReady, AutoReleasing, AiDiscussing} && JustOn(s.labels, l)
    requires Unhandled(s, i)
    ensures Moves(c, s, CoordinateWebhook(c, s, i), {l}, RunOf(l, s.releaseMerged.Some?))
  {
    hide OnEvent, CoordinateWebhook, AtEvent, NoEdits, StuckFree, Moves, Unhandled, Fired;
    var e := IssueLabelled(l).value;
    ReadCalm(c, s, i, e);
    var u := AtEvent(c, s, i, e);
    ClaimedUnfired(s, i, u);
    TriggerMoves(c, u, i, l);
    Delivered(c, s, i, e, {l}, RunOf(l, s.releaseMerged.Some?));
  }

  // --- what starts nothing ---

  /** Only handled, and perhaps logged. */
  lemma NoteStands(c: Ctx, s: Item, known: bool)
    requires NoEdits(c)
    ensures Stands(s, NoteOverride(c, s, known))
  {
    hide GetLabels, Say, NoEdits, StuckFree, Fired;
    LabelsGlance(c, s);
    var g := GetLabels(c, s).s;
    GlancedCalm(c, s, g);
    CalmCounts(s, g);
    SayRests(c, g, true, Row);
    SaysCount(c, g, true, Row);
    SayRests(c, s, true, Row);
    SaysCount(c, s, true, Row);
    RestsOn(s, g, Log(c, g).s);
  }

  lemma CalmStands(s: Item, t: Item, st: Step<Result>)
    requires Calm(s, t) && Stands(t, st)
    ensures Stands(s, st)
  {
  }

  lemma SameStands(s: Item, i: Input, st1: Step<Result>, st: Step<Result>)
    requires Stands(Claimed(s, i), st1) && Same(st1, st)
    ensures Stands(s, st)
  {
  }

  /** A label event that is nobody's, the Worker's own echo, and any label put on
      a closed issue: nothing moves, nothing is fired. */
  lemma EchoMovesNothing(c: Ctx, s: Item, i: Input)
    requires NoEdits(c) && Unhandled(s, i) && (i.payload.Labeled? || i.payload.Unlabeled?)
    requires i.payload.own || i.payload.lane.None? || (i.payload.Labeled? && !i.payload.onPr && i.payload.closed)
    ensures Stands(s, CoordinateWebhook(c, s, i))
  {
    hide CoordinateWebhook, NoEdits, StuckFree, Unhandled, BotLogin, NoteOverride, TakeEvent, Fired;
    Wraps(c, s, i);
    var s0 := Claimed(s, i);
    BotGlances(c, s0);
    var b := BotLogin(c, s0);
    GlancedCalm(c, s0, b.s);
    CalmCounts(s0, b.s);
    NoteStands(c, b.s, HasSnapshot(i.payload));
    CalmStands(s0, b.s, NoteOverride(c, b.s, HasSnapshot(i.payload)));
    SameStands(s, i, ProcessEvent(c, s0, i), CoordinateWebhook(c, s, i));
  }

  lemma NoteIsRow(c: Ctx, s: Item, known: bool)
    ensures var st := NoteOverride(c, s, known); st.Ret? ==> st.v.ManualOverride? && st.s.trace == s.trace + [Row]
  {
  }

  lemma LoginLeaves(c: Ctx, s: Item)
    ensures BotLogin(c, s).s.trace == s.trace
  {
  }

  /** A person's edit of a tracked label that no event reads: only a row. */
  lemma OverrideIsLogged(c: Ctx, s: Item, i: Input)
    requires Unhandled(s, i) && (i.payload.Labeled? || i.payload.Unlabeled?) && i.payload.lane.Some? && !i.payload.own
    requires Translate(i.payload).None?
    ensures var st := CoordinateWebhook(c, s, i); st.Ret? ==> st.v.ManualOverride? && st.s.trace == s.trace + [Row]
  {
    hide Unhandled, Translate, CoordinateWebhook, BotLogin, NoteOverride, TakeEvent;
    Wraps(c, s, i);
    var s0 := Claimed(s, i);
    LoginLeaves(c, s0);
    NoteIsRow(c, BotLogin(c, s0).s, HasSnapshot(i.payload));
  }

  // --- a build's own swap ---

  /** pr-open or ai-blocked added to an issue, as its build does itself, ends the
      run: the label alone is on, ai-stuck too taken off, and nothing is fired. */
  lemma BuildsOwnLabel(c: Ctx, s: Item, i: Input, l: Label)
    requires c.mode && NoEdits(c) && IssueLabel(i.payload, l) && l in {PrOpen, AiBlocked} && JustOn(s.labels, l) && Unhandled(s, i)
    ensures Moves(c, s, CoordinateWebhook(c, s, i), {l}, None)
  {
    hide OnEvent, CoordinateWebhook, AtEvent, NoEdits, StuckFree, Moves, Unhandled, Fired;
    var e := if l == PrOpen then BuildSucceeded else BuildBlocked;
    ReadCalm(c, s, i, e);
    var u := AtEvent(c, s, i, e);
    ClaimedUnfired(s, i, u);
    SwapMoves(c, u, i, l);
    Delivered(c, s, i, e, {l}, None);
  }

  lemma SwapMoves(c: Ctx, s: Item, i: Input, l: Label)
    requires c.mode && NoEdits(c) && IssueLabel(i.payload, l) && l in {PrOpen, AiBlocked} && JustOn(s.labels, l)
    ensures var e := if l == PrOpen then BuildSucceeded else BuildBlocked;
      Moves(c, s, OnEvent(c, s, i, e, s.labels), {l}, None)
  {
    hide EndRework, Plain, NoEdits, StuckFree, Fired, Moves, After, RuleFor, DeriveState;
    var e := if l == PrOpen then BuildSucceeded else BuildBlocked;
    LabelEvent(s, e, s.labels);
    SwapRule(s.labels, l);
    PlainMoves(c, s, i, e, NOTHING_LATER, false);
  }

  lemma SwapRule(labels: set<Label>, l: Label)
    requires l in {PrOpen, AiBlocked} && JustOn(labels, l)
    ensures var found := RuleFor(labels, if l == PrOpen then BuildSucceeded else BuildBlocked);
      found.Some? && found.value.run.None? && After(labels, found.value) == {l}
  {
    hide DeriveState;
    var e := if l == PrOpen then BuildSucceeded else BuildBlocked;
    assert Before(labels, e) == labels;
    if labels == {l} {
      ReadingMeans({l});
      assert DeriveState({l}) == Clear(At(l));
    } else {
      PairReading(AiStuck, l);
      assert After(labels, Decide(At(AiStuck), e).value) == {l};
    }
  }

  // --- a trigger taken off ---

  predicate TakenOff(p: Payload, l: Label) {
    p.Unlabeled? && !p.own && p.lane == Some(l)
    && if p.onPr then l in {AutoReworking, AutoMerging, AiReviewing} else l in {AiReady, AutoReleasing}
  }

  function OffEvent(l: Label): Event {
    match l
    case AiReady => UnlabelledAiReady
    case AutoReleasing => UnlabelledAutoReleasing
    case AutoReworking => UnlabelledAutoReworking
    case AutoMerging => UnlabelledAutoMerging
    case _ => UnlabelledAiReviewing
  }

  lemma OffRule(labels: set<Label>, l: Label)
    requires labels == {} || labels == {AiStuck}
    requires l in {AiReady, AutoReleasing, AutoReworking, AutoMerging, AiReviewing}
    ensures var found := RuleFor(labels, OffEvent(l)); found.Some? && found.value.run.None? && found.value.to.Noop? && After(labels, found.value) == labels
  {
    hide DeriveState;
    assert Before(labels, OffEvent(l)) == labels;
    ReadingMeans(labels);
  }

  /** The end of a rework whose label was taken off: the flag its push would have
      gone by is cleared. */
  lemma OffEnds(s: Item, l: Label, cl: set<Label>)
    requires l in {AiReady, AutoReleasing, AutoReworking, AutoMerging, AiReviewing}
    ensures var p := EndRework(s, OffEvent(l), cl);
      && p.e == OffEvent(l) && Rests(s, p.s)
      && (l == AutoReworking ==> FixEnded(s, p.s)) && p.later == NOTHING_LATER
  {
    hide DeriveState, EndRework, Rests, FixEnded;
    UnfiredItself(s);
    if l == AutoReworking {
      OffRework(s, cl);
    } else {
      OffOther(s, l, cl);
    }
  }

  lemma OffRework(s: Item, cl: set<Label>)
    ensures var p := EndRework(s, UnlabelledAutoReworking, cl);
      p.e == UnlabelledAutoReworking && Rests(s, p.s) && FixEnded(s, p.s) && p.later == NOTHING_LATER
  {
    hide DeriveState, Fired;
    if CiFixPending(s) {
      assert EndRework(s, UnlabelledAutoReworking, cl).s == PutCiFix(s, Some(s.ciFix.value.(pending := false)));
    } else if FixPending(s) {
      assert EndRework(s, UnlabelledAutoReworking, cl).s == PutRounds(s, Some(s.rounds.value.(fixPending := false)));
    }
  }

  lemma OffOther(s: Item, l: Label, cl: set<Label>)
    requires l in {AiReady, AutoReleasing, AutoMerging, AiReviewing}
    ensures EndRework(s, OffEvent(l), cl) == ReworkEnd(s, OffEvent(l), false, NOTHING_LATER)
  {
    hide DeriveState;
  }

  lemma OffClaims(s: Item, l: Label)
    requires l in {AiReady, AutoReleasing, AutoReworking, AutoMerging, AiReviewing}
    ensures EndRework(s, OffEvent(l), s.labels).s.reworkExpired == s.reworkExpired
  {
    hide DeriveState;
  }

  /** Taking a trigger label off, with nothing else on but perhaps ai-stuck, ends
      its run: nothing is pending any more, and the labels stay as they are; and
      the fix a rework was out for. An expiry's claim on the next push stands. */
  lemma TakingOffEndsTheRun(c: Ctx, s: Item, i: Input, l: Label)
    requires c.mode && NoEdits(c) && TakenOff(i.payload, l) && (s.labels == {} || s.labels == {AiStuck}) && Unhandled(s, i)
    ensures var st := CoordinateWebhook(c, s, i);
      && Moves(c, s, st, s.labels, None) && (st.Ret? && l == AutoReworking ==> FixEnded(s, st.s))
      && (st.Ret? && s.labels == {AiStuck} ==> st.s.reworkExpired == s.reworkExpired)
  {
    hide OnEvent, CoordinateWebhook, AtEvent, NoEdits, StuckFree, Moves, Unhandled, Fired, Reached;
    var e := OffEvent(l);
    ReadCalm(c, s, i, e);
    var u := AtEvent(c, s, i, e);
    ClaimedUnfired(s, i, u);
    OffMoves(c, u, i, l);
    Delivered(c, s, i, e, s.labels, None);
    Delivers(c, s, i, e);
  }

  lemma OffMoves(c: Ctx, s: Item, i: Input, l: Label)
    requires c.mode && NoEdits(c) && TakenOff(i.payload, l) && (s.labels == {} || s.labels == {AiStuck})
    ensures var st := OnEvent(c, s, i, OffEvent(l), s.labels);
      && Moves(c, s, st, s.labels, None) && (l == AutoReworking ==> FixEnded(s, st.s))
      && (st.Ret? && s.labels == {AiStuck} ==> st.s.reworkExpired == s.reworkExpired)
  {
    hide EndRework, Plain, NoEdits, StuckFree, Fired, Moves, After, RuleFor, DeriveState, Rests;
    var e := OffEvent(l);
    OffEnds(s, l, s.labels);
    OffRule(s.labels, l);
    var p := EndRework(s, e, s.labels);
    RestsSays(s, p.s);
    PlainMoves(c, p.s, i, e, p.later, false);
    PlainKeeps(c, p.s, i, e, false);
    OffClaims(s, l);
    if s.labels == {AiStuck} {
      PlainUnclaims(c, p.s, i, e);
    }
    var st := Plain(c, p.s, i, e, s.labels, p.later, false);
    Moved(c, p.s, st);
    UnfiredItself(st.s);
    MovesOn(c, s, p.s, st, st, s.labels, None);
  }

  lemma RestsSays(s: Item, t: Item)
    requires Rests(s, t)
    ensures t.labels == s.labels && Unfired(s, t)
  {
  }

  // --- a rework asked for by hand ---

  predicate ReworkLabel(p: Payload) {
    p.Labeled? && p.onPr && !p.own && p.lane == Some(AutoReworking)
  }

  /** Beside auto-reworking: nothing, or a label a person takes the PR from. */
  predicate FromHere(labels: set<Label>) {
    labels == {AutoReworking} || labels == {AiStuck, AutoReworking} || labels == {ReadyForReview, AutoReworking}
  }

  /** The rounds a person's rework counts, the one asked for included. */
  function RoundsNow(s: Item): nat {
    if AiStuck in s.labels then 1 else if ReadyForReview in s.labels then s.reviewReworks else s.reviewReworks + 1
  }

  predicate PastTheCap(c: Ctx, s: Item) {
    s.labels == {AutoReworking} && s.reviewReworks >= c.caps.reviewReworks
  }

  /** The PR is in the review's hands: passed, or stuck with a round of findings
      or a fix of the review's behind it. */
  predicate InReview(s: Item) {
    ReadyForReview in s.labels || (AiStuck in s.labels && (s.rounds.Some? || (s.ciFix.Some? && s.ciFix.value.toReview)))
  }

  /** What a person's auto-reworking comes to. */
  predicate Asks(c: Ctx, s: Item, st: Step<Result>) {
    if PastTheCap(c, s) then
      Moves(c, s, st, {AiStuck}, None) && Spoke(st) && st.s.reviewReworks == s.reviewReworks
    else
      && Moves(c, s, st, {AutoReworking}, Some(ReworkLoop))
      && (st.Ret? ==>
            && st.s.reviewReworks == RoundsNow(s)
            && (InReview(s) && !CiFixPending(s) ==> AddressOf(st.s) == Some(AiReviewing) && st.s.rounds == Some(Rounds(0, true))))
  }

  lemma ReworkRule(labels: set<Label>)
    requires FromHere(labels)
    ensures var found := RuleFor(labels, LabelledAutoReworking);
      found.Some? && found.value.run == Some(ReworkLoop) && After(labels, found.value) == {AutoReworking}
    ensures DeriveState(labels - {AutoReworking}) ==
      Clear(if labels == {AutoReworking} then Untracked else if AiStuck in labels then At(AiStuck) else At(ReadyForReview))
  {
    hide DeriveState, Decide;
    ReworkDecision();
    if labels == {AutoReworking} {
      AddedAlone(AutoReworking, LabelledAutoReworking);
      assert After(labels, Decide(Untracked, LabelledAutoReworking).value) == {AutoReworking};
    } else if AiStuck in labels {
      AddedBeside(AiStuck, AutoReworking, LabelledAutoReworking);
    } else {
      AddedBeside(ReadyForReview, AutoReworking, LabelledAutoReworking);
    }
  }

  /** A label's own event goes by what was on before it. */
  lemma AddedAlone(l: Label, e: Event)
    requires JustAdded(e) == Some(l)
    ensures DeriveState({l} - {l}) == Clear(Untracked) && RuleFor({l}, e) == Decide(Untracked, e)
  {
    hide DeriveState, Decide;
    assert {l} - {l} == {};
    ReadingMeans({});
  }

  lemma AddedBeside(from: Label, l: Label, e: Event)
    requires JustAdded(e) == Some(l) && from != l
    ensures DeriveState({from, l} - {l}) == Clear(At(from)) && RuleFor({from, l}, e) == Decide(At(from), e)
    ensures forall rule: Rule | rule.from == At(from) && rule.to == ToLabel(l) :: After({from, l}, rule) == {l}
  {
    hide DeriveState, Decide;
    assert {from, l} - {l} == {from};
    ReadingMeans({from});
    assert DeriveState({from}) == Clear(At(from));
    assert {from, l} - {from} + {l} == {l};
  }

  lemma ReworkDecision()
    ensures forall from | from in {Untracked, At(AiStuck), At(ReadyForReview)} ::
      Decide(from, LabelledAutoReworking) == Some(Rule(from, LabelledAutoReworking, ToLabel(AutoReworking), Some(ReworkLoop)))
  {
  }

  lemma CapRule(l: Label)
    requires l in {AutoReworking, AiReviewing}
    ensures var found := RuleFor({l}, ReworkCapReached);
      found.Some? && found.value.run.None? && After({l}, found.value) == {AiStuck}
  {
    hide DeriveState;
    ReadingMeans({l});
    assert Before({l}, ReworkCapReached) == {l};
    assert DeriveState({l}) == Clear(At(l));
    assert After({l}, RuleFor({l}, ReworkCapReached).value) == {AiStuck};
  }

  /** Past a cap the PR goes to ai-stuck, and nothing is fired. */
  lemma CapMoves(c: Ctx, s: Item, told: bool, l: Label)
    requires c.mode && NoEdits(c) && s.labels == {l} && l in {AutoReworking, AiReviewing}
    ensures var st := CapRework(c, s, s.labels, told);
      Moves(c, s, st, {AiStuck}, None) && Spoke(st) && st.s.reviewReworks == s.reviewReworks && (st.Ret? ==> !st.s.reworkExpired)
  {
    hide ApplyEvent, RuleFor, NoEdits, StuckFree, Fired, Moves, After, Say, Framed;
    CapRule(l);
    EventMoves(c, s, ReworkCapReached, told);
    var st := ApplyEvent(c, s, ReworkCapReached, s.labels, told);
    FramedReworks(s, st.s);
    Moved(c, s, st);
    if st.Ret? {
      var t := PutExpired(st.s, false);
      UnfiredItself(st.s);
      SayRests(c, t, c.Enforced(ReworkCapReached), CommentWrite(false));
      SaysCount(c, t, c.Enforced(ReworkCapReached), CommentWrite(false));
      SaidLast(c, t, st.v);
      RestsOn(st.s, t, Comment(c, t, c.Enforced(ReworkCapReached)).s);
      Itself(s);
      MovesOn(c, s, s, st, CapRework(c, s, s.labels, told), {AiStuck}, None);
    }
  }

  lemma AsksMoves(c: Ctx, s: Item, i: Input)
    requires c.mode && NoEdits(c) && FromHere(s.labels)
    ensures Asks(c, s, OnReworkLabel(c, s, i, s.labels))
  {
    hide Plain, CapRework, NoEdits, StuckFree, Fired, Moves, After, RuleFor, DeriveState;
    ReworkRule(s.labels);
    if PastTheCap(c, s) {
      CapMoves(c, s, Told(i), AutoReworking);
    } else {
      var stuck := AiStuck in s.labels;
      var counted := s.labels == {AutoReworking} || stuck;
      var s1 := if counted then s.(reviewReworks := RoundsNow(s)) else s;
      var s2 := if stuck then PutExpired(PutRounds(s1, None), false) else s1;
      var restart := InReview(s) && !CiFixPending(s2);
      var s3 := if restart then PutCiFix(PutRounds(s2, Some(Rounds(0, true))), None) else s2;
      var st := OnReworkLabel(c, s, i, s.labels);
      assert st == Plain(c, s3, i, LabelledAutoReworking, s3.labels, NOTHING_LATER, restart);
      PlainMoves(c, s3, i, LabelledAutoReworking, NOTHING_LATER, restart);
      PlainKeeps(c, s3, i, LabelledAutoReworking, restart);
      Moved(c, s3, st);
      UnfiredItself(st.s);
      MovesOn(c, s, s3, st, st, {AutoReworking}, Some(ReworkLoop));
    }
  }

  lemma ReworkEvent(c: Ctx, s: Item, i: Input)
    requires ReworkLabel(i.payload)
    ensures OnEvent(c, s, i, LabelledAutoReworking, s.labels) == OnReworkLabel(c, s, i, s.labels)
  {
    hide OnReworkLabel, DeriveState;
  }

  lemma SameCounters(s: Item, i: Input, u: Item)
    requires Calm(Claimed(s, i), u)
    ensures Counters(s, u) && u.labels == s.labels
  {
  }

  /** A person asks for a rework: within the cap it is fired, the round counted
      (afresh from ai-stuck), and a PR in the review's hands is due back there
      with a fresh count; past it the PR goes to ai-stuck with nothing fired. */
  lemma ReworkIsCounted(c: Ctx, s: Item, i: Input)
    requires c.mode && NoEdits(c) && ReworkLabel(i.payload) && FromHere(s.labels) && Unhandled(s, i)
    ensures Asks(c, s, CoordinateWebhook(c, s, i))
  {
    hide OnEvent, CoordinateWebhook, AtEvent, NoEdits, StuckFree, Moves, Unhandled, Fired, OnReworkLabel, Reached;
    var e := LabelledAutoReworking;
    Delivers(c, s, i, e);
    var u := AtEvent(c, s, i, e);
    ClaimedUnfired(s, i, u);
    SameCounters(s, i, u);
    ReworkEvent(c, u, i);
    AsksMoves(c, u, i);
    if Reached(c, s, i, e) {
      AsksSame(c, s, i, u, OnEvent(c, u, i, e, u.labels), CoordinateWebhook(c, s, i));
    } else {
      ShortStands(c, s, i, e);
      StopsShort(c, s, CoordinateWebhook(c, s, i), {AiStuck}, None);
      StopsShort(c, s, CoordinateWebhook(c, s, i), {AutoReworking}, Some(ReworkLoop));
    }
  }

  lemma AsksSame(c: Ctx, s: Item, i: Input, u: Item, st1: Step<Result>, st: Step<Result>)
    requires Calm(Claimed(s, i), u) && Asks(c, u, st1) && Same(st1, st)
    ensures Asks(c, s, st)
  {
    hide Fired, Moves;
    SameRests(st1, st);
    Moved(c, u, st1);
    if PastTheCap(c, s) {
      MovesOn(c, s, u, st1, st, {AiStuck}, None);
    } else {
      MovesOn(c, s, u, st1, st, {AutoReworking}, Some(ReworkLoop));
    }
  }
}
