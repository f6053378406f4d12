// What a routine's report does (graph/github/from-github.ts,
// worker/src/coordinate/webhook.ts, release.ts): outcome by outcome, label by
// label, whichever carrier brings it.

module Steps {
  import opened Wrappers
  import opened Graph
  import opened Labels
  import opened Items
  import opened Apply
  import opened Gates
  import opened Deliveries
  import opened Webhook
  import opened Kinds
  import opened Fires
  import opened Delivering

  /** The counters and records an event may leave alone, as they were. */
  predicate Counters(s: Item, t: Item) {
    && t.ciFix == s.ciFix && t.rounds == s.rounds && t.reviewReworks == s.reviewReworks && t.reworkExpired == s.reworkExpired
    && t.mergeFiredFor == s.mergeFiredFor && t.shipped == s.shipped && t.releaseMerged == s.releaseMerged && t.open == s.open
  }

  /** Nothing moved: the labels, what is pending, the counters; nothing fired,
      and nothing applied. */
  predicate Stands(s: Item, st: Step<Result>) {
    Rests(s, st.s) && Counters(s, st.s) && (st.Ret? ==> !st.v.Applied?)
  }

  lemma SaysCount(c: Ctx, s: Item, io: bool, m: Mark)
    ensures Counters(s, Say(c, s, io, m).s)
  {
  }

  lemma CalmCounts(s: Item, t: Item)
    requires Calm(s, t)
    ensures Counters(s, t) && Rests(s, t)
  {
  }

  lemma RestsOn(s: Item, t: Item, u: Item)
    requires Rests(s, t) && Rests(t, u)
    ensures Rests(s, u)
  {
  }

  /** What a later step does from `u`, the whole does from `s`. */
  lemma Lifts(c: Ctx, s: Item, u: Item, st1: Step<Result>, st: Step<Result>)
    requires NoneFired(s, u) && s.now <= u.now && Same(st1, st)
    ensures forall to, run | Moves(c, u, st1, to, run) :: Moves(c, s, st, to, run)
    ensures Rests(s, u) && Counters(s, u) && Stands(u, st1) ==> Stands(s, st)
  {
    hide Fired, Moves;
    SameRests(st1, st);
    forall to, run | Moves(c, u, st1, to, run)
      ensures Moves(c, s, st, to, run)
    {
      MovesMeans(c, u, st1, to, run);
      MovesOn(c, s, u, st1, st, to, run);
    }
  }

  /** An event with no rule moves nothing. */
  lemma EventStands(c: Ctx, s: Item, e: Event, told: bool)
    requires NoEdits(c) && RuleFor(s.labels, e).None?
    ensures Stands(s, ApplyEvent(c, s, e, s.labels, told))
  {
    hide RuleFor, NoEdits, StuckFree, Fired, Say, RuleCalls;
    SayRests(c, s, true, Row);
    SaysCount(c, s, true, Row);
    UnfiredItself(s);
  }

  /** It is a row in the log, unless it means nothing there by design. */
  lemma UnmatchedIsLogged(c: Ctx, s: Item, e: Event, told: bool)
    requires RuleFor(s.labels, e).None?
    ensures var st := ApplyEvent(c, s, e, s.labels, told); var reading := DeriveState(Before(s.labels, e));
      if reading.Clear? && Contextual(e) then st == Ret(s, Ignored(reading.state, e))
      else
        && (st.Ret? ==> st.s.trace == s.trace + [Row])
        && (st.Ret? ==> st.v == if reading.Clear? then DroppedNoRule(reading.state, e) else AmbiguousState)
  {
    hide RuleFor, DeriveState;
  }

  lemma UnfiredItself(s: Item)
    ensures Rests(s, s) && Counters(s, s)
  {
  }

  lemma SettleRests(c: Ctx, s: Item, cl: set<Label>, r: Result, later: Later, restart: bool)
    requires NoEdits(c)
    ensures Rests(s, Settle(c, s, cl, r, later, restart))
  {
    hide Say, NoEdits, StuckFree, DeriveState, Fired, Framed, ClearLater, Rests;
    UnfiredItself(s);
    if r.Applied? {
      var s1 := ClearLater(s, later);
      var s2 := if DeriveState(cl) == Clear(At(AiStuck)) && !r.rule.to.Noop? then PutExpired(s1, false) else s1;
      ClearedRests(s, later);
      ClaimRests(s, s1, s2);
      SayRests(c, s2, c.Enforced(LabelledAutoReworking), CommentWrite(false));
      RestsOn(s, s2, Comment(c, s2, c.Enforced(LabelledAutoReworking)).s);
    }
  }

  lemma ClearedRests(s: Item, later: Later)
    ensures Rests(s, ClearLater(s, later))
  {
  }

  lemma ClaimRests(s: Item, t: Item, u: Item)
    requires Rests(s, t) && (u == t || u == PutExpired(t, false))
    ensures Rests(s, u)
  {
  }

  /** An event handled plainly moves the item as its rule says. */
  lemma PlainMoves(c: Ctx, s: Item, i: Input, e: Event, later: Later, restart: bool)
    requires NoEdits(c) && c.Enforced(e) && RuleFor(s.labels, e).Some?
    ensures var rule := RuleFor(s.labels, e).value;
      Moves(c, s, Plain(c, s, i, e, s.labels, later, restart), After(s.labels, rule), rule.run)
  {
    hide ApplyEvent, RuleFor, NoEdits, StuckFree, After, Fired, Leaves, Reply, Framed, Settle, NoteOverride, Moves, Rests;
    var rule := RuleFor(s.labels, e).value;
    var st := ApplyEvent(c, s, e, s.labels, Told(i));
    EventMoves(c, s, e, Told(i));
    UnfiredItself(s);
    if st.Ret? {
      SettleRests(c, st.s, s.labels, st.v, later, restart);
      Itself(s);
      MovesOn(c, s, s, st, Plain(c, s, i, e, s.labels, later, restart), After(s.labels, rule), rule.run);
    }
  }

  lemma Itself(s: Item)
    ensures Unfired(s, s)
  {
  }

  /** And one with no rule, nothing. */
  lemma PlainStands(c: Ctx, s: Item, i: Input, e: Event, later: Later, restart: bool)
    requires NoEdits(c) && RuleFor(s.labels, e).None? && !Human(c, i.payload)
    ensures Stands(s, Plain(c, s, i, e, s.labels, later, restart))
  {
    hide ApplyEvent, RuleFor, NoEdits, StuckFree, Fired, NoteOverride;
    EventStands(c, s, e, Told(i));
  }

  /** Once it returns, the last thing it did was to say so on the item. */
  predicate Spoke(st: Step<Result>) {
    st.Ret? ==> st.s.trace != [] && st.s.trace[|st.s.trace| - 1] == CommentWrite(false)
  }

  lemma SaidLast(c: Ctx, s: Item, r: Result)
    ensures var k := Comment(c, s, true); Spoke(if k.Ret? then Ret(k.s, r) else Thr(k.s))
  {
  }

  lemma CommentMoves(c: Ctx, s: Item, st: Step<Result>, io: bool, to: set<Label>, run: Option<Routine>)
    requires NoEdits(c) && Moves(c, s, st, to, run) && st.Ret?
    ensures var k := Comment(c, st.s, io); var u := if k.Ret? then Ret(k.s, st.v) else Thr(k.s);
      Moves(c, s, u, to, run) && (io ==> Spoke(u))
  {
    hide Say, NoEdits, StuckFree, Fired, Moves, Framed, Spoke;
    SaidLast(c, st.s, st.v);
    SayRests(c, st.s, io, CommentWrite(false));
    Itself(s);
    var k := Comment(c, st.s, io);
    MovesMeans(c, s, st, to, run);
    MovesOn(c, s, s, st, if k.Ret? then Ret(k.s, st.v) else Thr(k.s), to, run);
  }

  lemma MovesMeans(c: Ctx, s: Item, st: Step<Result>, to: set<Label>, run: Option<Routine>)
    requires Moves(c, s, st, to, run)
    ensures st.Ret? ==> st.v.Applied? && st.s.labels == to
  {
  }

  /** The block, and its comment. */
  lemma BlockMoves(c: Ctx, s: Item, e: Event, told: bool)
    requires NoEdits(c) && c.Enforced(e)
    ensures var st := BlockMerge(c, s, s.labels, e, told);
      match RuleFor(s.labels, e)
      case Some(rule) => Moves(c, s, st, After(s.labels, rule), rule.run) && Spoke(st)
      case None => Stands(s, st)
  {
    hide ApplyEvent, RuleFor, NoEdits, StuckFree, After, Fired, Leaves, Reply, Framed, Moves, Comment;
    if RuleFor(s.labels, e).Some? {
      var rule := RuleFor(s.labels, e).value;
      EventMoves(c, s, e, told);
      var st := ApplyEvent(c, s, e, s.labels, told);
      if st.Ret? {
        CommentMoves(c, s, st, c.Enforced(e), After(s.labels, rule), rule.run);
        MovesMeans(c, s, st, After(s.labels, rule), rule.run);
      }
    } else {
      EventStands(c, s, e, told);
    }
  }

  lemma ShortStands(c: Ctx, s: Item, i: Input, e: Event)
    requires NoEdits(c) && Unhandled(s, i) && Plainly(i) && Translate(i.payload) == Some(e) && Allowed(c, i, e)
    requires !Reached(c, s, i, e)
    ensures Stands(s, CoordinateWebhook(c, s, i))
  {
    hide OnEvent, CoordinateWebhook, GetLabels, Counts, BotLogin, NoEdits, StuckFree, Translate, Unhandled, Fired;
    Wraps(c, s, i);
    ReadCalm(c, s, i, e);
    var b := BotLogin(c, Claimed(s, i));
    if b.Ret? && Counts(c, b.s, i, e).Ret? {
      Allows(c, b.s, i, e);
    }
  }
}

/** Where each outcome leads. */
module Reports {
  import opened Wrappers
  import opened Graph
  import opened Labels
  import opened Items
  import opened Apply
  import opened Gates
  import opened Deliveries
  import opened Stages
  import opened Webhook
  import opened Signals
  import opened Kinds
  import opened Keeps
  import opened GateKeeps
  import opened StageKeeps
  import opened Fires
  import opened Delivering
  import opened Steps
  import O = Outcomes

  /** The labels an outcome leaves of an item that carries just `from`; None
      where it means nothing there. Of the eleven, two do more than move the
      item: findings hand it out, an approved release is merged. */
  function EndsOn(o: O.Outcome, from: Label): Option<set<Label>> {
    match o
    case BuildDone(_) => if from in {AiReady, AiStuck, PrOpen} then Some({PrOpen}) else None
    case BuildStopped(_) => if from in {AiReady, AiStuck, AiBlocked} then Some({AiBlocked}) else None
    case ReleaseStopped(_) => if from in {AutoReleasing, AiStuck} then Some({}) else None
    case ReleaseOut(_, _) => if from in {AutoReleasing, AiStuck} then Some({from}) else None
    case ReviewClean => if from in {AiReviewing, AiStuck} then Some({ReadyForReview}) else None
    case ReviewStopped(_) => if from in {AiReviewing, AiStuck} then Some({AiBlocked}) else None
    case ReworkNothing(_) => if from in {AutoReworking, AiStuck} then Some({}) else None
    case MergeStopped(_) => if from == AutoMerging then Some({MergeBlocked}) else None
    case DiscussionFull => if from == AiDiscussing then Some({}) else None
    case ReleaseReady(_, _, _, _) => None
    case ReviewFound(_) => None
  }

  /** An outcome that does more than move its item. */
  predicate DoesMore(o: O.Outcome, from: Label) {
    (o.ReleaseReady? && from == AutoReleasing) || (o.ReviewFound? && from == AiReviewing)
  }

  /** A comment, or a signal's, that reports `o`. */
  predicate Carries(i: Input, o: O.Outcome) {
    i.payload.Commented? && i.payload.remark.outcome == Some(o) && !i.payload.remark.signed
  }

  predicate Ends(rule: Rule, from: Label, to: set<Label>) {
    After({from}, rule) == to && rule.run.None?
  }

  lemma OutcomeRule(o: O.Outcome, from: Label)
    requires !DoesMore(o, from)
    ensures var found := RuleFor({from}, OutcomeEvent(o));
      match EndsOn(o, from)
      case Some(to) => found.Some? && Ends(found.value, from, to)
      case None => found.None?
  {
    hide DeriveState, Decide;
    var e := OutcomeEvent(o);
    assert Before({from}, e) == {from};
    ReadingMeans({from});
    OutcomeDecision(o, from);
    if Decide(At(from), e).Some? {
      AfterAlone(from, Decide(At(from), e).value);
    }
  }

  lemma AfterAlone(from: Label, rule: Rule)
    requires rule.from == At(from)
    ensures After({from}, rule) == match rule.to
      case ToLabel(l) => {l}
      case Unlabel => {}
      case _ => {from}
  {
  }

  lemma OutcomeDecision(o: O.Outcome, from: Label)
    requires !DoesMore(o, from)
    ensures var found := Decide(At(from), OutcomeEvent(o));
      match EndsOn(o, from)
      case None => found.None?
      case Some(to) =>
        && found.Some? && found.value.from == At(from) && found.value.run.None?
        && match found.value.to
           case ToLabel(l) => to == {l}
           case Unlabel => to == {}
           case _ => to == {from}
  {
  }

  // --- each report's own handling ---

  /** `st` moves an item that carries just `from` as `o` says, or nothing. */
  predicate Does(c: Ctx, s: Item, st: Step<Result>, o: O.Outcome, from: Label) {
    match EndsOn(o, from)
    case Some(to) => Moves(c, s, st, to, None)
    case None => Stands(s, st)
  }

  lemma PlainDoes(c: Ctx, s: Item, i: Input, o: O.Outcome, from: Label, later: Later)
    requires c.mode && NoEdits(c) && s.labels == {from} && Carries(i, o) && !DoesMore(o, from)
    ensures Does(c, s, Plain(c, s, i, OutcomeEvent(o), s.labels, later, false), o, from)
  {
    hide Plain, RuleFor, NoEdits, StuckFree, Moves, Stands, After;
    OutcomeRule(o, from);
    var e := OutcomeEvent(o);
    if RuleFor(s.labels, e).Some? {
      PlainMoves(c, s, i, e, later, false);
    } else {
      PlainStands(c, s, i, e, later, false);
    }
  }

  lemma EventDoes(c: Ctx, s: Item, told: bool, o: O.Outcome, from: Label)
    requires c.mode && NoEdits(c) && s.labels == {from} && !DoesMore(o, from)
    ensures Does(c, s, ApplyEvent(c, s, OutcomeEvent(o), s.labels, told), o, from)
    ensures var st := ApplyEvent(c, s, OutcomeEvent(o), s.labels, told); st.Ret? ==> (st.v.Applied? <==> EndsOn(o, from).Some?)
  {
    hide ApplyEvent, RuleFor, NoEdits, StuckFree, Moves, Stands, After;
    OutcomeRule(o, from);
    var e := OutcomeEvent(o);
    AppliedMeans(c, s, e, s.labels, told);
    if RuleFor(s.labels, e).Some? {
      EventMoves(c, s, e, told);
    } else {
      EventStands(c, s, e, told);
    }
  }

  lemma TrustSays(c: Ctx, s: Item, i: Input)
    requires NoEdits(c) && Trusted(c, i) && i.payload.Commented?
    ensures var st := TrustedAuthor(c, s, i.actor.SignalActor?, i.payload.remark);
      Calm(s, st.s) && (st.Ret? ==> st.v)
  {
    hide NoEdits, StuckFree, BotLogin;
    BotGlances(c, s);
    GlancedCalm(c, s, BotLogin(c, s).s);
  }

  lemma {:induction false} ForwardsRest(c: Ctx, s: Item, to: seq<int>)
    requires NoEdits(c)
    ensures Rests(s, ForwardEach(c, s, to).s) && Counters(s, ForwardEach(c, s, to).s)
    decreases |to|
  {
    hide Say, NoEdits, StuckFree, Fired, Framed;
    UnfiredItself(s);
    if to != [] {
      SayRests(c, s, true, Forwarded);
      SaysCount(c, s, true, Forwarded);
      var f := Forward(c, s);
      if f.Ret? {
        ForwardsRest(c, f.s, to[1..]);
        RestsOn(s, f.s, ForwardEach(c, f.s, to[1..]).s);
      }
    }
  }

  /** What follows a move without moving it. */
  lemma ThenRests(c: Ctx, s: Item, s1: Item, st1: Step<Result>, st: Step<Result>, o: O.Outcome, from: Label)
    requires Calm(s, s1) && Does(c, s1, st1, o, from) && (EndsOn(o, from).None? ==> st == st1)
    requires Rests(st1.s, st.s) && (st.Ret? ==> st1.Ret? && st.v == st1.v)
    ensures Does(c, s, st, o, from)
  {
    hide Fired, Moves;
    if EndsOn(o, from).Some? {
      MovesMeans(c, s1, st1, EndsOn(o, from).value, None);
      MovesOn(c, s, s1, st1, st, EndsOn(o, from).value, None);
    }
  }

  lemma StopsDoes(c: Ctx, s: Item, st: Step<Result>, o: O.Outcome, from: Label)
    requires Calm(s, st.s) && st.Thr?
    ensures Does(c, s, st, o, from)
  {
    hide Fired;
    CalmCounts(s, st.s);
    if EndsOn(o, from).Some? {
      StopsShort(c, s, st, EndsOn(o, from).value, None);
    }
  }

  lemma PublishedDoes(c: Ctx, s: Item, i: Input, o: O.Outcome, from: Label)
    requires c.mode && NoEdits(c) && s.labels == {from} && Carries(i, o) && o.ReleaseOut? && Trusted(c, i)
    ensures Does(c, s, PublishedStage(c, s, s.labels, i.actor.SignalActor?, i.payload.remark, Told(i)), o, from)
  {
    hide ApplyEvent, TrustedAuthor, NoEdits, StuckFree, ForwardEach, Does, Fired, RuleFor;
    TrustSays(c, s, i);
    var a := TrustedAuthor(c, s, i.actor.SignalActor?, i.payload.remark);
    if a.Ret? {
      EventDoes(c, a.s, Told(i), o, from);
      var st := ApplyEvent(c, a.s, ReleasePublished, s.labels, Told(i));
      UnfiredItself(st.s);
      if st.Ret? && st.v.Applied? {
        var t := PutReleaseMerged(st.s, None);
        HandOffRests(c, t);
        RestsOn(st.s, t, HandOffRelease(c, t).s) by {
          UnfiredItself(st.s);
        }
      }
      ThenRests(c, s, a.s, st, PublishedStage(c, s, s.labels, i.actor.SignalActor?, i.payload.remark, Told(i)), o, from);
    } else {
      StopsDoes(c, s, Thr(a.s), o, from);
    }
  }

  lemma HandOffRests(c: Ctx, s: Item)
    requires NoEdits(c)
    ensures Rests(s, HandOffRelease(c, s).s) && Counters(s, HandOffRelease(c, s).s)
  {
    hide Items.Read, ForwardEach, NoEdits, StuckFree, Fired;
    ReadGlances(c, s);
    var r := Items.Read(c, s);
    GlancedCalm(c, s, r.s);
    CalmCounts(s, r.s);
    if r.Ret? {
      ForwardsRest(c, r.s, r.v.numbers);
      RestsOn(s, r.s, ForwardEach(c, r.s, r.v.numbers).s);
    }
  }

  /** Build: the comment's author trusted or not, the issue moves. */
  lemma BuiltDoes(c: Ctx, s: Item, i: Input, o: O.Outcome, from: Label)
    requires c.mode && NoEdits(c) && s.labels == {from} && Carries(i, o) && o.BuildDone?
    ensures Does(c, s, BuiltStage(c, s, s.labels, i.actor.SignalActor?, i.payload.remark, Told(i)), o, from)
  {
    hide ApplyEvent, TrustedAuthor, NoEdits, StuckFree, Does, Fired, RuleFor, Say;
    EventDoes(c, s, Told(i), o, from);
    var st := ApplyEvent(c, s, BuildSucceeded, s.labels, Told(i));
    UnfiredItself(st.s);
    Calmly(s);
    if st.Ret? && st.v.Applied? {
      var a := TrustedAuthor(c, st.s, i.actor.SignalActor?, i.payload.remark);
      TrustedGlances(c, st.s, i.actor.SignalActor?, i.payload.remark);
      GlancedCalm(c, st.s, a.s);
      CalmRests(st.s, a.s);
      SayRests(c, a.s, true, Forwarded);
      RestsOn(st.s, a.s, Forward(c, a.s).s);
    }
    ThenRests(c, s, s, st, BuiltStage(c, s, s.labels, i.actor.SignalActor?, i.payload.remark, Told(i)), o, from);
  }

  lemma Calmly(s: Item)
    ensures Calm(s, s)
  {
  }

  lemma PassedDoes(c: Ctx, s: Item, told: bool, from: Label)
    requires c.mode && NoEdits(c) && s.labels == {from}
    ensures Does(c, s, OnReviewPassed(c, s, s.labels, told), O.ReviewClean, from)
  {
    hide ApplyEvent, NoEdits, StuckFree, Does, Fired, RuleFor;
    EventDoes(c, s, told, O.ReviewClean, from);
    var st := ApplyEvent(c, s, ReviewPassed, s.labels, told);
    Calmly(s);
    UnfiredItself(st.s);
    ThenRests(c, s, s, st, OnReviewPassed(c, s, s.labels, told), O.ReviewClean, from);
  }

  lemma ReadyDoes(c: Ctx, s: Item, i: Input, o: O.Outcome, from: Label)
    requires c.mode && NoEdits(c) && s.labels == {from} && Carries(i, o) && o.ReleaseReady? && !DoesMore(o, from)
    ensures Does(c, s, ReleaseApprovedStage(c, s, s.labels, i.actor.SignalActor?, i.payload.remark, Told(i)), o, from)
  {
    hide ApplyEvent, TrustedAuthor, NoEdits, StuckFree, Does, Fired, RuleFor, MergeRelease;
    var a := TrustedAuthor(c, s, i.actor.SignalActor?, i.payload.remark);
    TrustedGlances(c, s, i.actor.SignalActor?, i.payload.remark);
    GlancedCalm(c, s, a.s);
    if a.Ret? && a.v {
      EventDoes(c, a.s, Told(i), o, from);
      var st := ApplyEvent(c, a.s, ReleaseApproved, s.labels, Told(i));
      UnfiredItself(st.s);
      ThenRests(c, s, a.s, st, ReleaseApprovedStage(c, s, s.labels, i.actor.SignalActor?, i.payload.remark, Told(i)), o, from);
    } else {
      CalmStands(c, s, ReleaseApprovedStage(c, s, s.labels, i.actor.SignalActor?, i.payload.remark, Told(i)), o, from);
    }
  }

  lemma CalmStands(c: Ctx, s: Item, st: Step<Result>, o: O.Outcome, from: Label)
    requires EndsOn(o, from).None? && Calm(s, st.s) && (st.Ret? ==> !st.v.Applied?)
    ensures Does(c, s, st, o, from)
  {
    CalmCounts(s, st.s);
  }

  lemma StoppedDoes(c: Ctx, s: Item, told: bool, o: O.Outcome, from: Label)
    requires c.mode && NoEdits(c) && s.labels == {from} && o.MergeStopped?
    ensures Does(c, s, BlockMerge(c, s, s.labels, MergeBlockReported, told), o, from)
  {
    hide BlockMerge, RuleFor, NoEdits, StuckFree, Moves, Stands, After;
    OutcomeRule(o, from);
    BlockMoves(c, s, MergeBlockReported, told);
  }

  /** A comment's event, routed. */
  lemma ReportDoes(c: Ctx, s: Item, i: Input, o: O.Outcome, from: Label, later: Later)
    requires c.mode && NoEdits(c) && s.labels == {from} && Carries(i, o) && !DoesMore(o, from)
    requires o.ReleaseOut? ==> Trusted(c, i)
    ensures Does(c, s, Route(c, s, i, OutcomeEvent(o), s.labels, later), o, from)
  {
    hide Plain, OnReport, NoEdits, StuckFree, Does, DeriveState, Trusted;
    if ReportEvent(OutcomeEvent(o)) {
      OwnReportDoes(c, s, i, o, from);
    } else {
      PlainDoes(c, s, i, o, from, later);
    }
  }

  /** The reports with a handling of their own. */
  lemma OwnReportDoes(c: Ctx, s: Item, i: Input, o: O.Outcome, from: Label)
    requires c.mode && NoEdits(c) && s.labels == {from} && Carries(i, o) && !DoesMore(o, from)
    requires (o.ReleaseOut? ==> Trusted(c, i)) && ReportEvent(OutcomeEvent(o))
    ensures Does(c, s, OnReport(c, s, i, OutcomeEvent(o), s.labels, i.payload.remark), o, from)
  {
    hide Plain, TakeFindings, ReleaseApprovedStage, PublishedStage, BuiltStage, BlockMerge, OnReviewPassed, NoEdits, StuckFree, Does,
      DeriveState, Trusted;
    match o
    case ReleaseReady(_, _, _, _) => ReadyDoes(c, s, i, o, from);
    case ReleaseOut(_, _) => PublishedDoes(c, s, i, o, from);
    case MergeStopped(_) => StoppedDoes(c, s, Told(i), o, from);
    case BuildDone(_) => BuiltDoes(c, s, i, o, from);
    case ReviewClean => PassedDoes(c, s, Told(i), from);
    case ReviewFound(_) =>
      ReadingMeans({from});
      assert DeriveState(s.labels) == Clear(At(from));
      PlainDoes(c, s, i, o, from, NOTHING_LATER);
    case _ =>
  }

  /** A report ends no rework's address but rework_no_change's own. */
  lemma EndOfReport(s: Item, o: O.Outcome, from: Label)
    requires s.labels == {from}
    ensures var p := EndRework(s, OutcomeEvent(o), s.labels);
      p.e == OutcomeEvent(o) && Rests(s, p.s) && (EndsOn(o, from).None? ==> p.s == s)
  {
    hide DeriveState, Fired;
    ReadingMeans({from});
    assert DeriveState(s.labels) == Clear(At(from));
    UnfiredItself(s);
  }

  lemma RestsDoes(c: Ctx, s: Item, s1: Item, st: Step<Result>, o: O.Outcome, from: Label)
    requires Rests(s, s1) && (EndsOn(o, from).None? ==> s1 == s) && Does(c, s1, st, o, from)
    ensures Does(c, s, st, o, from)
  {
    hide Fired, Moves;
    UnfiredItself(st.s);
    if EndsOn(o, from).Some? {
      MovesMeans(c, s1, st, EndsOn(o, from).value, None);
      MovesOn(c, s, s1, st, st, EndsOn(o, from).value, None);
    }
  }

  lemma TakenDoes(c: Ctx, s: Item, i: Input, o: O.Outcome, from: Label)
    requires c.mode && NoEdits(c) && s.labels == {from} && Carries(i, o) && !DoesMore(o, from)
    requires o.ReleaseOut? ==> Trusted(c, i)
    ensures Does(c, s, OnEvent(c, s, i, OutcomeEvent(o), s.labels), o, from)
  {
    hide EndRework, Route, NoEdits, StuckFree, Does, DeriveState, Trusted, Rests;
    EndOfReport(s, o, from);
    var p := EndRework(s, OutcomeEvent(o), s.labels);
    RestsLabels(s, p.s);
    ReportDoes(c, p.s, i, o, from, p.later);
    RestsDoes(c, s, p.s, Route(c, p.s, i, p.e, s.labels, p.later), o, from);
  }

  lemma RestsLabels(s: Item, t: Item)
    requires Rests(s, t)
    ensures t.labels == s.labels
  {
  }

  lemma Carried(c: Ctx, i: Input, o: O.Outcome)
    requires Carries(i, o)
    ensures Translate(i.payload) == Some(OutcomeEvent(o)) && Plainly(i)
    ensures Trusted(c, i) ==> Allowed(c, i, OutcomeEvent(o))
    ensures !(o.ReworkNothing? || o.MergeStopped? || o.DiscussionFull?) ==> Allowed(c, i, OutcomeEvent(o))
  {
  }

  /** The outcomes that count only from someone with write access. */
  predicate NeedsTrust(o: O.Outcome) {
    o.ReleaseOut? || o.ReworkNothing? || o.MergeStopped? || o.DiscussionFull?
  }

  lemma StandsOn(s: Item, i: Input, u: Item, st1: Step<Result>, st: Step<Result>)
    requires Calm(Claimed(s, i), u) && Stands(u, st1) && Same(st1, st)
    ensures Stands(s, st)
  {
  }

  /** A delivered outcome, on an item that carries one label: once it returns
      the item carries what the outcome says, nothing was fired and nothing is
      pending; and where it says nothing, the delivery moves nothing at all. */
  lemma OutcomeMovesItsItem(c: Ctx, s: Item, i: Input, o: O.Outcome, from: Label)
    requires c.mode && NoEdits(c) && s.labels == {from} && Carries(i, o) && !DoesMore(o, from) && Unhandled(s, i)
    requires NeedsTrust(o) ==> Trusted(c, i)
    ensures Does(c, s, CoordinateWebhook(c, s, i), o, from)
  {
    hide OnEvent, CoordinateWebhook, AtEvent, NoEdits, StuckFree, Moves, Stands, Unhandled, Trusted, Translate, Allowed, Plainly,
      Reached, Calm, Same;
    var e := OutcomeEvent(o);
    Carried(c, i, o);
    var u := AtEvent(c, s, i, e);
    Delivers(c, s, i, e);
    ClaimedUnfired(s, i, u);
    TakenDoes(c, u, i, o, from);
    if EndsOn(o, from).Some? {
      Delivered(c, s, i, e, EndsOn(o, from).value, None);
    } else if Reached(c, s, i, e) {
      StandsOn(s, i, u, OnEvent(c, u, i, e, u.labels), CoordinateWebhook(c, s, i));
    } else {
      ShortStands(c, s, i, e);
    }
  }

  // --- what two of them do besides ---

  lemma Closes(c: Ctx, s: Item, e: Event, told: bool)
    requires c.Enforced(e) && RuleFor(s.labels, e).Some?
    requires RuleFor(s.labels, e).value.to.Close? && RuleFor(s.labels, e).value.run.None?
    ensures var st := ApplyEvent(c, s, e, s.labels, told); st.Ret? ==> !st.s.open
  {
    hide RuleFor, Say;
    var rule := RuleFor(s.labels, e).value;
    RuleForNames(s.labels, e);
    var s1 := Marked(s, Matched(rule, PendingRun(s)));
    assert LabelOps(s.labels, rule) == [CloseOp];
    var w := CloseIssue(c, s1, true);
    assert WriteOps(c, s1, true, [CloseOp]) == if w.Ret? then WriteOps(c, w.s, true, []) else w;
    CloseShuts(c, s1);
    if w.Ret? {
      SaysCount(c, Disarm(w.s), true, Row);
    }
  }

  lemma CloseShuts(c: Ctx, s: Item)
    ensures var w := CloseIssue(c, s, true); w.Ret? ==> !w.s.open
  {
  }

  lemma PublishedRule(from: Label)
    requires from in {AutoReleasing, AiStuck}
    ensures RuleFor({from}, ReleasePublished).Some?
    ensures var r := RuleFor({from}, ReleasePublished).value; r.to.Close? && r.run.None?
  {
    hide DeriveState;
    ReadingMeans({from});
    assert Before({from}, ReleasePublished) == {from};
  }

  lemma PublishedEnds(c: Ctx, s: Item, i: Input, o: O.Outcome, from: Label)
    requires c.mode && NoEdits(c) && s.labels == {from} && Carries(i, o) && o.ReleaseOut? && from in {AutoReleasing, AiStuck}
    requires Trusted(c, i)
    ensures var st := PublishedStage(c, s, s.labels, i.actor.SignalActor?, i.payload.remark, Told(i));
      st.Ret? ==> !st.s.open && st.s.releaseMerged.None?
  {
    hide ApplyEvent, TrustedAuthor, NoEdits, StuckFree, HandOffRelease, RuleFor, Trusted;
    TrustSays(c, s, i);
    var a := TrustedAuthor(c, s, i.actor.SignalActor?, i.payload.remark);
    PublishedRule(from);
    if a.Ret? {
      Closes(c, a.s, ReleasePublished, Told(i));
      AppliedMeans(c, a.s, ReleasePublished, s.labels, Told(i));
      var st := ApplyEvent(c, a.s, ReleasePublished, s.labels, Told(i));
      HandOffRests(c, PutReleaseMerged(st.s, None));
    }
  }

  lemma EventIs(c: Ctx, s: Item, i: Input, o: O.Outcome, from: Label)
    requires Carries(i, o) && s.labels == {from} && (o.ReleaseOut? || o.ReviewClean?)
    ensures OnEvent(c, s, i, OutcomeEvent(o), s.labels) ==
      if o.ReleaseOut? then PublishedStage(c, s, s.labels, i.actor.SignalActor?, i.payload.remark, Told(i))
      else OnReviewPassed(c, s, s.labels, Told(i))
  {
    hide PublishedStage, OnReviewPassed, DeriveState;
  }

  /** A published release closes its issue, and ends the record of its merge. */
  lemma PublishedClosesTheIssue(c: Ctx, s: Item, i: Input, o: O.Outcome, from: Label)
    requires c.mode && NoEdits(c) && s.labels == {from} && Carries(i, o) && Unhandled(s, i) && Trusted(c, i)
    requires o.ReleaseOut? && from in {AutoReleasing, AiStuck}
    ensures var st := CoordinateWebhook(c, s, i); st.Ret? ==> !st.s.open && st.s.releaseMerged.None?
  {
    hide OnEvent, CoordinateWebhook, AtEvent, NoEdits, StuckFree, Unhandled, Trusted, Translate, Allowed, Plainly, Reached, PublishedStage;
    Carried(c, i, o);
    var u := AtEvent(c, s, i, OutcomeEvent(o));
    Delivers(c, s, i, OutcomeEvent(o));
    ClaimedUnfired(s, i, u);
    EventIs(c, u, i, o, from);
    PublishedEnds(c, u, i, o, from);
  }

  lemma PassedForgets(c: Ctx, s: Item, told: bool, from: Label)
    requires s.labels == {from} && from in {AiReviewing, AiStuck}
    ensures var st := OnReviewPassed(c, s, s.labels, told);
      st.Ret? ==> st.s.ciFix.None? && st.s.rounds.None? && !st.s.reworkExpired
  {
    hide ApplyEvent, RuleFor;
    OutcomeRule(O.ReviewClean, from);
    AppliedMeans(c, s, ReviewPassed, s.labels, told);
  }

  /** A passed review starts every count afresh. */
  lemma PassedStartsAfresh(c: Ctx, s: Item, i: Input, from: Label)
    requires c.mode && NoEdits(c) && s.labels == {from} && Carries(i, O.ReviewClean) && Unhandled(s, i)
    requires from in {AiReviewing, AiStuck}
    ensures var st := CoordinateWebhook(c, s, i); st.Ret? ==> st.s.ciFix.None? && st.s.rounds.None? && !st.s.reworkExpired
  {
    hide OnEvent, CoordinateWebhook, AtEvent, NoEdits, StuckFree, Unhandled, Translate, Allowed, Plainly, Reached, OnReviewPassed;
    Carried(c, i, O.ReviewClean);
    var u := AtEvent(c, s, i, ReviewPassed);
    Delivers(c, s, i, ReviewPassed);
    ClaimedUnfired(s, i, u);
    EventIs(c, u, i, O.ReviewClean, from);
    PassedForgets(c, u, Told(i), from);
  }

  // --- the routine's own signal ---

  /** What the live run's own report leaves, once it returns: its outcome's
      labels, nothing pending, and the run marked completed; or, where the
      outcome means nothing, everything as it was and the run still watched. */
  predicate Reported(s: Item, st: Step<SignalResult>, o: O.Outcome, from: Label) {
    st.Ret? ==>
      && NoneFired(s, st.s)
      && match EndsOn(o, from)
         case Some(to) => st.s.labels == to && Idle(st.s) && st.s.completed == Some(st.s.now)
         case None => Rests(s, st.s) && Counters(s, st.s)
  }

  lemma SignalCarries(s: Item, f: Fire, o: O.Outcome)
    requires SignalId(f.run, f.firedAt, O.NameOf(o)) !in s.seen && Unspent(s, f.run, O.NameOf(o))
    ensures var i := SignalInput(f, o, false); Carries(i, o) && i.actor.SignalActor? && Unhandled(s, i)
  {
  }

  lemma NotSpent(s: Item, run: Routine, name: O.Name)
    requires Unspent(s, run, name)
    ensures !AlreadyApplied(s, run, name)
  {
  }

  /** The outcome that comes by the run's own signal does what its comment
      would, trusted as it is, and ends the run. */
  lemma SignalMovesItsItem(c: Ctx, s: Item, run: Routine, o: O.Outcome, from: Label)
    requires c.mode && NoEdits(c) && s.labels == {from} && Live(s, run) && !DoesMore(o, from)
    requires Unspent(s, run, O.NameOf(o)) && SignalId(run, s.pending.value.firedAt, O.NameOf(o)) !in s.seen
    ensures Reported(s, OnSignal(c, s, Report(run, o, false)), o, from)
  {
    hide CoordinateWebhook, NoEdits, StuckFree, AlreadyApplied, Fired, Unhandled, SignalInput;
    var f := s.pending.value;
    SignalCarries(s, f, o);
    NotSpent(s, run, O.NameOf(o));
    OutcomeMovesItsItem(c, s, SignalInput(f, o, false), o, from);
    assert OnSignal(c, s, Report(run, o, false)) == ApplyOutcome(c, s, f, o, false);
  }

  // --- other comments ---

  /** A comment that reports nothing: the discussion loop's own, or one with
      neither an outcome nor a reply in it. */
  predicate Silent(p: Payload) {
    p.Commented? && (p.remark.signed || (p.remark.outcome.None? && !p.remark.reply))
  }

  /** It moves nothing. */
  lemma SilentCommentMovesNothing(c: Ctx, s: Item, i: Input)
    requires NoEdits(c) && Unhandled(s, i) && Silent(i.payload)
    ensures Stands(s, CoordinateWebhook(c, s, i))
  {
    hide CoordinateWebhook, NoEdits, StuckFree, Unhandled, BotLogin, TakeEvent, NoteOverride, Fired;
    Wraps(c, s, i);
    var s0 := Claimed(s, i);
    BotGlances(c, s0);
    GlancedCalm(c, s0, BotLogin(c, s0).s);
    CalmCounts(s0, BotLogin(c, s0).s);
  }

  lemma ReplyRule(l: Label)
    ensures var found := RuleFor({l}, DiscussionReply);
      if l == AiDiscussing then
        found.Some? && found.value.run == Some(IssueDiscussLoop) && After({l}, found.value) == {l}
      else found.None?
  {
    hide DeriveState;
    ReadingMeans({l});
    assert Before({l}, DiscussionReply) == {l};
    assert DeriveState({l}) == Clear(At(l));
  }

  lemma ReplyIs(c: Ctx, s: Item, i: Input)
    requires i.payload.Commented? && !i.payload.remark.signed && i.payload.remark.outcome.None? && i.payload.remark.reply
    ensures Translate(i.payload) == Some(DiscussionReply) && Plainly(i) && Allowed(c, i, DiscussionReply)
    ensures OnEvent(c, s, i, DiscussionReply, s.labels) == Plain(c, s, i, DiscussionReply, s.labels, NOTHING_LATER, false)
  {
    hide Plain, DeriveState;
  }

  /** A reply in a discussion starts its next round; anywhere else it moves
      nothing. */
  lemma ReplyIsARound(c: Ctx, s: Item, i: Input, l: Label)
    requires c.mode && NoEdits(c) && s.labels == {l} && Unhandled(s, i)
    requires i.payload.Commented? && !i.payload.remark.signed && i.payload.remark.outcome.None? && i.payload.remark.reply
    ensures var st := CoordinateWebhook(c, s, i);
      if l == AiDiscussing then Moves(c, s, st, {AiDiscussing}, Some(IssueDiscussLoop)) else Stands(s, st)
  {
    hide OnEvent, CoordinateWebhook, AtEvent, NoEdits, StuckFree, Moves, Stands, Unhandled, Translate, Allowed, Plainly, Reached, Plain, After;
    var e := DiscussionReply;
    ReplyIs(c, s, i);
    Delivers(c, s, i, e);
    var u := AtEvent(c, s, i, e);
    ClaimedUnfired(s, i, u);
    ReplyIs(c, u, i);
    ReplyRule(l);
    var st := CoordinateWebhook(c, s, i);
    if Reached(c, s, i, e) {
      if l == AiDiscussing {
        PlainMoves(c, u, i, e, NOTHING_LATER, false);
      } else {
        PlainStands(c, u, i, e, NOTHING_LATER, false);
        StandsOn(s, i, u, OnEvent(c, u, i, e, u.labels), st);
      }
      LiftsFrom(c, s, i, u, OnEvent(c, u, i, e, u.labels), st);
    } else {
      ShortStands(c, s, i, e);
      ShortMoves(c, s, st, {AiDiscussing}, Some(IssueDiscussLoop));
    }
  }

  lemma LiftsFrom(c: Ctx, s: Item, i: Input, u: Item, st1: Step<Result>, st: Step<Result>)
    requires Calm(Claimed(s, i), u) && Same(st1, st)
    ensures forall to, run | Moves(c, u, st1, to, run) :: Moves(c, s, st, to, run)
  {
    hide Moves, Fired;
    Lifts(c, s, u, st1, st);
  }

  lemma ShortMoves(c: Ctx, s: Item, st: Step<Result>, to: set<Label>, run: Option<Routine>)
    requires Stands(s, st) && st.Thr?
    ensures Moves(c, s, st, to, run)
  {
  }

  // --- the ends of a rework that are not its push ---

  /** The flag its push would have gone by is cleared. */
  predicate FixEnded(s: Item, t: Item) {
    if CiFixPending(s) then !CiFixPending(t) else !CiFixPending(t) && !FixPending(t)
  }

  lemma PlainKeeps(c: Ctx, s: Item, i: Input, e: Event, restart: bool)
    requires NoEdits(c) && RuleFor(s.labels, e).Some?
    ensures var t := Plain(c, s, i, e, s.labels, NOTHING_LATER, restart).s;
      t.reviewReworks == s.reviewReworks && t.ciFix == s.ciFix && t.rounds == s.rounds
  {
    hide ApplyEvent, RuleFor, NoEdits, StuckFree, DeriveState, Framed, Say;
    AppliedMeans(c, s, e, s.labels, Told(i));
    ApplyFrames(c, s, e, s.labels, Told(i));
    var st := ApplyEvent(c, s, e, s.labels, Told(i));
    FramedReworks(s, st.s);
    if st.Ret? {
      SaysCount(c, st.s, c.Enforced(LabelledAutoReworking), CommentWrite(false));
      SaysCount(c, PutExpired(st.s, false), c.Enforced(LabelledAutoReworking), CommentWrite(false));
    }
  }

  lemma FramedReworks(s: Item, t: Item)
    requires Framed(s, t)
    ensures t.reviewReworks == s.reviewReworks && t.ciFix == s.ciFix && t.rounds == s.rounds
  {
  }

  /** Outcomes with no handling of their own that take ai-stuck off. */
  predicate LateAndPlain(o: O.Outcome) {
    o.BuildStopped? || o.ReleaseStopped? || o.ReviewStopped? || o.ReworkNothing?
  }

  lemma LateIs(c: Ctx, s: Item, i: Input, o: O.Outcome)
    requires s.labels == {AiStuck} && i.payload.Commented? && LateAndPlain(o)
    ensures var e := OutcomeEvent(o); var p := EndRework(s, e, s.labels);
      && p.s.labels == s.labels && p.later == NOTHING_LATER
      && OnEvent(c, s, i, e, s.labels) == Plain(c, p.s, i, e, s.labels, NOTHING_LATER, false)
  {
    hide Plain, DeriveState;
    ReadingMeans({AiStuck});
    assert DeriveState(s.labels) == Clear(At(AiStuck));
  }

  lemma PlainUnclaims(c: Ctx, s: Item, i: Input, e: Event)
    requires s.labels == {AiStuck} && RuleFor(s.labels, e).Some?
    ensures var st := Plain(c, s, i, e, s.labels, NOTHING_LATER, false);
      st.Ret? ==> if RuleFor(s.labels, e).value.to.Noop? then st.s.reworkExpired == s.reworkExpired else !st.s.reworkExpired
  {
    hide ApplyEvent, RuleFor, DeriveState, Framed;
    ReadingMeans({AiStuck});
    assert DeriveState(s.labels) == Clear(At(AiStuck));
    AppliedMeans(c, s, e, s.labels, Told(i));
    ApplyFrames(c, s, e, s.labels, Told(i));
    FramedExpired(s, ApplyEvent(c, s, e, s.labels, Told(i)).s);
  }

  lemma NotNoop(o: O.Outcome)
    requires LateAndPlain(o)
    ensures var found := RuleFor({AiStuck}, OutcomeEvent(o)); found.Some? && !found.value.to.Noop?
  {
    hide DeriveState;
    ReadingMeans({AiStuck});
    assert Before({AiStuck}, OutcomeEvent(o)) == {AiStuck};
    assert DeriveState({AiStuck}) == Clear(At(AiStuck));
  }

  /** Any such way out of ai-stuck ends the claim of an expiry on the next push. */
  lemma LateOutcomeEndsTheClaim(c: Ctx, s: Item, i: Input, o: O.Outcome)
    requires c.mode && NoEdits(c) && s.labels == {AiStuck} && Carries(i, o) && LateAndPlain(o) && Unhandled(s, i)
    requires NeedsTrust(o) ==> Trusted(c, i)
    ensures var st := CoordinateWebhook(c, s, i); st.Ret? ==> !st.s.reworkExpired
  {
    hide OnEvent, CoordinateWebhook, AtEvent, NoEdits, StuckFree, Unhandled, Trusted, Translate, Allowed, Plainly, Reached, Plain,
      EndRework, RuleFor;
    var e := OutcomeEvent(o);
    Carried(c, i, o);
    var u := AtEvent(c, s, i, e);
    Delivers(c, s, i, e);
    ClaimedUnfired(s, i, u);
    if Reached(c, s, i, e) {
      LateIs(c, u, i, o);
      NotNoop(o);
      PlainUnclaims(c, EndRework(u, e, u.labels).s, i, e);
    }
  }

  lemma NoChangeIs(c: Ctx, s: Item, i: Input)
    requires s.labels == {AutoReworking} && i.payload.Commented?
    ensures var p := EndRework(s, ReworkNoChange, s.labels);
      && FixEnded(s, p.s) && p.s.labels == s.labels
      && OnEvent(c, s, i, ReworkNoChange, s.labels) == Plain(c, p.s, i, ReworkNoChange, s.labels, NOTHING_LATER, false)
  {
    hide Plain, DeriveState;
    ReadingMeans({AutoReworking});
  }

  /** A rework that had nothing to push ends the fix it was handed out for, as its
      push would have. */
  lemma NoChangeEndsTheFix(c: Ctx, s: Item, i: Input, o: O.Outcome)
    requires c.mode && NoEdits(c) && s.labels == {AutoReworking} && Carries(i, o) && o.ReworkNothing? && Trusted(c, i) && Unhandled(s, i)
    ensures var st := CoordinateWebhook(c, s, i); st.Ret? ==> st.s.labels == {} && FixEnded(s, st.s)
  {
    hide OnEvent, CoordinateWebhook, AtEvent, NoEdits, StuckFree, Unhandled, Trusted, Translate, Allowed, Plainly, Reached, Plain, Moves,
      EndRework, RuleFor;
    var e := ReworkNoChange;
    Carried(c, i, o);
    var u := AtEvent(c, s, i, e);
    Delivers(c, s, i, e);
    ClaimedUnfired(s, i, u);
    OutcomeMovesItsItem(c, s, i, o, AutoReworking);
    MovesMeans(c, s, CoordinateWebhook(c, s, i), {}, None);
    if Reached(c, s, i, e) {
      NoChangeIs(c, u, i);
      OutcomeRule(o, AutoReworking);
      PlainKeeps(c, EndRework(u, e, u.labels).s, i, e, false);
    }
  }

  /** A push that can only be a late result: what is behind it. */
  predicate Behind(s: Item) {
    CiFixPending(s) || FixPending(s) || s.reworkExpired
  }

  lemma StuckPushRule()
    ensures var found := RuleFor({AiStuck}, ReworkPushed);
      && found == Some(Rule(At(AiStuck), ReworkPushed, Unlabel, None)) && After({AiStuck}, found.value) == {}
      && DeriveState({AiStuck}) == Clear(At(AiStuck))
  {
    hide DeriveState;
    ReadingMeans({AiStuck});
    assert Before({AiStuck}, ReworkPushed) == {AiStuck};
    assert DeriveState({AiStuck}) == Clear(At(AiStuck));
  }

  /** What a late push leaves of the flags behind it: cleared once it returns, and
      as they were if it throws, for its redelivery to find. */
  predicate ClearsLast(s: Item, st: Step<Result>) {
    if st.Ret? then FixEnded(s, st.s) && !st.s.reworkExpired
    else st.s.ciFix == s.ciFix && st.s.rounds == s.rounds && st.s.reworkExpired == s.reworkExpired
  }

  lemma StuckPush(c: Ctx, s: Item, i: Input)
    requires c.mode && NoEdits(c) && s.labels == {AiStuck} && i.payload.Pushed? && Behind(s)
    ensures var st := OnEvent(c, s, i, ReworkPushed, s.labels); Moves(c, s, st, {}, None) && ClearsLast(s, st)
  {
    hide ApplyEvent, RuleFor, NoEdits, StuckFree, DeriveState, Framed, Moves, Fired, After;
    StuckPushRule();
    var p := EndRework(s, ReworkPushed, s.labels);
    PlainMoves(c, s, i, ReworkPushed, p.later, false);
    var st := ApplyEvent(c, s, ReworkPushed, s.labels, Told(i));
    AppliedMeans(c, s, ReworkPushed, s.labels, Told(i));
    ApplyFrames(c, s, ReworkPushed, s.labels, Told(i));
    FramedReworks(s, st.s);
    FramedExpired(s, st.s);
    assert OnEvent(c, s, i, ReworkPushed, s.labels) == Plain(c, s, i, ReworkPushed, s.labels, p.later, false);
  }

  /** A rework's late push to a PR in ai-stuck takes the label off; and one whose
      delivery fails is not lost: what it goes by still stands. */
  lemma LatePushIsNotLost(c: Ctx, s: Item, i: Input)
    requires c.mode && NoEdits(c) && s.labels == {AiStuck} && i.payload.Pushed? && Behind(s) && Unhandled(s, i)
    ensures var st := CoordinateWebhook(c, s, i); Moves(c, s, st, {}, None) && ClearsLast(s, st)
  {
    hide OnEvent, CoordinateWebhook, AtEvent, NoEdits, StuckFree, Moves, Unhandled, Reached;
    var e := ReworkPushed;
    Delivers(c, s, i, e);
    var u := AtEvent(c, s, i, e);
    ClaimedUnfired(s, i, u);
    var st := CoordinateWebhook(c, s, i);
    if Reached(c, s, i, e) {
      StuckPush(c, u, i);
      LiftsFrom(c, s, i, u, OnEvent(c, u, i, e, u.labels), st);
    } else {
      ShortStands(c, s, i, e);
      ShortMoves(c, s, st, {}, None);
    }
  }
}
