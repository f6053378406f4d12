// A delivery for one item (worker/src/coordinate/webhook.ts), with the
// outcome dedupe (outcome-dedupe.ts), the release split (release.ts) and the
// hand-offs between items (stages.ts), as functions on the item.

module Deliveries {
  import opened Wrappers
  import opened Graph
  import opened Labels
  import opened Items
  import O = Outcomes

  /** A webhook, or the Worker's own hand-off, parsed. `own`: the sender is
      the login the Worker takes for its own bot; `closes`: the other issues a
      PR's description closes. */
  datatype Payload =
    | Labeled(onPr: bool, lane: Option<Label>, own: bool, closed: bool, snapshot: bool)
    | Unlabeled(onPr: bool, lane: Option<Label>, own: bool, snapshot: bool)
    | Commented(remark: Remark)
    | IssueClosedNow
    | PrClosed(merged: bool, hasCommit: bool, closes: seq<int>)
    | Reopened
    | Pushed
    | CheckSuite(completed: bool)
    | PrMergedHere(shipped: Option<Shipped>)
    | ReviewRequested(named: bool)
    | ReleasedHere(tag: Option<string>)
    | OtherPayload

  datatype Actor = GithubActor | WatchdogActor | SignalActor

  datatype Input = Input(id: DeliveryId, payload: Payload, actor: Actor)

  predicate Told(i: Input) {
    i.id != NoId
  }

  function OutcomeEvent(o: O.Outcome): Event {
    match o
    case BuildDone(_) => BuildSucceeded
    case BuildStopped(_) => BuildBlocked
    case ReleaseStopped(_) => ReleaseBlocked
    case ReleaseOut(_, _) => ReleasePublished
    case ReleaseReady(_, _, _, _) => ReleaseApproved
    case ReviewClean => ReviewPassed
    case ReviewFound(_) => ReviewFindings
    case ReviewStopped(_) => ReviewBlocked
    case ReworkNothing(_) => ReworkNoChange
    case MergeStopped(_) => MergeBlockReported
    case DiscussionFull => DiscussionCapped
  }

  function IssueLabelled(l: Label): Option<Event> {
    match l
    case AiReady => Some(LabelledAiReady)
    case AutoReleasing => Some(LabelledAutoReleasing)
    case AiDiscussing => Some(LabelledAiDiscussing)
    case PrOpen => Some(BuildSucceeded)
    case AiBlocked => Some(BuildBlocked)
    case _ => None
  }

  function PrLabelled(l: Label): Option<Event> {
    match l
    case AutoReworking => Some(LabelledAutoReworking)
    case AutoMerging => Some(LabelledAutoMerging)
    case AiReviewing => Some(LabelledAiReviewing)
    case _ => None
  }

  function IssueUnlabelled(l: Label): Option<Event> {
    match l
    case AiReady => Some(UnlabelledAiReady)
    case AutoReleasing => Some(UnlabelledAutoReleasing)
    case _ => None
  }

  function PrUnlabelled(l: Label): Option<Event> {
    match l
    case AutoReworking => Some(UnlabelledAutoReworking)
    case AutoMerging => Some(UnlabelledAutoMerging)
    case AiReviewing => Some(UnlabelledAiReviewing)
    case _ => None
  }

  function RemarkEvent(r: Remark): Option<Event> {
    if r.signed then None
    else if r.outcome.Some? then Some(OutcomeEvent(r.outcome.value))
    else if r.reply then Some(DiscussionReply)
    else None
  }

  /** A payload as at most one event (graph/github/from-github.ts). */
  function Translate(p: Payload): Option<Event> {
    match p
    case Labeled(onPr, lane, own, _, _) =>
      if own || lane.None? then None else if onPr then PrLabelled(lane.value) else IssueLabelled(lane.value)
    case Unlabeled(onPr, lane, own, _) =>
      if own || lane.None? then None else if onPr then PrUnlabelled(lane.value) else IssueUnlabelled(lane.value)
    case Commented(r) => RemarkEvent(r)
    case IssueClosedNow => Some(IssueClosed)
    case PrClosed(merged, _, _) => if merged then Some(Merged) else None
    case Pushed => Some(ReworkPushed)
    case PrMergedHere(shipped) => if shipped.Some? then Some(PrMerged) else None
    case ReviewRequested(named) => if named then Some(LabelledAiReviewing) else None
    case ReleasedHere(tag) => if tag.Some? then Some(Released) else None
    case Reopened => None
    case CheckSuite(_) => None
    case OtherPayload => None
  }

  /** A person (anyone but the Worker's own App bot) editing a tracked label. */
  predicate Human(c: Ctx, p: Payload) {
    match p
    case Labeled(_, lane, own, _, _) => lane.Some? && !(c.app && own)
    case Unlabeled(_, lane, own, _) => lane.Some? && !(c.app && own)
    case _ => false
  }

  /** The routine and outcome a comment reports, if it reports one. */
  predicate Reports(p: Payload) {
    p.Commented? && p.remark.outcome.Some? && p.remark.routine.Some?
  }
}

module Stages {
  import opened Wrappers
  import opened Graph
  import opened Labels
  import opened Items
  import opened Apply

  function Forward(c: Ctx, s: Item): Step<()> {
    Say(c, s, true, Forwarded)
  }

  /** One hand-off to each item. */
  function ForwardEach(c: Ctx, s: Item, to: seq<int>): Step<()>
    decreases |to|
  {
    if to == [] then Ret(s, ())
    else
      var (s1, _) :- Forward(c, s);
      ForwardEach(c, s1, to[1..])
  }

  function HandOffMerged(c: Ctx, s: Item, merged: bool, hasCommit: bool, closes: seq<int>): Step<()> {
    if merged && hasCommit then ForwardEach(c, s, closes) else Ret(s, ())
  }

  function HandOffReview(c: Ctx, s: Item, pr: int): Step<()> {
    if pr == c.number then Ret(s, ()) else Forward(c, s)
  }

  /** released, to each open issue waiting for a release. */
  function HandOffRelease(c: Ctx, s: Item): Step<()> {
    var (s1, a) :- Read(c, s);
    ForwardEach(c, s1, a.numbers)
  }

  /** A merged PR's work log, as a comment; it never fails the delivery. */
  function ExportWorkLog(c: Ctx, s: Item, merged: bool, closes: seq<int>): Item {
    if !merged then s
    else
      match Read(c, s)
      case Thr(s1) => s1
      case Ret(s1, a) =>
        if a.yes then Comment(c, s1, c.Enforced(Merged)).s
        else if closes == [] then s1
        else MissingWorkLog(c, s1)
  }

  function MissingWorkLog(c: Ctx, s: Item): Item {
    match Read(c, s)
    case Thr(s1) => s1
    case Ret(s1, a) => if a.yes then Comment(c, s1, c.Enforced(Merged)).s else s1
  }

  function PrMergedStage(c: Ctx, s: Item, cl: set<Label>, shipped: Option<Shipped>, told: bool): Step<Result> {
    var (s1, r) :- ApplyEvent(c, s, PrMerged, cl, told);
    Ret(if r.Applied? && shipped.Some? then s1.(shipped := shipped) else s1, r)
  }

  function StateOf(cl: set<Label>): State {
    match DeriveState(cl)
    case Ambiguous => Untracked
    case Clear(state) => state
  }

  /** A release was published: the issue closes only if its tag contains the
      issue's own merge. */
  function ReleasedStage(c: Ctx, s: Item, cl: set<Label>, tag: string, told: bool): Step<Result> {
    if tag == "" || s.shipped.None? then Ret(s, Ignored(StateOf(cl), Released))
    else
      var (s1, a) :- Read(c, s);
      if a.yes then ApplyEvent(c, s1, Released, cl, told) else Ret(s1, Ignored(StateOf(cl), Released))
  }

  // --- the release split ---

  /** Write access: the explicit signal's bearer, the Worker's own bot, or the
      comment author's association. */
  function TrustedAuthor(c: Ctx, s: Item, signal: bool, r: Remark): Step<bool> {
    if signal then Ret(s, true)
    else
      var (s1, _) :- BotLogin(c, s);
      Ret(s1, (c.app && r.own) || r.trusted)
  }

  function RefuseRelease(c: Ctx, s: Item, cl: set<Label>, told: bool, r: Result): Step<Result> {
    var (s1, _) :- ApplyEvent(c, s, ReleaseBlocked, cl, told);
    var (s2, _) :- Comment(c, s1, c.Enforced(ReleaseApproved));
    Ret(s2, r)
  }

  /** Recorded before the after part fires, and only for a real merge. */
  function AfterMerge(c: Ctx, s: Item, cl: set<Label>, pr: int, sha: Sha, told: bool): Step<Result> {
    var s1 := if c.Enforced(ReleaseApproved) then PutReleaseMerged(s, Some(Shipped(pr, sha))) else s;
    var (s2, r) :- ApplyEvent(c, s1, ReleaseMerged, cl, told);
    var (s3, _) :- Comment(c, s2, c.Enforced(ReleaseApproved));
    Ret(s3, r)
  }

  /** Merged at the reviewed commit, here or before; a lost answer is looked
      at again before it counts as a refusal. */
  function MergeReviewed(c: Ctx, s: Item, sha: Sha): Step<bool> {
    var (s1, a) :- Read(c, s);
    if a.pull.merged then Ret(s1, a.pull.headSha == sha)
    else
      match Say(c, s1, c.Enforced(ReleaseApproved), MergeWrite)
      case Ret(s2, _) => Ret(s2, true)
      case Thr(s2) =>
        match Read(c, s2)
        case Thr(s3) => Ret(s3, false)
        case Ret(s3, b) => Ret(s3, b.pull.merged && b.pull.headSha == sha)
  }

  function MergeRelease(c: Ctx, s: Item, cl: set<Label>, pr: int, sha: Sha, told: bool, r: Result): Step<Result> {
    var (s1, merged) :- MergeReviewed(c, s, sha);
    if merged then AfterMerge(c, s1, cl, pr, sha, told) else RefuseRelease(c, s1, cl, told, r)
  }

  function ReleaseApprovedStage(c: Ctx, s: Item, cl: set<Label>, signal: bool, m: Remark, told: bool): Step<Result> {
    if !(m.outcome.Some? && m.outcome.value.ReleaseReady?) then Ret(s, NoEvent)
    else
      var (s1, trusted) :- TrustedAuthor(c, s, signal, m);
      if !trusted then Ret(s1, NoEvent)
      else
        var (s2, r) :- ApplyEvent(c, s1, ReleaseApproved, cl, told);
        if !r.Applied? then Ret(s2, r)
        else MergeRelease(c, s2, cl, m.outcome.value.pr, m.outcome.value.sha, told, r)
  }

  /** auto-releasing re-added after the merge: the after part again. */
  function RetryReleasePublish(c: Ctx, s: Item, cl: set<Label>, told: bool): Step<Result> {
    var (s1, _) :- WriteLabel(c, s, AiStuck in cl && c.Enforced(ReleaseMerged), false, AiStuck);
    ApplyEvent(c, s1, ReleaseMerged, cl - {AiStuck}, told)
  }

  function PublishedStage(c: Ctx, s: Item, cl: set<Label>, signal: bool, m: Remark, told: bool): Step<Result> {
    var (s1, trusted) :- TrustedAuthor(c, s, signal, m);
    if !trusted then Ret(s1, NoEvent)
    else
      var (s2, r) :- ApplyEvent(c, s1, ReleasePublished, cl, told);
      if r.Applied? && m.outcome.Some? && m.outcome.value.ReleaseOut? then
        var (s3, _) :- HandOffRelease(c, PutReleaseMerged(s2, None));
        Ret(s3, r)
      else Ret(s2, r)
  }

  /** build_succeeded's comment: the issue's own move, then its PR's review. */
  function BuiltStage(c: Ctx, s: Item, cl: set<Label>, signal: bool, m: Remark, told: bool): Step<Result> {
    var (s1, r) :- ApplyEvent(c, s, BuildSucceeded, cl, told);
    if r.Applied? && m.outcome.Some? && m.outcome.value.BuildDone? then
      var (s2, trusted) :- TrustedAuthor(c, s1, signal, m);
      var (s3, _) :- (if trusted then HandOffReview(c, s2, m.outcome.value.pr) else Ret(s2, ()));
      Ret(s3, r)
    else Ret(s1, r)
  }
}

module Webhook {
  import opened Wrappers
  import opened Graph
  import opened Labels
  import opened Items
  import opened Apply
  import opened Gates
  import opened Stages
  import opened Deliveries
  import O = Outcomes

  // --- one outcome, two carriers ---

  /** Whether this routine's outcome was already applied for its fire. */
  predicate AlreadyApplied(s: Item, run: Routine, name: O.Name) {
    run in s.outcomes && s.outcomes[run].name == name
    && !(Running(s, run) && s.pending.value.firedAt != s.outcomes[run].firedAt)
  }

  /** Remembers an applied outcome against the fire it ended. */
  function Remember(s: Item, before: Option<Fire>, run: Routine, name: O.Name): Item {
    if before.None? || before.value.run != run || before.value.deferUntil.Some? then s
    else if Running(s, run) && s.pending.value.firedAt != before.value.firedAt then s
    else s.(outcomes := s.outcomes[run := Ended(before.value.firedAt, name)])
  }

  function LogDeduped(c: Ctx, s: Item): Step<Result> {
    var (s1, _) :- GetLabels(c, s);
    var (s2, _) :- Log(c, s1);
    Ret(s2, Deduped)
  }

  // --- a push by a rework ---

  /** What a late push clears once its label is off. */
  datatype Later = Later(ciFix: Option<CiFix>, rounds: Option<Rounds>, expired: bool)

  const NOTHING_LATER := Later(None, None, false)

  datatype ReworkEnd = ReworkEnd(s: Item, e: Event, wasPending: bool, later: Later)

  predicate EndsRework(e: Event, reading: Reading) {
    if e.ReworkNoChange? then reading == Clear(At(AutoReworking)) || reading == Clear(At(AiStuck))
    else e.ReworkPushed? || e.UnlabelledAutoReworking?
  }

  /** A push (or the end of a rework without one): whose rework it was decides
      where the PR goes back to, and its pending flag is cleared, from ai-stuck
      only once the label is off. */
  function EndRework(s: Item, e: Event, cl: set<Label>): ReworkEnd {
    var reading := DeriveState(cl);
    if !EndsRework(e, reading) then ReworkEnd(s, e, false, NOTHING_LATER)
    else
      var late := e.ReworkPushed? && reading == Clear(At(AiStuck));
      var inRework := e.ReworkPushed? && reading == Clear(At(AutoReworking));
      var expired := late && s.reworkExpired;
      if CiFixPending(s) then
        var cleared := Some(s.ciFix.value.(pending := false));
        ReworkEnd(
          if late then s else PutCiFix(s, cleared),
          if !inRework then e else if s.ciFix.value.toReview then ReviewFixPushed else CiFixPushed,
          true, Later(if late then cleared else None, None, expired))
      else if FixPending(s) then
        var cleared := Some(s.rounds.value.(fixPending := false));
        ReworkEnd(
          if late then s else PutRounds(s, cleared),
          if inRework then ReviewFixPushed else e,
          true, Later(None, if late then cleared else None, expired))
      else ReworkEnd(s, e, expired, Later(None, None, expired))
  }

  function ClearLater(s: Item, later: Later): Item {
    var s1 := if later.ciFix.Some? then PutCiFix(s, later.ciFix) else s;
    var s2 := if later.rounds.Some? then PutRounds(s1, later.rounds) else s1;
    if later.expired then PutExpired(s2, false) else s2
  }

  // --- the events ---

  /** A person moved a tracked label in a way the table does not act on. */
  function NoteOverride(c: Ctx, s: Item, known: bool): Step<Result> {
    var (s1, _) :- (if known then Ret(s, {}) else GetLabels(c, s));
    var (s2, _) :- Log(c, s1);
    Ret(s2, ManualOverride)
  }

  predicate HasSnapshot(p: Payload) {
    (p.Labeled? || p.Unlabeled?) && p.snapshot
  }

  /** What follows the rule a plain event applied: the late push's flags, the
      end of an expiry's claim on the next push, the restarted review. */
  function Settle(c: Ctx, s: Item, cl: set<Label>, r: Result, later: Later, restart: bool): Item {
    if !r.Applied? then s
    else
      var s1 := ClearLater(s, later);
      var s2 := if DeriveState(cl) == Clear(At(AiStuck)) && !r.rule.to.Noop? then PutExpired(s1, false) else s1;
      if restart then Comment(c, s2, c.Enforced(LabelledAutoReworking)).s else s2
  }

  function Plain(c: Ctx, s: Item, i: Input, e: Event, cl: set<Label>, later: Later, restart: bool): Step<Result> {
    var (s1, r) :- ApplyEvent(c, s, e, cl, Told(i));
    var s2 := Settle(c, s1, cl, r, later, restart);
    if r.Ignored? && Human(c, i.payload) then NoteOverride(c, s2, true) else Ret(s2, r)
  }

  /** A review rework round: counted per PR from no label, fresh from ai-stuck,
      back to review after its push for a PR in the review flow. */
  function OnReworkLabel(c: Ctx, s: Item, i: Input, cl: set<Label>): Step<Result> {
    var before := DeriveState(cl - {AutoReworking});
    var stuck := before == Clear(At(AiStuck));
    var counted := before == Clear(Untracked) || stuck;
    var round := if stuck then 1 else s.reviewReworks + 1;
    if counted && round > c.caps.reviewReworks then CapRework(c, s, cl, Told(i))
    else
      var inReview := before == Clear(At(ReadyForReview))
        || (stuck && (s.rounds.Some? || (s.ciFix.Some? && s.ciFix.value.toReview)));
      var s1 := if counted then s.(reviewReworks := round) else s;
      var s2 := if stuck then PutExpired(PutRounds(s1, None), false) else s1;
      var restart := inReview && !CiFixPending(s2);
      var s3 := if restart then PutCiFix(PutRounds(s2, Some(Rounds(0, true))), None) else s2;
      Plain(c, s3, i, LabelledAutoReworking, cl, NOTHING_LATER, restart)
  }

  /** ai-reviewing is on: its rule, then the CI gate. */
  function ReviewLabelOn(c: Ctx, s: Item, cl: set<Label>, told: bool): Step<Result> {
    if AiReviewing !in cl || Running(s, ReviewLoop) then Ret(s, StaleLabel(LabelledAiReviewing))
    else
      var s1 := if DeriveState(cl - {AiReviewing}) == Clear(At(AiStuck))
                then PutExpired(PutCiFix(PutRounds(s, None), None), false) else s;
      var (s2, r) :- ApplyEvent(c, s1, LabelledAiReviewing, cl, told);
      if !r.Applied? then Ret(s2, r)
      else
        var (s3, g) :- ReviewGate(c, s2, cl - {AiStuck, AiBlocked, ReadyForReview}, told);
        Ret(s3, if g.NoEvent? then r else g)
  }

  function Drop(c: Ctx, s: Item, r: Result): Step<Result> {
    var (s1, _) :- Log(c, s);
    Ret(s1, r)
  }

  /** A hand-off's own part: only an open PR with nothing tracked gets the
      label; any other is dropped and logged. */
  function AcceptReview(c: Ctx, s: Item, cl: set<Label>, told: bool): Step<Result> {
    match Read(c, s)
    case Thr(s1) =>
      if Next(c, s).verdict.missing then Drop(c, s1, StaleLabel(LabelledAiReviewing)) else Thr(s1)
    case Ret(s1, a) =>
      if !a.pull.open then Drop(c, s1, StaleLabel(LabelledAiReviewing))
      else
        match DeriveState(cl)
        case Ambiguous => ApplyEvent(c, s1, LabelledAiReviewing, cl, told)
        case Clear(At(l)) => Drop(c, s1, DroppedNoRule(At(l), LabelledAiReviewing))
        case Clear(Untracked) =>
          var (s2, _) :- WriteLabel(c, s1, c.Enforced(LabelledAiReviewing), true, AiReviewing);
          ReviewLabelOn(c, s2, cl + {AiReviewing}, told)
  }

  function OnReviewLabel(c: Ctx, s: Item, i: Input, cl: set<Label>): Step<Result> {
    if !i.payload.ReviewRequested? then ReviewLabelOn(c, s, cl, Told(i))
    else if AiReviewing !in cl then AcceptReview(c, s, cl, Told(i))
    else if DeriveState(cl - {AiReviewing}) != Clear(Untracked) then Ret(s, StaleLabel(LabelledAiReviewing))
    else ReviewLabelOn(c, s, cl, Told(i))
  }

  /** The verdict that starts the PR's next stage, with fresh counts. */
  function OnReviewPassed(c: Ctx, s: Item, cl: set<Label>, told: bool): Step<Result> {
    var (s1, r) :- ApplyEvent(c, s, ReviewPassed, cl, told);
    Ret(if r.Applied? then PutExpired(PutCiFix(PutRounds(s1, None), None), false) else s1, r)
  }

  /** auto-merging added: the PR is checked before merge-flow is fired. */
  function OnMergeLabel(c: Ctx, s: Item, i: Input, cl: set<Label>): Step<Result> {
    if AutoMerging !in cl then Ret(s, StaleLabel(LabelledAutoMerging))
    else
      var s1 := if MergeBlocked in cl then PutCiFix(s, None) else s;
      var (s2, f) :- SettledFacts(c, s1);
      if HardBlock(f) then BlockMerge(c, s2, cl, MergeGateFailedHard, Told(i))
      else if DeriveGate(f) == Soft then HandToRework(c, s2, cl, Told(i))
      else Plain(c, s2, i, LabelledAutoMerging, cl, NOTHING_LATER, false)
  }

  /** CI finished under auto-merging: block, rework, or merge-flow again, once
      per head commit. */
  function OnMergeChecks(c: Ctx, s: Item, cl: set<Label>, told: bool): Step<Result> {
    var (s1, f) :- SettledFacts(c, s);
    if AnyUnfinished(f) then Ret(s1, NoEvent)
    else if HardBlock(f) then BlockMerge(c, s1, cl, MergeGateFailedHard, told)
    else if AnyFailed(f) then HandToRework(c, s1, cl, told)
    else if f.checks != [] && f.headSha.Some? && s1.mergeFiredFor != f.headSha then
      var (s2, r) :- ApplyEvent(c, s1, MergeGatePassed, cl, told);
      Ret(if r.Applied? then s2.(mergeFiredFor := f.headSha) else s2, r)
    else Ret(s1, NoEvent)
  }

  function OnCheckSuite(c: Ctx, s: Item, completed: bool, told: bool): Step<Result> {
    if !completed then Ret(s, NoEvent)
    else
      var (s1, cl) :- GetLabels(c, s);
      if DeriveState(cl) == Clear(At(AiReviewing)) then ReviewGate(c, s1, cl, told)
      else if AutoMerging !in cl then Ret(s1, NoEvent)
      else OnMergeChecks(c, s1, cl, told)
  }

  /** The reports that are only comments: each has its own handling. */
  function OnReport(c: Ctx, s: Item, i: Input, e: Event, cl: set<Label>, m: Remark): Step<Result> {
    match e
    case ReleaseApproved => ReleaseApprovedStage(c, s, cl, i.actor.SignalActor?, m, Told(i))
    case ReleasePublished => PublishedStage(c, s, cl, i.actor.SignalActor?, m, Told(i))
    case MergeBlockReported => BlockMerge(c, s, cl, MergeBlockReported, Told(i))
    case BuildSucceeded => BuiltStage(c, s, cl, i.actor.SignalActor?, m, Told(i))
    case ReviewFindings =>
      if DeriveState(cl) == Clear(At(AiReviewing)) then TakeFindings(c, s, cl, Told(i))
      else Plain(c, s, i, e, cl, NOTHING_LATER, false)
    case ReviewPassed => OnReviewPassed(c, s, cl, Told(i))
    case _ => Plain(c, s, i, e, cl, NOTHING_LATER, false)
  }

  predicate ReportEvent(e: Event) {
    e in {ReleaseApproved, ReleasePublished, MergeBlockReported, BuildSucceeded, ReviewFindings, ReviewPassed}
  }

  function Route(c: Ctx, s: Item, i: Input, e: Event, cl: set<Label>, later: Later): Step<Result> {
    if i.payload.Commented? && ReportEvent(e) then OnReport(c, s, i, e, cl, i.payload.remark)
    else if e.LabelledAutoReworking? then OnReworkLabel(c, s, i, cl)
    else if e.LabelledAiReviewing? then OnReviewLabel(c, s, i, cl)
    else if e.LabelledAutoMerging? then OnMergeLabel(c, s, i, cl)
    else if e.LabelledAutoReleasing? && s.releaseMerged.Some? then
      if AutoReleasing !in cl then Ret(s, StaleLabel(e)) else RetryReleasePublish(c, s, cl, Told(i))
    else if i.payload.PrMergedHere? && e.PrMerged? then PrMergedStage(c, s, cl, i.payload.shipped, Told(i))
    else if i.payload.ReleasedHere? && i.payload.tag.Some? && e.Released? then
      ReleasedStage(c, s, cl, i.payload.tag.value, Told(i))
    else Plain(c, s, i, e, cl, later, false)
  }

  /** An event against the labels just read. A push to a PR in ai-stuck counts
      only as a rework's late result. */
  function OnEvent(c: Ctx, s: Item, i: Input, e: Event, cl: set<Label>): Step<Result> {
    var p := EndRework(s, e, cl);
    if p.e.ReworkPushed? && !p.wasPending && DeriveState(cl) == Clear(At(AiStuck)) then
      Drop(c, p.s, DroppedNoRule(At(AiStuck), p.e))
    else Route(c, p.s, i, p.e, cl, p.later)
  }

  /** Outcomes that take a label off count only from a trusted author. */
  function Counts(c: Ctx, s: Item, i: Input, e: Event): Step<bool> {
    if i.payload.Commented? && (e.ReworkNoChange? || e.MergeBlockReported? || e.DiscussionCapped?)
    then TrustedAuthor(c, s, i.actor.SignalActor?, i.payload.remark)
    else Ret(s, true)
  }

  predicate OnClosedIssue(p: Payload) {
    p.Labeled? && !p.onPr && p.closed
  }

  function TakeEvent(c: Ctx, s: Item, i: Input, e: Event): Step<Result> {
    var (s1, counts) :- Counts(c, s, i, e);
    if !counts then Ret(s1, NoEvent)
    else
      var (s2, cl) :- GetLabels(c, s1);
      OnEvent(c, s2, i, e, cl)
  }

  function ProcessEvent(c: Ctx, s: Item, i: Input): Step<Result> {
    if i.payload.CheckSuite? then OnCheckSuite(c, s, i.payload.completed, Told(i))
    else
      var (s1, _) :- BotLogin(c, s);
      match Translate(i.payload)
      case None => if Human(c, i.payload) then NoteOverride(c, s1, HasSnapshot(i.payload)) else Ret(s1, NoEvent)
      case Some(e) => if OnClosedIssue(i.payload) then Ret(s1, ClosedItem(e)) else TakeEvent(c, s1, i, e)
  }

  // --- the delivery ---

  function RememberReport(s: Item, before: Option<Fire>, p: Payload, r: Result): Item {
    if Reports(p) && r.Applied? then Remember(s, before, p.remark.routine.value, O.NameOf(p.remark.outcome.value)) else s
  }

  /** A merged PR tells the issues it closes; a close drops a deferred fire. */
  function AfterClose(c: Ctx, s: Item, p: Payload): Step<()> {
    var (s1, _) :- (if p.PrClosed? then HandOffMerged(c, s, p.merged, p.hasCommit, p.closes) else Ret(s, ()));
    var s2 := if p.PrClosed? then ExportWorkLog(c, s1, p.merged, p.closes) else s1;
    Ret(if (p.PrClosed? || p.IssueClosedNow?) && Deferred(s2) then Disarm(s2) else s2, ())
  }

  predicate SecondCarrier(s: Item, p: Payload) {
    Reports(p) && AlreadyApplied(s, p.remark.routine.value, O.NameOf(p.remark.outcome.value))
  }

  function ProcessWebhook(c: Ctx, s: Item, i: Input): Step<Result> {
    if SecondCarrier(s, i.payload) then LogDeduped(c, s)
    else
      var (s1, r) :- ProcessEvent(c, s, i);
      var (s2, _) :- AfterClose(c, RememberReport(s1, s.pending, i.payload, r), i.payload);
      Ret(s2, r)
  }

  /** A delivery is claimed before it is processed, and released if it throws,
      so that its redelivery is not taken for a duplicate. */
  function CoordinateWebhook(c: Ctx, s: Item, i: Input): Step<Result> {
    if i.id == NoId then ProcessWebhook(c, s, i)
    else if i.id in s.seen then Ret(s, Deduped)
    else
      match ProcessWebhook(c, s.(seen := s.seen + {i.id}), i)
      case Ret(s1, r) => Ret(s1, r)
      case Thr(s1) => Thr(s1.(seen := s1.seen - {i.id}))
  }
}
