// The shared tail of every handler (worker/src/coordinate/apply.ts), as
// functions on the item: an event against the labels, the matched rule's
// label calls, its fire, its log row. And the two gates built on it
// (merge-gate.ts, review-gate.ts).

module Apply {
  import opened Wrappers
  import opened Graph
  import opened Labels
  import opened Items

  /** Whether a fire went out, or was rate-limited and waits for its alarm. */
  datatype FireOutcome = WentOut | PutOff

  datatype Result =
    | Deduped
    | NoEvent
    | AmbiguousState
    | DroppedNoRule(from: State, on: Event)
    | Ignored(from: State, on: Event)
    | StaleLabel(on: Event)
    | ClosedItem(on: Event)
    | ManualOverride
    | Applied(rule: Rule)

  /** A rate-limited fire stays pending with its alarm at the time the API
      gave, nudged by the item's number, and is said on the item once. */
  function DeferFire(c: Ctx, s: Item, io: bool, run: Routine, retried: bool, unwatched: bool, retryAt: int, again: bool): Item {
    var until := retryAt + (c.number % 30) * 1000;
    var s1 := Arm(c, s, NewFire(s, run, retried, unwatched, Some(until)));
    if again then s1 else Comment(c, s1, io).s
  }

  function FireWatched(c: Ctx, s: Item, io: bool, run: Routine, retried: bool, again: bool): Step<FireOutcome> {
    var s1 := Forget(s, run);
    var already := Running(s1, run) && Deferred(s1);
    var s2 := Arm(c, s1, NewFire(s1, run, retried, false, None));
    match FireRoutine(c, s2, io, run)
    case Sent(s3) => Ret(s3, WentOut)
    case Limited(s3, t) => Ret(DeferFire(c, s3, io, run, retried, false, t, again || already), PutOff)
    case Refused(s3) => Thr(Disarm(s3))
  }

  function FireUnwatched(c: Ctx, s: Item, io: bool, run: Routine, again: bool): Step<FireOutcome> {
    var s1 := Forget(s, run);
    var already := Running(s1, run) && Deferred(s1);
    match FireRoutine(c, Disarm(s1), io, run)
    case Sent(s3) => Ret(s3, WentOut)
    case Limited(s3, t) => Ret(DeferFire(c, s3, io, run, false, true, t, again || already), PutOff)
    case Refused(s3) => Thr(s3)
  }

  function WriteOp(c: Ctx, s: Item, io: bool, op: LabelOp): Step<()> {
    match op
    case AddOp(l) => WriteLabel(c, s, io, true, l)
    case RemoveOp(l) => WriteLabel(c, s, io, false, l)
    case CloseOp => CloseIssue(c, s, io)
  }

  function WriteOps(c: Ctx, s: Item, io: bool, ops: seq<LabelOp>): Step<()>
    decreases |ops|
  {
    if ops == [] then Ret(s, ())
    else
      var (s1, _) :- WriteOp(c, s, io, ops[0]);
      WriteOps(c, s1, io, ops[1..])
  }

  /** A refused fire is said in the log, and on the item for a delivery. */
  function ReportRefused(c: Ctx, s: Item, io: bool, told: bool): Item {
    var s1 := Log(c, s).s;
    if told then Comment(c, s1, io).s else s1
  }

  function Target(rule: Rule): State {
    if rule.to.ToLabel? then At(rule.to.value) else rule.from
  }

  function FireRule(c: Ctx, s: Item, io: bool, rule: Rule, run: Routine): Step<FireOutcome> {
    if IsWatched(Target(rule)) then FireWatched(c, s, io, run, false, false) else FireUnwatched(c, s, io, run, false)
  }

  function FireOrClear(c: Ctx, s: Item, io: bool, rule: Rule, told: bool): Step<()> {
    match rule.run
    case None => Ret(Disarm(s), ())
    case Some(run) =>
      match FireRule(c, s, io, rule, run)
      case Ret(s1, _) => Ret(s1, ())
      case Thr(s1) => Thr(ReportRefused(c, s1, io, told))
  }

  /** A matched rule's calls: its labels, its fire (or the end of one), its row. */
  function RuleCalls(c: Ctx, s: Item, rule: Rule, cl: set<Label>, told: bool): Step<()> {
    var io := c.Enforced(rule.on);
    var (s1, _) :- WriteOps(c, s, io, LabelOps(cl, rule));
    var (s2, _) :- FireOrClear(c, s1, io, rule, told);
    Log(c, s2)
  }

  function ApplyRule(c: Ctx, s: Item, rule: Rule, cl: set<Label>, told: bool): Step<Result> {
    var (s1, _) :- RuleCalls(c, Marked(s, Matched(rule, PendingRun(s))), rule, cl, told);
    Ret(Marked(s1, AppliedMark(rule.on, s1.calls)), Applied(rule))
  }

  /** What the table says an event does to an item carrying these labels. */
  function RuleFor(cl: set<Label>, e: Event): Option<Rule> {
    match DeriveState(Before(cl, e))
    case Ambiguous => None
    case Clear(current) => Decide(current, e)
  }

  function NotApplied(cl: set<Label>, e: Event): Result {
    match DeriveState(Before(cl, e))
    case Ambiguous => AmbiguousState
    case Clear(current) => if Contextual(e) then Ignored(current, e) else DroppedNoRule(current, e)
  }

  function ApplyEvent(c: Ctx, s: Item, e: Event, cl: set<Label>, told: bool): Step<Result> {
    match RuleFor(cl, e)
    case Some(rule) => ApplyRule(c, s, rule, cl, told)
    case None =>
      var r := NotApplied(cl, e);
      if r.Ignored? then Ret(s, r)
      else
        var (s1, _) :- Log(c, s);
        Ret(s1, r)
  }
}

module Gates {
  import opened Wrappers
  import opened Graph
  import opened Labels
  import opened Items
  import opened Apply

  datatype Gate = StillPending | Soft | Hard | Passes

  predicate NonFailing(k: Conclusion) {
    k in {Success, Neutral, Skipped}
  }

  predicate AnyUnfinished(f: Facts) {
    exists k | k in f.checks :: k.status != Completed
  }

  predicate AnyFailed(f: Facts) {
    exists k | k in f.checks :: k.status == Completed && !NonFailing(k.conclusion)
  }

  predicate HardBlock(f: Facts) {
    f.mergeable == Some(false) || f.changesRequested
  }

  function DeriveGate(f: Facts): Gate {
    if AnyUnfinished(f) || f.mergeable.None? then StillPending
    else if HardBlock(f) then Hard
    else if exists k | k in f.checks :: !NonFailing(k.conclusion) then Soft
    else Passes
  }

  const MERGEABLE_RETRIES: nat := 2

  /** GitHub computes `mergeable` in the background: read again while it is
      unknown, a bounded number of times. */
  function SettledFacts(c: Ctx, s: Item): Step<Facts> {
    var (s1, a) :- Read(c, s);
    SettleMore(c, s1, a.facts, MERGEABLE_RETRIES)
  }

  function SettleMore(c: Ctx, s: Item, f: Facts, tries: nat): Step<Facts>
    decreases tries
  {
    if tries == 0 || f.mergeable.Some? then Ret(s, f)
    else
      var (s1, a) :- Read(c, s);
      SettleMore(c, s1, a.facts, tries - 1)
  }

  /** auto-merging -> merge-blocked, with a comment saying why. */
  function BlockMerge(c: Ctx, s: Item, cl: set<Label>, e: Event, told: bool): Step<Result> {
    var (s1, r) :- ApplyEvent(c, s, e, cl, told);
    if !r.Applied? then Ret(s1, r)
    else
      var (s2, _) :- Comment(c, s1, c.Enforced(e));
      Ret(s2, r)
  }

  /** CI failed under auto-merging: handed to rework-loop, up to the cap. */
  function HandToRework(c: Ctx, s: Item, cl: set<Label>, told: bool): Step<Result> {
    if Attempts(s) >= c.caps.ciFixAttempts then BlockMerge(c, s, cl, MergeGateFailedHard, told)
    else
      var (s1, r) :- ApplyEvent(c, s, MergeGateFailedSoft, cl, told);
      if !r.Applied? then Ret(s1, r)
      else
        var (s2, _) :- WriteLabel(c, s1, MergeBlocked in cl && c.Enforced(MergeGateFailedSoft), false, MergeBlocked);
        var s3 := PutCiFix(s2, Some(CiFix(Attempts(s) + 1, true, false)));
        var (s4, _) :- Comment(c, s3, c.Enforced(MergeGateFailedSoft));
        Ret(s4, r)
  }

  /** Past a cap: to ai-stuck, for a person. */
  function CapRework(c: Ctx, s: Item, cl: set<Label>, told: bool): Step<Result> {
    var (s1, r) :- ApplyEvent(c, s, ReworkCapReached, cl, told);
    if !r.Applied? then Ret(s1, r)
    else
      var (s2, _) :- Comment(c, PutExpired(s1, false), c.Enforced(ReworkCapReached));
      Ret(s2, r)
  }

  /** CI red before the review: rework-loop fixes it first, up to the cap. */
  function HandReviewToRework(c: Ctx, s: Item, cl: set<Label>, told: bool): Step<Result> {
    if Attempts(s) >= c.caps.ciFixAttempts then CapRework(c, s, cl, told)
    else
      var (s1, r) :- ApplyEvent(c, s, ReviewCiFailed, cl, told);
      if !r.Applied? then Ret(s1, r)
      else
        var s2 := PutCiFix(s1, Some(CiFix(Attempts(s) + 1, true, true)));
        var (s3, _) :- Comment(c, s2, c.Enforced(ReviewCiFailed));
        Ret(s3, r)
  }

  /** A PR in ai-reviewing: green CI fires the review, red hands it to rework,
      anything else waits. A review already out is left alone. */
  function ReviewGate(c: Ctx, s: Item, cl: set<Label>, told: bool): Step<Result> {
    if Running(s, ReviewLoop) then
      var (s1, _) :- Log(c, s);
      Ret(s1, NoEvent)
    else
      var (s1, a) :- Read(c, s);
      if a.facts.checks == [] || AnyUnfinished(a.facts) then Ret(s1, NoEvent)
      else if AnyFailed(a.facts) then HandReviewToRework(c, s1, cl, told)
      else ApplyEvent(c, s1, ReviewCiPassed, cl, told)
  }

  /** The review found things to fix: a counted round, up to the cap. */
  function TakeFindings(c: Ctx, s: Item, cl: set<Label>, told: bool): Step<Result> {
    if BotRounds(s) + 1 > c.caps.botReviewReworks then CapRework(c, s, cl, told)
    else
      var (s1, r) :- ApplyEvent(c, s, ReviewFindings, cl, told);
      if !r.Applied? then Ret(s1, r)
      else
        var s2 := PutRounds(s1, Some(Rounds(BotRounds(s) + 1, true)));
        var (s3, _) :- Comment(c, s2, c.Enforced(ReviewFindings));
        Ret(s3, r)
  }
}
