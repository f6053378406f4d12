// The watchdog's alarm (worker/src/coordinate/watchdog.ts), a routine's own
// signals (routine-signal.ts) and the sweep's question for one item
// (reconcile.ts), as functions on the item.

module Watchdog {
  import opened Wrappers
  import opened Graph
  import opened Labels
  import opened Items
  import opened Apply
  import opened Deliveries
  import opened Webhook

  datatype WatchdogResult =
    | NoPendingFire
    | NotDue
    | Retried
    | DeferredSent
    | DeferredDropped
    | DeferredAgain
    | Concluded(result: Result)

  const DUE_MARGIN_MS: nat := 60_000

  /** Half the timeout or a minute, whichever is less, before it is due, an
      alarm is not for this fire. Doubled, so that half stays whole. */
  predicate Early(c: Ctx, s: Item, f: Fire) {
    2 * (f.dueAt - s.now) > if c.timeout(f.run) < 2 * DUE_MARGIN_MS then c.timeout(f.run) else 2 * DUE_MARGIN_MS
  }

  /** The state whose label asks for `run`. */
  function HomeOf(run: Routine): State {
    match run
    case IssueBuildLoop => At(AiReady)
    case AutoReleaseLoop => At(AutoReleasing)
    case IssueDiscussLoop => At(AiDiscussing)
    case ReworkLoop => At(AutoReworking)
    case MergeFlow => At(AutoMerging)
    case ReviewLoop => At(AiReviewing)
    case ReleasePublish => At(AutoReleasing)
  }

  /** Whether the labels still ask for `run`; too many to tell is no reason to
      drop it. */
  predicate StillWanted(reading: Reading, run: Routine) {
    reading.Ambiguous? || reading.state == HomeOf(run)
  }

  /** What the table itself says: some rule that runs `run` leads to this state,
      or stays in it. */
  predicate LeadsTo(state: State, run: Routine) {
    exists r :: r in Rules() && r.run == Some(run) && Target(r) == state
  }

  /** So a deferred fire is dropped exactly when no rule of the table that runs
      it leads to, or stays in, the item's state. */
  lemma StillWantedIsTheTables(state: State, run: Routine)
    ensures StillWanted(Clear(state), run) <==> LeadsTo(state, run)
  {
    hide Rules, Decide, When;
    if LeadsTo(state, run) {
      var r :| r in Rules() && r.run == Some(run) && Target(r) == state;
      RowsAreDecisions(r);
      RunsLeadHome(r.from, r.on);
    }
    if state == HomeOf(run) {
      HomeRow(run);
      var e := TriggerOf(run);
      DecisionsAreRows(e.0, e.1);
    }
  }

  lemma RunsLeadHome(s: State, e: Event)
    requires Decide(s, e).Some? && Decide(s, e).value.run.Some?
    ensures Target(Decide(s, e).value) == HomeOf(Decide(s, e).value.run.value)
  {
    hide Decide, Target, HomeOf, OfIssue;
    if OfIssue(e) {
      IssueRunsLeadHome(s, e);
    } else {
      PrRunsLeadHome(s, e);
    }
  }

  lemma IssueRunsLeadHome(s: State, e: Event)
    requires OfIssue(e) && Decide(s, e).Some? && Decide(s, e).value.run.Some?
    ensures Target(Decide(s, e).value) == HomeOf(Decide(s, e).value.run.value)
  {
  }

  lemma PrRunsLeadHome(s: State, e: Event)
    requires !OfIssue(e) && Decide(s, e).Some? && Decide(s, e).value.run.Some?
    ensures Target(Decide(s, e).value) == HomeOf(Decide(s, e).value.run.value)
  {
  }

  /** A state and event that run it. */
  function TriggerOf(run: Routine): (State, Event) {
    match run
    case IssueBuildLoop => (Untracked, LabelledAiReady)
    case AutoReleaseLoop => (Untracked, LabelledAutoReleasing)
    case IssueDiscussLoop => (Untracked, LabelledAiDiscussing)
    case ReworkLoop => (Untracked, LabelledAutoReworking)
    case MergeFlow => (Untracked, LabelledAutoMerging)
    case ReviewLoop => (At(AiReviewing), ReviewCiPassed)
    case ReleasePublish => (At(AutoReleasing), ReleaseMerged)
  }

  lemma HomeRow(run: Routine)
    ensures var (s, e) := TriggerOf(run);
      Decide(s, e).Some? && Decide(s, e).value.run == Some(run) && Target(Decide(s, e).value) == HomeOf(run)
  {
  }

  function DropDeferred(c: Ctx, s: Item): Item {
    match Log(c, s)
    case Thr(s1) => Disarm(s1)
    case Ret(s1, _) => Disarm(Comment(c, s1, true).s)
  }

  function ReportDeferredFailed(c: Ctx, s: Item): Item {
    Comment(c, Log(c, s).s, true).s
  }

  /** A deferred fire's alarm: sent now, deferred again, or dropped if the
      labels no longer ask for it. Labels that cannot be read do not drop it. */
  function SendDeferred(c: Ctx, s: Item, f: Fire): Step<WatchdogResult> {
    var read := GetLabels(c, s);
    var reading := if read.Ret? then DeriveState(read.v) else Ambiguous;
    if !StillWanted(reading, f.run) then Ret(DropDeferred(c, read.s), DeferredDropped)
    else
      match (if f.unwatched then FireUnwatched(c, read.s, true, f.run, true)
             else FireWatched(c, read.s, true, f.run, f.retried, true))
      case Thr(s1) => Thr(ReportDeferredFailed(c, s1))
      case Ret(s1, PutOff) => Ret(s1, DeferredAgain)
      case Ret(s1, WentOut) => Ret(s1, DeferredSent)
  }

  predicate SameFire(s: Item, f: Fire) {
    s.pending.Some? && s.pending.value.run == f.run && s.pending.value.dueAt == f.dueAt
  }

  function Replay(f: Fire, n: Note): Input {
    Input(RecoverId(f.run, f.firedAt, n.createdAt), Commented(n.remark), WatchdogActor)
  }

  function Recovered(c: Ctx, s: Item, f: Fire, r: Result): Step<Option<Result>> {
    var (s1, _) :- Log(c, s);
    Ret(if SameFire(s1, f) then Disarm(s1) else s1, Some(r))
  }

  /** The newest comment of this fire's run that applies, as a delivery of its
      own; the first k of `notes` are still to be tried. */
  function TryNotes(c: Ctx, s: Item, f: Fire, notes: seq<Note>, k: nat): Step<Option<Result>>
    requires k <= |notes|
    decreases k
  {
    if k == 0 then Ret(s, None)
    else
      var n := notes[k - 1];
      if n.createdAt < f.firedAt || n.remark.routine != Some(f.run) then TryNotes(c, s, f, notes, k - 1)
      else
        match CoordinateWebhook(c, s, Replay(f, n))
        case Thr(s1) => if SameFire(s1, f) then Ret(s1, None) else Thr(s1)
        case Ret(s1, r) => if r.Applied? then Recovered(c, s1, f, r) else TryNotes(c, s1, f, notes, k - 1)
  }

  /** The run's outcome comment, if only its webhook was lost. */
  function RecoverOutcome(c: Ctx, s: Item, f: Fire): Step<Option<Result>> {
    match Read(c, s)
    case Thr(s1) => Ret(s1, None)
    case Ret(s1, a) => TryNotes(c, s1, f, a.notes, |a.notes|)
  }

  /** Recovery writes labels and may fire, so only where expiries are real. */
  function MaybeRecover(c: Ctx, s: Item, f: Fire): Step<Option<Result>> {
    if c.Enforced(WatchdogExpired) then
      var (s1, r) :- RecoverOutcome(c, s, f);
      Ret(if r.Some? then PutExpired(s1, false) else s1, r)
    else Ret(s, None)
  }

  /** The one re-fire of a run that never reported a step. */
  function RetryOnce(c: Ctx, s: Item, f: Fire): Step<Option<WatchdogResult>> {
    match FireWatched(c, s, true, f.run, true, false)
    case Thr(s1) => Ret(s1, None)
    case Ret(s1, PutOff) => Ret(s1, Some(DeferredAgain))
    case Ret(s1, WentOut) =>
      var (s2, _) :- Comment(c, s1, true);
      var (s3, _) :- Log(c, s2);
      Ret(s3, Some(Retried))
  }

  function MaybeRetry(c: Ctx, s: Item, f: Fire): Step<Option<WatchdogResult>> {
    if c.retry && !f.retried && !f.stepped && c.Enforced(WatchdogExpired) then
      var (s1, cl) :- GetLabels(c, s);
      if DeriveState(cl).Clear? && Decide(DeriveState(cl).state, WatchdogExpired).Some? then RetryOnce(c, s1, f)
      else Ret(s1, None)
    else Ret(s, None)
  }

  /** The expiry: the alert, the event, then the pending fire cleared last. */
  function Expire(c: Ctx, s: Item, f: Fire): Step<Result> {
    var (s1, cl) :- GetLabels(c, s);
    var (s2, _) :- Say(c, s1, c.Enforced(WatchdogExpired), CommentWrite(true));
    var s3 := if c.Enforced(WatchdogExpired) then PutExpired(s2, f.run == ReworkLoop) else s2;
    var (s4, r) :- ApplyEvent(c, s3, WatchdogExpired, cl, false);
    var s5 := if c.Enforced(WatchdogExpired) && !r.Applied? && DeriveState(cl) != Clear(At(AiStuck))
              then PutExpired(s4, false) else s4;
    Ret(Disarm(s5), r)
  }

  function ExpireOrRetry(c: Ctx, s: Item, f: Fire): Step<WatchdogResult> {
    var (s1, again) :- MaybeRetry(c, s, f);
    if again.Some? then Ret(s1, again.value)
    else
      var (s2, r) :- Expire(c, s1, f);
      Ret(s2, Concluded(r))
  }

  function OnAlarm(c: Ctx, s: Item): Step<WatchdogResult> {
    if s.pending.None? then Ret(s, NoPendingFire)
    else
      var f := s.pending.value;
      if Early(c, s, f) then Ret(s, NotDue)
      else if f.deferUntil.Some? then SendDeferred(c, s, f)
      else
        var (s1, recovered) :- MaybeRecover(c, s, f);
        if recovered.Some? then Ret(s1, Concluded(recovered.value)) else ExpireOrRetry(c, s1, f)
  }
}

module Signals {
  import opened Wrappers
  import opened Graph
  import opened Items
  import opened Apply
  import opened Deliveries
  import opened Webhook
  import opened Watchdog
  import O = Outcomes

  /** A routine's signal, parsed. `quotesMark`: the outcome's own text holds the
      discussion loop's signature. */
  datatype Signal =
    | Invalid(aboutOutcome: bool)
    | Process(run: Routine)
    | Completion(run: Routine)
    | Report(run: Routine, outcome: O.Outcome, quotesMark: bool)
    | Blocked(run: Routine)
    | EndedEarly(run: Routine)

  datatype SignalResult =
    | InvalidSignal
    | NoFire
    | Mismatched
    | Extended
    | Acknowledged
    | Reported(result: Result)
    | SignalDeduped
    | BlockedNoted
    | BlockedAgain
    | EndedExpired(result: Result)

  /** A fire waiting out a rate limit has no run yet, so no signal is for it. */
  predicate Live(s: Item, run: Routine) {
    Running(s, run) && !Deferred(s)
  }

  function RefuseSignal(c: Ctx, s: Item, row: bool): Step<SignalResult> {
    var r := if s.pending.Some? && !Deferred(s) then Mismatched else NoFire;
    if row then
      var (s1, _) :- Log(c, s);
      Ret(s1, r)
    else Ret(s, r)
  }

  function SignalInput(f: Fire, o: O.Outcome, quotesMark: bool): Input {
    Input(SignalId(f.run, f.firedAt, O.NameOf(o)),
          Commented(Remark(Some(f.run), Some(o), quotesMark, false, false, false)), SignalActor)
  }

  /** The explicit outcome, as the comment it stands for. */
  function ApplyOutcome(c: Ctx, s: Item, f: Fire, o: O.Outcome, quotesMark: bool): Step<SignalResult> {
    var (s1, r) :- CoordinateWebhook(c, s, SignalInput(f, o, quotesMark));
    if !r.Applied? then Ret(s1, Reported(r))
    else
      var s2 := if SameFire(s1, f) && s1.pending.value.firedAt == f.firedAt then Disarm(s1) else s1;
      Ret(if s2.pending.None? then s2.(completed := Some(s2.now)) else s2, Reported(r))
  }

  function NoteBlocked(c: Ctx, s: Item, f: Fire): Step<SignalResult> {
    var s1 := Arm(c, s, f.(stepped := true, blocked := true));
    if f.blocked then Ret(s1, BlockedAgain) else Ret(Comment(c, s1, c.mode).s, BlockedNoted)
  }

  function EndFire(c: Ctx, s: Item, f: Fire): Step<SignalResult> {
    var (s1, recovered) :- MaybeRecover(c, s, f);
    if recovered.Some? then Ret(s1, EndedExpired(recovered.value))
    else
      var (s2, r) :- Expire(c, s1, f);
      Ret(s2, EndedExpired(r))
  }

  function OnLive(c: Ctx, s: Item, f: Fire, sig: Signal): Step<SignalResult> {
    match sig
    case Process(_) => Ret(Arm(c, s, f.(stepped := true)), Extended)
    case Completion(_) => Ret(Disarm(s).(completed := Some(s.now)), Acknowledged)
    case Report(_, o, q) => ApplyOutcome(c, s, f, o, q)
    case Blocked(_) => NoteBlocked(c, s, f)
    case EndedEarly(_) => EndFire(c, s, f)
    case Invalid(_) => Ret(s, InvalidSignal)
  }

  function OnSignal(c: Ctx, s: Item, sig: Signal): Step<SignalResult> {
    if sig.Invalid? then
      if sig.aboutOutcome then
        var (s1, _) :- Log(c, s);
        Ret(s1, InvalidSignal)
      else Ret(s, InvalidSignal)
    else if sig.Report? && AlreadyApplied(s, sig.run, O.NameOf(sig.outcome)) then
      var (s1, _) :- LogDeduped(c, s);
      Ret(s1, SignalDeduped)
    else if !Live(s, sig.run) then RefuseSignal(c, s, sig.Report?)
    else OnLive(c, s, s.pending.value, sig)
  }
}

module Sweeping {
  import opened Wrappers
  import opened Graph
  import opened Labels
  import opened Items
  import opened Apply
  import opened Gates

  datatype Swept =
    | BeingWatched
    | CompletedRun
    | Gated(result: Result)
    | NotTriggered
    | Recent
    | Refired
    | WouldRefire(alreadyLogged: bool)

  const LOST_AFTER_MS: nat := 900_000

  /** The routine a trigger state's lost fire would have started. After the
      Worker merged a release PR, that is the after part. */
  function SweepRun(cl: set<Label>, merged: bool): Option<Routine> {
    match DeriveState(cl)
    case Clear(At(AiReady)) => Some(IssueBuildLoop)
    case Clear(At(AutoReleasing)) => Some(if merged then ReleasePublish else AutoReleaseLoop)
    case Clear(At(AutoReworking)) => Some(ReworkLoop)
    case Clear(At(AutoMerging)) => Some(MergeFlow)
    case Clear(At(AiReviewing)) => Some(ReviewLoop)
    case _ => None
  }

  function Latest(a: Option<int>, b: Option<int>): Option<int> {
    if a.None? then b else if b.None? then a else Some(if a.value < b.value then b.value else a.value)
  }

  /** Idle time in tenths of a minute, rounded half up. */
  function IdleTenths(ms: int): int {
    (ms + 3_000) / 6_000
  }

  /** A pending fire counts as watched while its alarm is armed, or until it is
      well past due (its alarm may be expiring right now). */
  predicate Watched(s: Item) {
    s.pending.Some? && (s.now < s.pending.value.dueAt + LOST_AFTER_MS || s.alarm.Some?)
  }

  function Refire(c: Ctx, s: Item, run: Routine): Step<Swept> {
    var (s1, _) :- FireWatched(c, s, true, run, false, false);
    var (s2, _) :- Log(c, s1);
    Ret(s2, Refired)
  }

  /** Shadow: one row per idle stretch. */
  function ReportLeft(c: Ctx, s: Item, last: Option<int>): Step<Swept> {
    if s.reported == Some(last) then Ret(s, WouldRefire(true))
    else
      var (s1, _) :- Log(c, s.(reported := Some(last)));
      Ret(s1, WouldRefire(false))
  }

  function AsGated(st: Step<Result>): Step<Swept> {
    match st
    case Ret(s, r) => Ret(s, Gated(r))
    case Thr(s) => Thr(s)
  }

  /** A person's lost retry of a merge-blocked PR, its gate passed. */
  function RetryMerge(c: Ctx, s: Item, cl: set<Label>): Step<Result> {
    var (s1, r) :- ApplyEvent(c, s, LabelledAutoMerging, cl, false);
    if r.Applied? then
      var (s2, _) :- Log(c, s1);
      Ret(s2, r)
    else Ret(s1, r)
  }

  /** A lost auto-merging fire goes through the gate a fresh label does. */
  function SweepMerge(c: Ctx, s: Item, cl: set<Label>, run: Routine): Step<Swept> {
    var s1 := if MergeBlocked in cl then PutCiFix(s, None) else s;
    var (s2, f) :- SettledFacts(c, s1);
    if HardBlock(f) then AsGated(BlockMerge(c, s2, cl, MergeGateFailedHard, false))
    else if DeriveGate(f) == Soft then AsGated(HandToRework(c, s2, cl, false))
    else if MergeBlocked in cl then AsGated(RetryMerge(c, s2, cl))
    else Refire(c, s2, run)
  }

  function SweepAct(c: Ctx, s: Item, cl: set<Label>, run: Routine, enforced: bool, last: Option<int>): Step<Swept> {
    var act := enforced && c.mode && c.Enforced(WatchdogExpired);
    if !act then ReportLeft(c, s, last)
    else if DeriveState(cl) == Clear(At(AutoMerging)) then SweepMerge(c, s, cl, run)
    else Refire(c, s, run)
  }

  function SweepIdle(
    c: Ctx, s: Item, cl: set<Label>, run: Routine, enforced: bool, budget: bool, last: Option<int>): Step<Swept>
  {
    if s.completed.Some? && (last.None? || s.completed.value >= last.value) then Ret(s, CompletedRun)
    else if DeriveState(cl) == Clear(At(AiReviewing)) && budget && c.Enforced(WatchdogExpired) then
      AsGated(ReviewGate(c, s, cl, false))
    else SweepAct(c, s, cl, run, enforced && budget, last)
  }

  function Reconcile(c: Ctx, s: Item, enforced: bool, budget: bool, updatedAt: Option<int>): Step<Swept> {
    if Watched(s) then Ret(s, BeingWatched)
    else
      var (s1, cl) :- GetLabels(c, s);
      match SweepRun(cl, s1.releaseMerged.Some?)
      case None => Ret(s1, NotTriggered)
      case Some(run) =>
        var (s2, a) :- Read(c, s1);
        var last := Latest(a.at, updatedAt);
        if last.Some? && IdleTenths(s.now - last.value) * 6_000 < 2 * c.timeout(run) then Ret(s2, Recent)
        else SweepIdle(c, s2, cl, run, enforced, budget, last)
  }
}
