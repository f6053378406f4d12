// One issue or PR as its coordinator sees it: the live labels on GitHub, the
// durable storage behind it (worker/src/issue-coordinator.ts), and the calls
// out of it, each free to succeed, to fail, or to fail having taken effect.

module Outcomes {
  import opened Wrappers

  datatype MergeMethod = Merge | Squash | Rebase

  /** The outcome catalog (graph/outcomes.ts). */
  datatype Outcome =
    | BuildDone(pr: int)
    | BuildStopped(reason: string)
    | ReleaseStopped(reason: string)
    | ReleaseOut(version: string, tag: Option<string>)
    | ReleaseReady(pr: int, sha: string, version: string, how: MergeMethod)
    | ReviewClean
    | ReviewFound(findings: int)
    | ReviewStopped(reason: string)
    | ReworkNothing(reason: string)
    | MergeStopped(reason: string)
    | DiscussionFull

  /** The outcome's own name: what a second carrier of it is recognised by. */
  datatype Name =
    | NBuildSucceeded | NBuildBlocked | NReleaseBlocked | NReleasePublished | NReleaseApproved | NReviewPassed
    | NReviewFindings | NReviewBlocked | NReworkNoChange | NMergeBlocked | NDiscussionCapped

  function NameOf(o: Outcome): Name {
    match o
    case BuildDone(_) => NBuildSucceeded
    case BuildStopped(_) => NBuildBlocked
    case ReleaseStopped(_) => NReleaseBlocked
    case ReleaseOut(_, _) => NReleasePublished
    case ReleaseReady(_, _, _, _) => NReleaseApproved
    case ReviewClean => NReviewPassed
    case ReviewFound(_) => NReviewFindings
    case ReviewStopped(_) => NReviewBlocked
    case ReworkNothing(_) => NReworkNoChange
    case MergeStopped(_) => NMergeBlocked
    case DiscussionFull => NDiscussionCapped
  }
}

module Items {
  import opened Wrappers
  import opened Graph
  import opened Labels
  import O = Outcomes

  type Sha = string

  // --- what GitHub and the routines API answer ---

  datatype CheckStatus = Queued | InProgress | Completed

  datatype Conclusion = Success | Failure | Neutral | Cancelled | Skipped | TimedOut | ActionRequired | NotConcluded

  datatype Check = Check(status: CheckStatus, conclusion: Conclusion)

  /** The facts behind a PR's gates; mergeable None while GitHub computes it. */
  datatype Facts = Facts(headSha: Option<Sha>, checks: seq<Check>, changesRequested: bool, mergeable: Option<bool>)

  datatype Pull = Pull(headSha: Sha, merged: bool, open: bool)

  /** A comment, parsed: the routine its outcome marker names, the outcome it
      carries, whether it has the discussion loop's own signature, whether it
      passes the discussion round's own gates, and whether its author may
      write (`trusted`) or is the Worker's own bot (`own`). */
  datatype Remark = Remark(routine: Option<Routine>, outcome: Option<O.Outcome>, signed: bool, reply: bool, trusted: bool, own: bool)

  datatype Note = Note(createdAt: int, remark: Remark)

  /** How a call ends. A failed one may have taken effect all the same
      (`landed`), or may have failed because there is no such thing
      (`missing`). Only a fire is ever rate-limited. */
  datatype Verdict = Accepts | RateLimits(retryAt: int) | Throws(landed: bool, missing: bool)

  /** Everything one call outside can bring back, with the time it took and
      what other people did to the item's labels meanwhile. */
  datatype Answer = Answer(
    delay: nat, verdict: Verdict, came: set<Label>, gone: set<Label>,
    facts: Facts, pull: Pull, notes: seq<Note>, yes: bool, at: Option<int>, numbers: seq<int>)

  type Cap = n: nat | 1 <= n witness 1

  datatype Caps = Caps(ciFixAttempts: Cap, reviewReworks: Cap, botReviewReworks: Cap)

  /** The repo's configuration, and the world: the answer to every call, in
      the order the calls are made. `mode` and `watchdog` are the two enforce
      switches; `app` whether the Worker has its own App identity; `timeout`
      each routine's watchdog, in milliseconds. */
  datatype Ctx = Ctx(
    mode: bool, watchdog: bool, retry: bool, app: bool, number: nat, caps: Caps,
    timeout: Routine -> nat, world: nat -> Answer)
  {
    /** Whether an event's writes are real: everything under the mode switch,
        the watchdog's expiry under both. */
    predicate Enforced(e: Event) {
      mode && (e.WatchdogExpired? ==> watchdog)
    }
  }

  // --- durable state ---

  datatype Fire = Fire(
    run: Routine, stepped: bool, retried: bool, blocked: bool, deferUntil: Option<int>, unwatched: bool,
    dueAt: int, firedAt: int)

  datatype CiFix = CiFix(attempts: nat, pending: bool, toReview: bool)

  datatype Rounds = Rounds(botRounds: nat, fixPending: bool)

  datatype Shipped = Shipped(pr: int, sha: Sha)

  datatype Ended = Ended(firedAt: int, name: O.Name)

  datatype DeliveryId =
    | NoId
    | Github(id: string)
    | RecoverId(run: Routine, firedAt: int, createdAt: int)
    | SignalId(run: Routine, firedAt: int, name: O.Name)

  /** The history: real writes and fires, log rows, and the points where a
      rule matched, finished applying, or a run was started. */
  datatype Mark =
    | LabelWrite(added: bool, lane: Label)
    | CloseWrite
    | CommentWrite(alert: bool)
    | MergeWrite
    | FireTried(run: Routine, verdict: Verdict, afterMerge: bool)
    | Row
    | Started(run: Routine)
    | Matched(rule: Rule, running: Option<Routine>)
    | AppliedMark(on: Event, at: nat)
    | Forwarded

  datatype Item = Item(
    labels: set<Label>, open: bool,
    pending: Option<Fire>, alarm: Option<int>,
    ciFix: Option<CiFix>, rounds: Option<Rounds>, reviewReworks: nat, reworkExpired: bool,
    mergeFiredFor: Option<Sha>, shipped: Option<Shipped>, releaseMerged: Option<Shipped>,
    outcomes: map<Routine, Ended>, seen: set<DeliveryId>,
    completed: Option<int>, reported: Option<Option<int>>,
    now: int, calls: nat, trace: seq<Mark>)

  // --- a step that may throw ---

  /** What a handler leaves: the item, and its result unless it threw. The
      item's changes up to a throw stay. */
  datatype Step<+T> = Ret(s: Item, v: T) | Thr(s: Item) {
    predicate IsFailure() { Thr? }
    function PropagateFailure<U>(): Step<U>
      requires Thr?
    {
      Thr(s)
    }
    function Extract(): (Item, T)
      requires Ret?
    {
      (s, v)
    }
  }

  // --- calls ---

  function Next(c: Ctx, s: Item): Answer {
    c.world(s.calls)
  }

  predicate Fails(c: Ctx, s: Item) {
    Next(c, s).verdict.Throws?
  }

  predicate Lands(c: Ctx, s: Item) {
    Fails(c, s) ==> Next(c, s).verdict.landed
  }

  /** The item once the next call has been answered. */
  function Asked(c: Ctx, s: Item): Item {
    var a := Next(c, s);
    s.(calls := s.calls + 1, now := s.now + a.delay, labels := s.labels - a.gone + a.came)
  }

  function Marked(s: Item, m: Mark): Item {
    s.(trace := s.trace + [m])
  }

  function Ending<T>(c: Ctx, before: Item, after: Item, v: T): Step<T> {
    if Fails(c, before) then Thr(after) else Ret(after, v)
  }

  function Read(c: Ctx, s: Item): Step<Answer> {
    Ending(c, s, Asked(c, s), Next(c, s))
  }

  function GetLabels(c: Ctx, s: Item): Step<set<Label>> {
    Ending(c, s, Asked(c, s), Asked(c, s).labels)
  }

  function WriteLabel(c: Ctx, s: Item, io: bool, add: bool, l: Label): Step<()> {
    if !io then Ret(s, ())
    else
      var s1 := Asked(c, s);
      var s2 := if Lands(c, s)
                then Marked(s1.(labels := if add then s1.labels + {l} else s1.labels - {l}), LabelWrite(add, l))
                else s1;
      Ending(c, s, s2, ())
  }

  /** A call whose only effect on the item is its mark. */
  function Say(c: Ctx, s: Item, io: bool, m: Mark): Step<()> {
    if !io then Ret(s, ())
    else Ending(c, s, if Lands(c, s) then Marked(Asked(c, s), m) else Asked(c, s), ())
  }

  function CloseIssue(c: Ctx, s: Item, io: bool): Step<()> {
    Say(c, if io && Lands(c, s) then s.(open := false) else s, io, CloseWrite)
  }

  function Comment(c: Ctx, s: Item, io: bool): Step<()> {
    Say(c, s, io, CommentWrite(false))
  }

  function Log(c: Ctx, s: Item): Step<()> {
    Say(c, s, true, Row)
  }

  /** The App's own login is looked up only where there is an App. */
  function BotLogin(c: Ctx, s: Item): Step<()> {
    if c.app then Ending(c, s, Asked(c, s), ()) else Ret(s, ())
  }

  /** A fire: sent, refused, or rate-limited. A shadow one is not made. */
  datatype Sending = Sent(s: Item) | Limited(s: Item, retryAt: int) | Refused(s: Item)

  function FireRoutine(c: Ctx, s: Item, io: bool, run: Routine): Sending {
    if !io then Sent(s)
    else
      var v := Next(c, s).verdict;
      var s1 := Marked(Asked(c, s), FireTried(run, v, s.releaseMerged.Some?));
      match v
      case Accepts => Sent(s1)
      case RateLimits(t) => Limited(s1, t)
      case Throws(_, _) => Refused(s1)
  }

  // --- storage ---

  /** setPendingFire: the fire and its alarm are written together, and any
      completion mark goes. */
  function Arm(c: Ctx, s: Item, f: Fire): Item {
    var dueAt := if f.deferUntil.Some? then f.deferUntil.value else s.now + c.timeout(f.run);
    s.(completed := None, pending := Some(f.(dueAt := dueAt)), alarm := Some(dueAt))
  }

  /** A fire as a caller first asks for it. */
  function NewFire(s: Item, run: Routine, retried: bool, unwatched: bool, deferUntil: Option<int>): Fire {
    Fire(run, false, retried, false, deferUntil, unwatched, 0, s.now)
  }

  function Disarm(s: Item): Item {
    s.(pending := None, alarm := None)
  }

  predicate Running(s: Item, run: Routine) {
    s.pending.Some? && s.pending.value.run == run
  }

  predicate Deferred(s: Item) {
    s.pending.Some? && s.pending.value.deferUntil.Some?
  }

  function PendingRun(s: Item): Option<Routine> {
    if s.pending.Some? then Some(s.pending.value.run) else None
  }

  function Attempts(s: Item): nat {
    if s.ciFix.Some? then s.ciFix.value.attempts else 0
  }

  function BotRounds(s: Item): nat {
    if s.rounds.Some? then s.rounds.value.botRounds else 0
  }

  predicate CiFixPending(s: Item) {
    s.ciFix.Some? && s.ciFix.value.pending
  }

  predicate FixPending(s: Item) {
    s.rounds.Some? && s.rounds.value.fixPending
  }

  function PutCiFix(s: Item, f: Option<CiFix>): Item {
    s.(ciFix := f)
  }

  function PutRounds(s: Item, r: Option<Rounds>): Item {
    s.(rounds := r)
  }

  function PutExpired(s: Item, expired: bool): Item {
    s.(reworkExpired := expired)
  }

  function PutReleaseMerged(s: Item, m: Option<Shipped>): Item {
    s.(releaseMerged := m)
  }

  /** A new run of `run` starts: its last run's outcome no longer dedupes. */
  function Forget(s: Item, run: Routine): Item {
    Marked(s.(outcomes := s.outcomes - {run}), Started(run))
  }
}
