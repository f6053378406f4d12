// What a fire leaves behind (worker/src/coordinate/apply.ts): watched or not,
// and when a rate-limited one is sent.

module Fires {
  import opened Wrappers
  import opened Graph
  import opened Labels
  import opened Items
  import opened Apply
  import opened Kinds
  import opened Keeps

  /** The API's answer to the last fire tried. */
  function Reply(t: Item): Verdict {
    var fired := Fired(t.trace);
    if fired == [] then Accepts else fired[|fired| - 1].verdict
  }

  /** Nothing fired since `s`. */
  predicate NoneFired(s: Item, t: Item) {
    Fired(t.trace) == Fired(s.trace)
  }

  /** `run` tried since `s`, once, and nothing else. */
  predicate FiredOnce(s: Item, t: Item, run: Routine) {
    Fired(t.trace) == Fired(s.trace) + [Attempt(run, Reply(t))]
  }

  /** Nothing pending, nothing armed. */
  predicate Idle(t: Item) {
    t.pending.None? && t.alarm.None?
  }

  /** A run started since `s`, its watchdog armed for a full timeout from then. */
  predicate Watching(c: Ctx, s: Item, t: Item, run: Routine, retried: bool) {
    && t.pending.Some?
    && var f := t.pending.value;
       && f == Fire(run, false, retried, false, None, false, f.firedAt + c.timeout(run), f.firedAt)
       && s.now <= f.firedAt <= t.now && t.alarm == Some(f.dueAt) && t.completed.None?
  }

  /** The time a fire limited until `at` is sent: the API's own, each item of a
      repo a few seconds apart. */
  function Nudged(c: Ctx, at: int): int {
    at + (c.number % 30) * 1000
  }

  /** A fire of `run` waits for its alarm at `until`. */
  predicate Deferring(t: Item, run: Routine, until: int, watched: bool, retried: bool) {
    && t.pending.Some? && t.alarm == Some(until) && t.completed.None?
    && var f := t.pending.value;
       f == Fire(run, false, retried, false, Some(until), !watched, until, f.firedAt)
  }

  /** What the API's answer to a fire of `run` leaves pending. */
  predicate Leaves(c: Ctx, s: Item, t: Item, run: Routine, watched: bool, retried: bool) {
    match Reply(t)
    case Accepts => if watched then Watching(c, s, t, run, retried) else Idle(t)
    case RateLimits(at) => Deferring(t, run, Nudged(c, at), watched, retried)
    case Throws(_, _) => Idle(t)
  }

  // --- calls that fire nothing ---

  /** Nothing fired, the pending fire and its alarm as they were. */
  predicate Unfired(s: Item, t: Item) {
    NoneFired(s, t) && t.pending == s.pending && t.alarm == s.alarm && t.completed == s.completed && s.now <= t.now
  }

  lemma UnfiredOn(s: Item, t: Item, u: Item)
    requires Unfired(s, t) && Unfired(t, u)
    ensures Unfired(s, u)
  {
  }

  lemma SaysUnfired(c: Ctx, s: Item, io: bool, m: Mark)
    requires !m.FireTried?
    ensures Unfired(s, Say(c, s, io, m).s)
  {
    FiredGrows(s.trace, m);
  }

  lemma WritesUnfired(c: Ctx, s: Item, io: bool, add: bool, l: Label)
    ensures Unfired(s, WriteLabel(c, s, io, add, l).s)
  {
    FiredGrows(s.trace, LabelWrite(add, l));
  }

  lemma OpUnfired(c: Ctx, s: Item, io: bool, op: LabelOp)
    ensures Unfired(s, WriteOp(c, s, io, op).s)
  {
    hide WriteLabel, Say;
    match op
    case AddOp(l) => WritesUnfired(c, s, io, true, l);
    case RemoveOp(l) => WritesUnfired(c, s, io, false, l);
    case CloseOp => SaysUnfired(c, if io && Lands(c, s) then s.(open := false) else s, io, CloseWrite);
  }

  lemma {:induction false} OpsUnfired(c: Ctx, s: Item, io: bool, ops: seq<LabelOp>)
    ensures Unfired(s, WriteOps(c, s, io, ops).s)
    decreases |ops|
  {
    hide WriteOp;
    if ops != [] {
      OpUnfired(c, s, io, ops[0]);
      if WriteOp(c, s, io, ops[0]).Ret? {
        OpsUnfired(c, WriteOp(c, s, io, ops[0]).s, io, ops[1..]);
      }
    }
  }

  lemma ReportUnfired(c: Ctx, s: Item, io: bool, told: bool)
    ensures Unfired(s, ReportRefused(c, s, io, told))
  {
    hide Say;
    SaysUnfired(c, s, true, Row);
    SaysUnfired(c, Log(c, s).s, io, CommentWrite(false));
  }

  // --- a fire ---

  lemma SaysMark(c: Ctx, s: Item, io: bool, m: Mark)
    ensures var t := Say(c, s, io, m).s;
      t.trace == (if io && Lands(c, s) then s.trace + [m] else s.trace) && t.outcomes == s.outcomes
  {
  }

  /** What is pending once a rate-limited fire has been put off: the time the
      API gave, nudged by the item's number, is when it is due and when its
      alarm is set. */
  lemma Defers(c: Ctx, s: Item, io: bool, run: Routine, retried: bool, unwatched: bool, at: int, again: bool)
    ensures var t := DeferFire(c, s, io, run, retried, unwatched, at, again);
      && NoneFired(s, t) && s.now <= t.now && Deferring(t, run, Nudged(c, at), !unwatched, retried)
      && t.trace == (if io && !again && Lands(c, s) then s.trace + [CommentWrite(false)] else s.trace) && t.outcomes == s.outcomes
  {
    hide Say, Fired;
    var s1 := Arm(c, s, NewFire(s, run, retried, unwatched, Some(Nudged(c, at))));
    SaysUnfired(c, s1, io, CommentWrite(false));
    SaysMark(c, s1, io, CommentWrite(false));
  }

  /** The call itself. */
  lemma Asks(c: Ctx, s: Item, run: Routine)
    ensures var f := FireRoutine(c, s, true, run); var v := Next(c, s).verdict;
      && Fired(f.s.trace) == Fired(s.trace) + [Attempt(run, v)] && f.s.trace == s.trace + [FireTried(run, v, s.releaseMerged.Some?)]
      && f.s == s.(trace := f.s.trace, now := f.s.now, calls := s.calls + 1, labels := f.s.labels) && s.now <= f.s.now
      && (match f case Sent(_) => v.Accepts? case Limited(_, at) => v == RateLimits(at) case Refused(_) => v.Throws?)
  {
    hide Fired;
    FiredGrows(s.trace, FireTried(run, Next(c, s).verdict, s.releaseMerged.Some?));
  }

  lemma Begins(s: Item, run: Routine)
    ensures var s1 := Forget(s, run);
      && NoneFired(s, s1) && s1.pending == s.pending && s1.now == s.now && s1.trace == s.trace + [Started(run)]
      && s1.releaseMerged == s.releaseMerged && s1.calls == s.calls && run !in s1.outcomes
  {
    FiredGrows(s.trace, Started(run));
  }

  lemma Replied(t: Item, fired: seq<Attempt>, run: Routine, v: Verdict)
    requires Fired(t.trace) == fired + [Attempt(run, v)]
    ensures Reply(t) == v
  {
  }

  /** What a fire comes to: tried once, with what the API's answer leaves
      pending; the outcome its last run reported forgotten; and limited, said on
      the item, but where that is no news. */
  predicate FiresOnce(c: Ctx, s: Item, st: Step<FireOutcome>, run: Routine, watched: bool, retried: bool, known: bool) {
    && FiredOnce(s, st.s, run) && Leaves(c, s, st.s, run, watched, retried) && Quietly(c, s, st.s, run, known)
    && s.now <= st.s.now && run !in st.s.outcomes
    && (st.Ret? <==> !Reply(st.s).Throws?) && (st.Ret? ==> (st.v.WentOut? <==> Reply(st.s).Accepts?))
  }

  /** A fire is tried once; what is left pending goes by the API's answer: a
      watchdog for a full timeout, a deferral to the time it gave, or nothing. */
  lemma WatchedFire(c: Ctx, s: Item, run: Routine, retried: bool, again: bool)
    ensures FiresOnce(c, s, FireWatched(c, s, true, run, retried, again), run, true, retried, again || (Running(s, run) && Deferred(s)))
  {
    hide DeferFire, FireRoutine, Forget, Fired, Reply;
    var s1 := Forget(s, run);
    Begins(s, run);
    var s2 := Arm(c, s1, NewFire(s1, run, retried, false, None));
    Asks(c, s2, run);
    var f := FireRoutine(c, s2, true, run);
    var v := Next(c, s2).verdict;
    var t := FireWatched(c, s, true, run, retried, again).s;
    if f.Limited? {
      Defers(c, f.s, true, run, retried, false, f.retryAt, again || (Running(s1, run) && Deferred(s1)));
    }
    Replied(t, Fired(s.trace), run, v);
  }

  /** An unwatched one too, but that nothing is pending once it went out. */
  lemma UnwatchedFire(c: Ctx, s: Item, run: Routine, again: bool)
    ensures FiresOnce(c, s, FireUnwatched(c, s, true, run, again), run, false, false, again || (Running(s, run) && Deferred(s)))
  {
    hide DeferFire, FireRoutine, Forget, Fired, Reply;
    var s1 := Forget(s, run);
    Begins(s, run);
    var s2 := Disarm(s1);
    Asks(c, s2, run);
    var f := FireRoutine(c, s2, true, run);
    var v := Next(c, s2).verdict;
    var t := FireUnwatched(c, s, true, run, again).s;
    if f.Limited? {
      Defers(c, f.s, true, run, false, true, f.retryAt, again || (Running(s1, run) && Deferred(s1)));
    }
    Replied(t, Fired(s.trace), run, v);
  }

  /** The history of a fire: its start, its try, and, for a deferral that is
      news, a comment, if the call after it had its effect. */
  predicate Quietly(c: Ctx, s: Item, t: Item, run: Routine, known: bool) {
    var tried := s.trace + [Started(run), FireTried(run, Reply(t), s.releaseMerged.Some?)];
    var said := c.world(s.calls + 1).verdict;
    t.trace == if Reply(t).RateLimits? && !known && (said.Throws? ==> said.landed) then tried + [CommentWrite(false)] else tried
  }

  /** A shadow fire is not made, and is watched all the same. */
  lemma ShadowFire(c: Ctx, s: Item, run: Routine)
    ensures var st := FireWatched(c, s, false, run, false, false);
      st.Ret? && NoneFired(s, st.s) && Watching(c, s, st.s, run, false)
    ensures var st := FireUnwatched(c, s, false, run, false); st.Ret? && NoneFired(s, st.s) && Idle(st.s) && s.now <= st.s.now
  {
    FiredGrows(s.trace, Started(run));
  }

  /** A refused fire is a row, and for a delivery a comment too, each if its call
      had its effect; neither's failure is anybody's. */
  lemma RefusalIsSaid(c: Ctx, s: Item, io: bool, told: bool)
    ensures var row := c.world(s.calls).verdict; var said := c.world(s.calls + 1).verdict;
      ReportRefused(c, s, io, told).trace == s.trace
        + (if row.Throws? ==> row.landed then [Row] else [])
        + (if io && told && (said.Throws? ==> said.landed) then [CommentWrite(false)] else [])
  {
    hide Say, Fired;
    SaysMark(c, s, true, Row);
    OneMore(c, s, Row);
    SaysMark(c, Log(c, s).s, io, CommentWrite(false));
  }

  lemma OneMore(c: Ctx, s: Item, m: Mark)
    ensures Say(c, s, true, m).s.calls == s.calls + 1
  {
  }

  // --- an event's fire ---

  /** The labels whose routine is watched: the table says of each what its
      expiry means. */
  const WATCHED: set<Label> := {AiReady, AutoReleasing, AutoReworking, AutoMerging, AiReviewing}

  /** The label a rule leads to, or stays in. */
  function EndsIn(rule: Rule): Option<Label> {
    match rule.to
    case ToLabel(l) => Some(l)
    case _ => if rule.from.At? then Some(rule.from.lane) else None
  }

  predicate WatchedEnd(rule: Rule) {
    EndsIn(rule).Some? && EndsIn(rule).value in WATCHED
  }

  lemma WatchedByLabel(rule: Rule)
    ensures IsWatched(Target(rule)) <==> WatchedEnd(rule)
  {
  }

  /** A rule's fire, or the end of the pending one. */
  lemma RuleFire(c: Ctx, s: Item, io: bool, rule: Rule, told: bool)
    ensures var st := FireOrClear(c, s, io, rule, told);
      && s.now <= st.s.now
      && match rule.run
         case None => st.Ret? && NoneFired(s, st.s) && Idle(st.s)
         case Some(run) =>
           if io then
             FiredOnce(s, st.s, run) && Leaves(c, s, st.s, run, WatchedEnd(rule), false) && (st.Ret? <==> !Reply(st.s).Throws?)
           else
             st.Ret? && NoneFired(s, st.s) && if WatchedEnd(rule) then Watching(c, s, st.s, run, false) else Idle(st.s)
  {
    hide FireWatched, FireUnwatched, IsWatched, Target, WatchedEnd, ReportRefused, Quietly, Fired, Reply, Watching, Deferring;
    WatchedByLabel(rule);
    if rule.run.Some? {
      var run := rule.run.value;
      WatchedFire(c, s, run, false, false);
      UnwatchedFire(c, s, run, false);
      ShadowFire(c, s, run);
      var t := FireRule(c, s, io, rule, run).s;
      var u := ReportRefused(c, t, io, told);
      ReportUnfired(c, t, io, told);
      LeavesOn(c, s, s, t, u, run, WatchedEnd(rule), false);
    }
  }

  /** What a matched rule fires, and leaves pending; `done`: its calls returned.
      A rule that runs nothing ends the pending fire. One that runs something
      tries it once, and only with its labels written, and leaves by the API's
      answer the run undeferred, its watchdog armed for a full timeout, or its
      deferral to the time the API gave, or nothing; and it is watched exactly
      where the label the rule leads to, or stays in, is one of the five. */
  ghost predicate RuleFired(c: Ctx, s: Item, t: Item, rule: Rule, cl: set<Label>, done: bool) {
    && s.now <= t.now
    && (NoEdits(c) && !NoneFired(s, t) ==> t.labels == DoAll(s.labels, LabelOps(cl, rule)))
    && match rule.run
       case None => NoneFired(s, t) && (done ==> Idle(t))
       case Some(run) =>
         if c.Enforced(rule.on) then
           && (NoneFired(s, t) || (FiredOnce(s, t, run) && Leaves(c, s, t, run, WatchedEnd(rule), false)))
           && (done ==> FiredOnce(s, t, run) && !Reply(t).Throws?)
         else
           NoneFired(s, t) && (done ==> if WatchedEnd(rule) then Watching(c, s, t, run, false) else Idle(t))
  }

  /** The rule's labels, then its fire, then its row. */
  lemma CallsFire(c: Ctx, s: Item, rule: Rule, cl: set<Label>, told: bool)
    ensures var st := RuleCalls(c, s, rule, cl, told); RuleFired(c, s, st.s, rule, cl, st.Ret?)
  {
    hide WriteOps, FireOrClear, Say, LabelOps, DoAll, NoEdits, StuckFree, WatchedEnd, Fired, PassesThrough, Reply, Watching, Deferring;
    var io := c.Enforced(rule.on);
    var ops := LabelOps(cl, rule);
    OpsUnfired(c, s, io, ops);
    var w := WriteOps(c, s, io, ops);
    if NoEdits(c) {
      WriteOpsLabels(c, s, io, ops);
      if w.Ret? {
        FireLabels(c, w.s, io, rule, told);
        LogLabels(c, FireOrClear(c, w.s, io, rule, told).s);
      }
    }
    if w.Ret? {
      RuleFire(c, w.s, io, rule, told);
      var f := FireOrClear(c, w.s, io, rule, told);
      SaysUnfired(c, f.s, true, Row);
      WatchingOn(c, s, w.s, f.s, Log(c, f.s).s, rule);
    }
  }

  lemma MarkUnfired(s: Item, m: Mark)
    requires !m.FireTried?
    ensures Unfired(s, Marked(s, m))
  {
    FiredGrows(s.trace, m);
  }

  lemma LeavesOn(c: Ctx, s: Item, s1: Item, t: Item, u: Item, run: Routine, watched: bool, retried: bool)
    requires NoneFired(s, s1) && s.now <= s1.now && Unfired(t, u)
    ensures FiredOnce(s1, t, run) <==> FiredOnce(s, u, run)
    ensures NoneFired(s1, t) <==> NoneFired(s, u)
    ensures Reply(t) == Reply(u)
    ensures Leaves(c, s1, t, run, watched, retried) ==> Leaves(c, s, u, run, watched, retried)
    ensures Watching(c, s1, t, run, retried) ==> Watching(c, s, u, run, retried)
    ensures Idle(t) ==> Idle(u)
  {
  }

  lemma WatchingOn(c: Ctx, s: Item, s1: Item, t: Item, u: Item, rule: Rule)
    requires NoneFired(s, s1) && s.now <= s1.now && Unfired(t, u)
    ensures Idle(t) ==> Idle(u)
    ensures NoneFired(s1, t) <==> NoneFired(s, u)
    ensures match rule.run
      case None => true
      case Some(run) =>
        && (FiredOnce(s1, t, run) <==> FiredOnce(s, u, run)) && Reply(t) == Reply(u)
        && (Leaves(c, s1, t, run, WatchedEnd(rule), false) ==> Leaves(c, s, u, run, WatchedEnd(rule), false))
        && (Watching(c, s1, t, run, false) ==> Watching(c, s, u, run, false))
  {
    hide Fired, Reply, Leaves, Watching, WatchedEnd;
    if rule.run.Some? {
      LeavesOn(c, s, s1, t, u, rule.run.value, WatchedEnd(rule), false);
    }
  }

  lemma RuleFiredOn(c: Ctx, s: Item, s1: Item, t: Item, u: Item, rule: Rule, cl: set<Label>, done: bool)
    requires Unfired(s, s1) && s.labels == s1.labels && Unfired(t, u) && t.labels == u.labels && RuleFired(c, s1, t, rule, cl, done)
    ensures RuleFired(c, s, u, rule, cl, done)
  {
    hide Fired, Reply, Leaves, Watching, WatchedEnd, LabelOps, DoAll, NoneFired, FiredOnce;
    WatchingOn(c, s, s1, t, u, rule) by {
      UnfiredSays(s, s1);
    }
  }

  lemma UnfiredSays(s: Item, t: Item)
    requires Unfired(s, t)
    ensures NoneFired(s, t) && s.now <= t.now
  {
  }

  /** So for an event; one that has no rule fires nothing, and the pending fire
      stands. */
  lemma EventFires(c: Ctx, s: Item, e: Event, cl: set<Label>, told: bool)
    ensures var st := ApplyEvent(c, s, e, cl, told);
      match RuleFor(cl, e)
      case None => Unfired(s, st.s) && (NoEdits(c) ==> st.s.labels == s.labels)
      case Some(rule) => rule.on == e && RuleFired(c, s, st.s, rule, cl, st.Ret?)
  {
    hide RuleCalls, Say, NoEdits, StuckFree, RuleFor, NotApplied, RuleFired, Fired;
    SaysUnfired(c, s, true, Row);
    SayReturns(c, s, true, Row);
    if RuleFor(cl, e).Some? {
      var rule := RuleFor(cl, e).value;
      RuleForNames(cl, e);
      var s1 := Marked(s, Matched(rule, PendingRun(s)));
      MarkUnfired(s, Matched(rule, PendingRun(s)));
      CallsFire(c, s1, rule, cl, told);
      var st := RuleCalls(c, s1, rule, cl, told);
      MarkUnfired(st.s, AppliedMark(rule.on, st.s.calls));
      RuleFiredOn(c, s, s1, st.s, st.s, rule, cl, st.Ret?) by {
        SaysNothing(st.s);
      }
      RuleFiredOn(c, s, s1, st.s, Marked(st.s, AppliedMark(rule.on, st.s.calls)), rule, cl, st.Ret?);
    }
  }

  lemma SaysNothing(s: Item)
    ensures Unfired(s, s)
  {
  }
}
