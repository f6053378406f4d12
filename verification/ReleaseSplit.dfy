// The two ways an approved release goes (worker/src/coordinate/release.ts):
// merged at the reviewed commit and published, or refused.

module ReleaseSplit {
  import opened Wrappers
  import opened Graph
  import opened Labels
  import opened Items
  import opened Apply
  import opened Deliveries
  import opened Stages
  import opened Webhook
  import opened Signals
  import opened Kinds
  import opened Keeps
  import opened GateKeeps
  import opened Fires
  import opened Delivering
  import opened Steps
  import opened Triggers
  import opened Gatekeeping
  import opened ReviewKeeping
  import opened Reports
  import O = Outcomes

  /** The calls from `from` up to `to` all went through. */
  predicate Through(c: Ctx, from: nat, to: nat) {
    forall n | from <= n < to :: !c.world(n).verdict.Throws?
  }

  /** The PR is merged at the reviewed commit: so it was read, at call n; or it
      was not merged yet and the merge was made; or that threw, and read again
      it is merged there. */
  predicate ReallyMerged(c: Ctx, n: nat, sha: Sha) {
    var read := c.world(n);
    var again := c.world(n + 2);
    !read.verdict.Throws? &&
    if read.pull.merged then read.pull.headSha == sha
    else
      || !c.world(n + 1).verdict.Throws?
      || (!again.verdict.Throws? && again.pull.merged && again.pull.headSha == sha)
  }

  /** The release is on record as merged and its second part fired: whatever
      throws after, and watched or deferred as any fire. */
  predicate Goes(c: Ctx, s: Item, st: Step<Result>, pr: int, sha: Sha) {
    && st.s.releaseMerged == Some(Shipped(pr, sha))
    && Launched(c, s, st.s, ReleasePublish)
    && (st.Ret? ==> st.v.Applied? && st.s.labels == {AutoReleasing}) && Spoke(st)
  }

  /** Nothing recorded, nothing fired; and once that returns, auto-releasing is
      off and nothing is pending. */
  predicate Stops(s: Item, st: Step<Result>) {
    && st.s.releaseMerged == s.releaseMerged
    && NoneFired(s, st.s)
    && (st.Ret? ==> st.v.Applied? && st.s.labels == {} && Idle(st.s)) && Spoke(st)
  }

  predicate Splits(c: Ctx, s: Item, st: Step<Result>, pr: int, sha: Sha, merged: bool) {
    if merged then Goes(c, s, st, pr, sha) else Stops(s, st)
  }

  lemma SplitRules()
    ensures RuleFor({AutoReleasing}, ReleaseApproved) == Some(Rule(At(AutoReleasing), ReleaseApproved, Noop, None))
    ensures RuleFor({AutoReleasing}, ReleaseBlocked) == Some(Rule(At(AutoReleasing), ReleaseBlocked, Unlabel, None))
    ensures RuleFor({AutoReleasing}, ReleaseMerged) == Some(Rule(At(AutoReleasing), ReleaseMerged, Noop, Some(ReleasePublish)))
  {
    hide DeriveState, RuleFor;
    RuleAlone(AutoReleasing, ReleaseApproved);
    RuleAlone(AutoReleasing, ReleaseBlocked);
    RuleAlone(AutoReleasing, ReleaseMerged);
  }

  // --- the merge ---

  lemma MergeEnds(c: Ctx, s: Item, sha: Sha)
    requires c.mode && NoEdits(c)
    ensures var st := MergeReviewed(c, s, sha);
      && Rests(s, st.s) && st.s.releaseMerged == s.releaseMerged
      && (st.Thr? ==> c.world(s.calls).verdict.Throws?)
      && (st.Ret? ==> !c.world(s.calls).verdict.Throws? && (st.v <==> ReallyMerged(c, s.calls, sha)))
  {
    hide Say, Read, NoEdits, StuckFree, Fired, Framed;
    FactsCalm(c, s);
    ReadEnds(c, s);
    var r := Read(c, s);
    CalmCounts(s, r.s);
    if r.Ret? && !r.v.pull.merged {
      SayRests(c, r.s, true, MergeWrite);
      SaysCount(c, r.s, true, MergeWrite);
      SayAnswers(c, r.s, MergeWrite);
      var m := Say(c, r.s, true, MergeWrite);
      RestsOn(s, r.s, m.s);
      FactsCalm(c, m.s);
      ReadEnds(c, m.s);
      CalmCounts(m.s, Read(c, m.s).s);
      RestsOn(s, m.s, Read(c, m.s).s);
    }
  }

  lemma SayAnswers(c: Ctx, s: Item, m: Mark)
    ensures var st := Say(c, s, true, m); (st.Thr? <==> c.world(s.calls).verdict.Throws?) && st.s.calls == s.calls + 1
  {
  }

  /** A rule that writes no label and runs something fires it, whatever throws. */
  lemma NoopFires(c: Ctx, s: Item, e: Event, told: bool)
    requires NoEdits(c) && c.Enforced(e) && RuleFor(s.labels, e).Some?
    requires var rule := RuleFor(s.labels, e).value; rule.to.Noop? && rule.run.Some?
    ensures !NoneFired(s, ApplyEvent(c, s, e, s.labels, told).s)
  {
    hide RuleFor, FireOrClear, Say, Fired, NoEdits, StuckFree, WatchedEnd, Reply, Leaves, NoneFired;
    var rule := RuleFor(s.labels, e).value;
    RuleForNames(s.labels, e);
    var s1 := Marked(s, Matched(rule, PendingRun(s)));
    MarkUnfired(s, Matched(rule, PendingRun(s)));
    assert WriteOps(c, s1, true, []) == Ret(s1, ());
    RuleFire(c, s1, true, rule, told);
    var f := FireOrClear(c, s1, true, rule, told);
    SomethingFired(s1, f.s, rule.run.value);
    SaysUnfired(c, f.s, true, Row);
    var l := Log(c, f.s).s;
    MarkUnfired(l, AppliedMark(rule.on, l.calls));
    UnfiredOn(f.s, l, Marked(l, AppliedMark(rule.on, l.calls)));
    FiredStill(s, s1, f.s, f.s) by {
      UnfiredItself(f.s);
    }
    FiredStill(s, s1, f.s, l);
    FiredStill(s, s1, f.s, Marked(l, AppliedMark(rule.on, l.calls)));
  }

  lemma FiredStill(s: Item, s1: Item, t: Item, u: Item)
    requires Unfired(s, s1) && !NoneFired(s1, t) && Unfired(t, u)
    ensures !NoneFired(s, u)
  {
    hide Fired;
  }

  lemma Recorded(c: Ctx, s: Item, told: bool, pr: int, sha: Sha)
    requires c.mode && NoEdits(c) && s.labels == {AutoReleasing}
    ensures Goes(c, s, AfterMerge(c, s, s.labels, pr, sha, told), pr, sha)
  {
    hide ApplyEvent, RuleFor, NoEdits, StuckFree, Fired, Moves, After, Comment, Framed;
    SplitRules();
    var s1 := PutReleaseMerged(s, Some(Shipped(pr, sha)));
    EventMoves(c, s1, ReleaseMerged, told);
    NoopStays(s1.labels, ReleaseMerged);
    NoopFires(c, s1, ReleaseMerged, told);
    var st := ApplyEvent(c, s1, ReleaseMerged, s1.labels, told);
    FramedRecord(s1, st.s);
    if st.Ret? {
      var k := Comment(c, st.s, c.Enforced(ReleaseApproved));
      CommentMoves(c, s1, st, c.Enforced(ReleaseApproved), {AutoReleasing}, Some(ReleasePublish));
      CommentRests(c, st.s, c.Enforced(ReleaseApproved));
      LaunchedOn(c, s, s1, if k.Ret? then Ret(k.s, st.v) else Thr(k.s), ReleasePublish, {AutoReleasing}) by {
        StillFired(s1, st.s, k.s);
      }
    } else {
      LaunchedOn(c, s, s1, st, ReleasePublish, {AutoReleasing});
    }
  }

  lemma CommentRests(c: Ctx, s: Item, io: bool)
    requires NoEdits(c)
    ensures Rests(s, Comment(c, s, io).s) && Counters(s, Comment(c, s, io).s)
  {
    hide Say, NoEdits, StuckFree, Fired, Framed;
    SayRests(c, s, io, CommentWrite(false));
    SaysCount(c, s, io, CommentWrite(false));
  }

  lemma StillFired(s: Item, t: Item, u: Item)
    requires !NoneFired(s, t) && Rests(t, u)
    ensures !NoneFired(s, u)
  {
    hide Fired;
  }

  lemma FramedRecord(s: Item, t: Item)
    requires Framed(s, t)
    ensures t.releaseMerged == s.releaseMerged
  {
  }

  lemma LaunchedOn(c: Ctx, s: Item, s1: Item, st: Step<Result>, run: Routine, to: set<Label>)
    requires Moves(c, s1, st, to, Some(run)) && !NoneFired(s1, st.s) && s.trace == s1.trace && s.now == s1.now
    ensures Launched(c, s, st.s, run) && (st.Ret? ==> st.v.Applied? && st.s.labels == to)
  {
    hide Fired;
  }

  lemma Turned(c: Ctx, s: Item, told: bool, r: Result)
    requires c.mode && NoEdits(c) && s.labels == {AutoReleasing} && r.Applied?
    ensures Stops(s, RefuseRelease(c, s, s.labels, told, r))
  {
    hide ApplyEvent, RuleFor, NoEdits, StuckFree, Fired, Moves, Comment, Framed;
    SplitRules();
    EventMoves(c, s, ReleaseBlocked, told);
    assert After({AutoReleasing}, RuleFor({AutoReleasing}, ReleaseBlocked).value) == {};
    var st := ApplyEvent(c, s, ReleaseBlocked, s.labels, told);
    FramedRecord(s, st.s);
    MovesSays(c, s, st, {});
    if st.Ret? {
      CommentRests(c, st.s, c.Enforced(ReleaseApproved));
      SaidLast(c, st.s, r);
    }
  }

  /** The merge decides. */
  lemma MergeSplits(c: Ctx, s: Item, told: bool, pr: int, sha: Sha, r: Result)
    requires c.mode && NoEdits(c) && s.labels == {AutoReleasing} && r.Applied?
    ensures Splits(c, s, MergeRelease(c, s, s.labels, pr, sha, told, r), pr, sha, ReallyMerged(c, s.calls, sha))
  {
    hide MergeReviewed, AfterMerge, RefuseRelease, NoEdits, StuckFree, Fired, ReallyMerged;
    MergeEnds(c, s, sha);
    var m := MergeReviewed(c, s, sha);
    if m.Ret? && m.v {
      Recorded(c, m.s, told, pr, sha);
      GoesFrom(c, s, m.s, AfterMerge(c, m.s, m.s.labels, pr, sha, told), pr, sha);
    } else if m.Ret? {
      Turned(c, m.s, told, r);
    } else {
      assert !ReallyMerged(c, s.calls, sha) by {
        NotRead(c, s.calls, sha);
      }
    }
  }

  lemma NotRead(c: Ctx, n: nat, sha: Sha)
    requires c.world(n).verdict.Throws?
    ensures !ReallyMerged(c, n, sha)
  {
  }

  lemma GoesFrom(c: Ctx, s: Item, u: Item, st: Step<Result>, pr: int, sha: Sha)
    requires Unfired(s, u) && Goes(c, u, st, pr, sha)
    ensures Goes(c, s, st, pr, sha)
  {
    hide Fired;
  }

  // --- up to the merge ---

  /** The call that reads the PR: after the bot's login, the labels, the login
      again where the author's trust is asked, and the approval's own row. */
  function ReadsAt(c: Ctx, s: Item, signal: bool): nat {
    s.calls + LabelCalls(c) + (if c.app && !signal then 2 else 1)
  }

  lemma ApprovalRow(c: Ctx, s: Item, told: bool)
    requires c.mode && NoEdits(c) && s.labels == {AutoReleasing}
    ensures var st := ApplyEvent(c, s, ReleaseApproved, s.labels, told);
      && (st.Ret? <==> !c.world(s.calls).verdict.Throws?) && st.s.labels == s.labels && NoneFired(s, st.s) && s.now <= st.s.now
      && st.s.releaseMerged == s.releaseMerged && (st.Ret? ==> st.v.Applied? && st.s.calls == s.calls + 1)
  {
    hide RuleFor, Say, Fired, NoEdits, StuckFree, Framed;
    SplitRules();
    var rule := RuleFor(s.labels, ReleaseApproved).value;
    var s1 := Marked(s, Matched(rule, PendingRun(s)));
    MarkUnfired(s, Matched(rule, PendingRun(s)));
    assert WriteOps(c, s1, true, []) == Ret(s1, ());
    var d := Disarm(s1);
    SayRests(c, d, true, Row);
    SaysCount(c, d, true, Row);
    SayAnswers(c, d, Row);
    var l := Log(c, d).s;
    MarkUnfired(l, AppliedMark(rule.on, l.calls));
  }

  lemma ApprovedSplits(c: Ctx, s: Item, i: Input, o: O.Outcome)
    requires c.mode && NoEdits(c) && s.labels == {AutoReleasing} && Carries(i, o) && o.ReleaseReady? && Trusted(c, i)
    ensures var n := s.calls + if c.app && !i.actor.SignalActor? then 2 else 1;
      Splits(c, s, ReleaseApprovedStage(c, s, s.labels, i.actor.SignalActor?, i.payload.remark, Told(i)), o.pr, o.sha,
        Through(c, s.calls, n) && ReallyMerged(c, n, o.sha))
  {
    hide ApplyEvent, TrustedAuthor, MergeRelease, NoEdits, StuckFree, Fired, ReallyMerged, Trusted;
    TrustSays(c, s, i);
    TrustCalls(c, s, i);
    var a := TrustedAuthor(c, s, i.actor.SignalActor?, i.payload.remark);
    CalmCounts(s, a.s);
    if a.Ret? {
      ApprovalRow(c, a.s, Told(i));
      var st := ApplyEvent(c, a.s, ReleaseApproved, s.labels, Told(i));
      if st.Ret? {
        MergeSplits(c, st.s, Told(i), o.pr, o.sha, st.v);
        SplitsFrom(c, s, st.s, MergeRelease(c, st.s, s.labels, o.pr, o.sha, Told(i), st.v), o.pr, o.sha, ReallyMerged(c, st.s.calls, o.sha));
      }
    }
  }

  lemma SplitsFrom(c: Ctx, s: Item, u: Item, st: Step<Result>, pr: int, sha: Sha, merged: bool)
    requires NoneFired(s, u) && s.now <= u.now && s.releaseMerged == u.releaseMerged && Splits(c, u, st, pr, sha, merged)
    ensures Splits(c, s, st, pr, sha, merged)
  {
    hide Fired;
  }

  lemma TrustCalls(c: Ctx, s: Item, i: Input)
    requires i.payload.Commented?
    ensures var a := TrustedAuthor(c, s, i.actor.SignalActor?, i.payload.remark);
      var own := c.app && !i.actor.SignalActor?;
      && (a.Ret? <==> !own || !c.world(s.calls).verdict.Throws?) && a.s.calls == s.calls + (if own then 1 else 0)
  {
  }

  lemma ApprovedEvent(c: Ctx, s: Item, i: Input, o: O.Outcome)
    requires Carries(i, o) && o.ReleaseReady?
    ensures Translate(i.payload) == Some(ReleaseApproved) && Plainly(i) && Allowed(c, i, ReleaseApproved)
    ensures OnEvent(c, s, i, ReleaseApproved, s.labels)
      == ReleaseApprovedStage(c, s, s.labels, i.actor.SignalActor?, i.payload.remark, Told(i))
  {
    hide ReleaseApprovedStage, DeriveState;
  }

  lemma ReachedThrough(c: Ctx, s: Item, i: Input)
    ensures Reached(c, s, i, ReleaseApproved) <==> Through(c, s.calls, s.calls + LabelCalls(c))
    ensures Reached(c, s, i, ReleaseApproved) ==> AtEvent(c, s, i, ReleaseApproved).calls == s.calls + LabelCalls(c)
  {
    var b := BotLogin(c, Claimed(s, i));
    assert b.Ret? <==> (c.app ==> !c.world(s.calls).verdict.Throws?);
    if b.Ret? {
      assert Counts(c, b.s, i, ReleaseApproved) == Ret(b.s, true);
      assert GetLabels(c, b.s).Ret? <==> !c.world(s.calls + LabelCalls(c) - 1).verdict.Throws?;
    }
  }

  /** A trusted approval of a release, on an issue in auto-releasing, enforced:
      its delivery records the release as merged and fires release-publish if and
      only if the calls up to its PR's read went through and the PR is merged at
      the reviewed commit, there or found so; in every other case it records and
      fires nothing, and once it returns auto-releasing is off. */
  lemma ApprovalSplits(c: Ctx, s: Item, i: Input, o: O.Outcome)
    requires c.mode && NoEdits(c) && s.labels == {AutoReleasing} && Carries(i, o) && o.ReleaseReady? && Trusted(c, i) && Unhandled(s, i)
    ensures var n := ReadsAt(c, s, i.actor.SignalActor?);
      Splits(c, s, CoordinateWebhook(c, s, i), o.pr, o.sha, Through(c, s.calls, n) && ReallyMerged(c, n, o.sha))
  {
    hide CoordinateWebhook, NoEdits, StuckFree, Unhandled, Fired, Reached, Translate, Allowed, ReallyMerged, Trusted, Splits, Stands, Through,
      Carries, Plainly, OnEvent, AtEvent, ReleaseApprovedStage, Same, Calm;
    ApprovedEvent(c, s, i, o);
    ReachedThrough(c, s, i);
    var n := ReadsAt(c, s, i.actor.SignalActor?);
    GoesThrough(c, s.calls, s.calls + LabelCalls(c), n);
    if Reached(c, s, i, ReleaseApproved) {
      SplitsThere(c, s, i, o);
    } else {
      Delivers(c, s, i, ReleaseApproved);
      ShortStands(c, s, i, ReleaseApproved);
      NeverSplit(c, s, CoordinateWebhook(c, s, i), o.pr, o.sha);
    }
  }

  /** The approval's labels were read. */
  lemma SplitsThere(c: Ctx, s: Item, i: Input, o: O.Outcome)
    requires c.mode && NoEdits(c) && s.labels == {AutoReleasing} && Carries(i, o) && o.ReleaseReady? && Trusted(c, i) && Unhandled(s, i)
    requires Reached(c, s, i, ReleaseApproved)
    ensures var n := ReadsAt(c, s, i.actor.SignalActor?);
      Splits(c, s, CoordinateWebhook(c, s, i), o.pr, o.sha, Through(c, s.calls + LabelCalls(c), n) && ReallyMerged(c, n, o.sha))
  {
    hide OnEvent, CoordinateWebhook, AtEvent, NoEdits, StuckFree, Unhandled, Fired, Reached, Translate, Allowed, ReallyMerged, Trusted,
      Splits, Through, Same, Carries, Plainly, ReleaseApprovedStage, Calm;
    var e := ReleaseApproved;
    ApprovedEvent(c, s, i, o);
    Delivers(c, s, i, e);
    ReachedThrough(c, s, i);
    var u := AtEvent(c, s, i, e);
    ClaimedUnfired(s, i, u);
    SameCounters(s, i, u);
    ApprovedEvent(c, u, i, o);
    ApprovedSplits(c, u, i, o);
    var n := ReadsAt(c, s, i.actor.SignalActor?);
    SplitsSame(c, s, u, OnEvent(c, u, i, e, u.labels), CoordinateWebhook(c, s, i), o.pr, o.sha,
      Through(c, u.calls, n) && ReallyMerged(c, n, o.sha));
  }

  lemma GoesThrough(c: Ctx, from: nat, mid: nat, to: nat)
    requires from <= mid <= to
    ensures Through(c, from, to) <==> Through(c, from, mid) && Through(c, mid, to)
  {
  }

  lemma NeverSplit(c: Ctx, s: Item, st: Step<Result>, pr: int, sha: Sha)
    requires Stands(s, st) && st.Thr?
    ensures Splits(c, s, st, pr, sha, false)
  {
    hide Fired;
  }

  lemma SplitsSame(c: Ctx, s: Item, u: Item, st1: Step<Result>, st: Step<Result>, pr: int, sha: Sha, merged: bool)
    requires NoneFired(s, u) && s.now <= u.now && s.releaseMerged == u.releaseMerged && Same(st1, st)
    requires Splits(c, u, st1, pr, sha, merged)
    ensures Splits(c, s, st, pr, sha, merged)
  {
    hide Fired;
  }

  /** The same for the run's own signal: the record, the fire and the label go
      the way the merge did. */
  lemma SignalSplits(c: Ctx, s: Item, run: Routine, o: O.Outcome)
    requires c.mode && NoEdits(c) && s.labels == {AutoReleasing} && Live(s, run) && o.ReleaseReady?
    requires Unspent(s, run, O.NameOf(o)) && SignalId(run, s.pending.value.firedAt, O.NameOf(o)) !in s.seen
    ensures var st := OnSignal(c, s, Report(run, o, false)); var n := ReadsAt(c, s, true);
      if Through(c, s.calls, n) && ReallyMerged(c, n, o.sha) then
        st.s.releaseMerged == Some(Shipped(o.pr, o.sha)) && FiredOnce(s, st.s, ReleasePublish)
      else
        && st.s.releaseMerged == s.releaseMerged && NoneFired(s, st.s)
        && (st.Ret? ==> st.s.labels == {} && Idle(st.s) && st.s.completed == Some(st.s.now))
  {
    hide CoordinateWebhook, NoEdits, StuckFree, AlreadyApplied, Fired, Unhandled, SignalInput, ReallyMerged, Through;
    var f := s.pending.value;
    SignalCarries(s, f, o);
    NotSpent(s, run, O.NameOf(o));
    ApprovalSplits(c, s, SignalInput(f, o, false), o);
    assert OnSignal(c, s, Report(run, o, false)) == ApplyOutcome(c, s, f, o, false);
  }
}
