// A rework's return address (worker/src/coordinate/webhook.ts,
// merge-gate.ts, review-gate.ts): the PR goes back, on its push, to the label
// it was handed out from.

module Addresses {
  import opened Wrappers
  import opened Graph
  import opened Labels
  import opened Items
  import opened Apply
  import opened Gates
  import opened Deliveries
  import opened Webhook
  import opened Watchdog
  import opened Signals
  import opened Runs
  import opened Kinds
  import opened Keeps
  import opened GateKeeps
  import opened StageKeeps
  import opened WebhookKeeps
  import opened RunKeeps
  import opened Termination

  /** In rework, due back at `home`. */
  predicate DueBack(s: Item, home: Label) {
    s.labels == {AutoReworking} && AddressOf(s) == Some(home)
  }

  /** The label a hand-out is made from. */
  function HomeOf(e: Event): Label {
    if e.MergeGateFailedSoft? then AutoMerging else AiReviewing
  }

  /** What a hand-out's rule goes by: its home alone, or a person's retry. */
  lemma HandOutFrom(cl: set<Label>, e: Event)
    requires HandOut(e) && RuleFor(cl, e).Some?
    ensures RuleFor(cl, e).value == Rule(At(HomeOf(e)), e, ToLabel(AutoReworking), Some(ReworkLoop))
    ensures cl == {HomeOf(e)} || (e.MergeGateFailedSoft? && cl == {AutoMerging, MergeBlocked})
  {
    hide Decide, DeriveState;
    RuleForNames(cl, e);
    HandOutHomes(RuleFor(cl, e).value.from, e);
    ReadingMeans(cl);
  }

  lemma HandOutHomes(s: State, e: Event)
    requires Decide(s, e).Some? && HandOut(e)
    ensures s == At(HomeOf(e)) && Decide(s, e).value == Rule(s, e, ToLabel(AutoReworking), Some(ReworkLoop))
  {
  }

  lemma SwapOps(labels: set<Label>, cl: set<Label>, rule: Rule, home: Label)
    requires home in cl && home != AutoReworking && AutoReworking !in cl
    requires rule.from == At(home) && rule.to == ToLabel(AutoReworking)
    ensures DoAll(labels, LabelOps(cl, rule)) == labels - {home} + {AutoReworking}
  {
    var ops := LabelOps(cl, rule);
    assert ops == [RemoveOp(home), AddOp(AutoReworking)];
    assert ops[1..] == [AddOp(AutoReworking)] && ops[1..][1..] == [];
    var rest := Do(labels, ops[0]);
    assert DoAll(rest, ops[1..]) == DoAll(Do(rest, ops[1]), []);
  }

  /** An applied hand-out swaps its home for auto-reworking, and touches no
      counter. */
  lemma SwappedOut(c: Ctx, s: Item, e: Event, cl: set<Label>, told: bool)
    requires c.mode && NoEdits(c) && HandOut(e)
    ensures var st := ApplyEvent(c, s, e, cl, told);
      st.Ret? && st.v.Applied? ==>
        && st.s.labels == s.labels - {HomeOf(e)} + {AutoReworking} && Framed(s, st.s) && st.v.rule.on == e
        && (cl == {HomeOf(e)} || (e.MergeGateFailedSoft? && cl == {AutoMerging, MergeBlocked}))
  {
    hide RuleCalls, RuleFor, NoEdits, StuckFree, Framed, LabelOps, DoAll, PassesThrough;
    AppliedMeans(c, s, e, cl, told);
    ApplyFrames(c, s, e, cl, told);
    if RuleFor(cl, e).Some? {
      var rule := RuleFor(cl, e).value;
      HandOutFrom(cl, e);
      var s1 := Marked(s, Matched(rule, PendingRun(s)));
      RuleCallsLabels(c, s1, rule, cl, told);
      SwapOps(s.labels, cl, rule, HomeOf(e));
    }
  }

  lemma SaidLabels(c: Ctx, s: Item, io: bool)
    requires NoEdits(c)
    ensures var t := Comment(c, s, io).s; t.labels == s.labels && t.ciFix == s.ciFix && t.rounds == s.rounds
  {
  }

  // --- the hand-outs an item's history records ---

  /** A hand-out has applied since `s`. */
  predicate Out(s: Item, t: Item) {
    Tally(t.trace, HandOuts) > Tally(s.trace, HandOuts)
  }

  /** The last one that has, and how many calls had been made by then. */
  predicate OutBy(t: Item, e: Event, at: nat) {
    LastOut(t.trace) == Some(AppliedMark(e, at))
  }

  /** None has since `s`. */
  predicate Onward(s: Item, t: Item) {
    Tally(t.trace, HandOuts) == Tally(s.trace, HandOuts) && LastOut(t.trace) == LastOut(s.trace)
  }

  function NoOutSince(s: Item): Kind {
    Handless(Tally(s.trace, HandOuts), LastOut(s.trace))
  }

  lemma NoOutYet(c: Ctx, s: Item)
    ensures Ready(c, NoOutSince(s), s)
    ensures forall cl, t :: Reads(NoOutSince(s), t, cl)
  {
    hide Tally, LastOut, NoEdits, StuckFree, NoFailures;
  }

  lemma NoOutSays(c: Ctx, s: Item, t: Item)
    requires Ready(c, NoOutSince(s), t)
    ensures Onward(s, t)
  {
    hide Tally, LastOut, NoEdits, StuckFree, NoFailures;
  }

  lemma KeptOnward(c: Ctx, s: Item, st: Step<Result>)
    requires KeptOpen(c, NoOutSince(s), st)
    ensures Onward(s, st.s)
  {
    hide Ready, NoFailures, Onward;
    NoOutSays(c, s, st.s);
  }

  lemma SaidOnward(c: Ctx, s: Item, io: bool)
    ensures Onward(s, Comment(c, s, io).s)
  {
    hide Ready, Say, Steady, Onward, NoFailures;
    NoOutYet(c, s);
    KeepComment(c, NoOutSince(s), s, io);
    NoOutSays(c, s, Comment(c, s, io).s);
  }

  lemma WrittenOnward(c: Ctx, s: Item, io: bool)
    ensures Onward(s, WriteLabel(c, s, io, false, MergeBlocked).s)
  {
    hide Ready, WriteLabel, Onward, NoFailures;
    NoOutYet(c, s);
    KeepWriteLabel(c, NoOutSince(s), s, io, false, MergeBlocked);
    NoOutSays(c, s, WriteLabel(c, s, io, false, MergeBlocked).s);
  }

  /** A hand-out's event records one exactly if it returns, applied. */
  lemma OutEvent(c: Ctx, s: Item, e: Event, cl: set<Label>, told: bool)
    requires HandOut(e)
    ensures var st := ApplyEvent(c, s, e, cl, told);
      if st.Ret? && st.v.Applied? then Out(s, st.s) && OutBy(st.s, e, st.s.calls) else !Out(s, st.s)
  {
    hide RuleCalls, RuleFor, Say, Tally, Framed, Ready, NoFailures, Steady, NotApplied;
    AppliedMeans(c, s, e, cl, told);
    if RuleFor(cl, e).Some? {
      var rule := RuleFor(cl, e).value;
      RuleForNames(cl, e);
      RuleCounts(c, s, rule, cl, told);
      var r := RuleCalls(c, Marked(s, Matched(rule, PendingRun(s))), rule, cl, told).s;
      LastOutIs(r.trace, AppliedMark(e, r.calls));
    } else {
      NoOutYet(c, s);
      KeepLog(c, NoOutSince(s), s);
      NoOutSays(c, s, Log(c, s).s);
    }
  }

  /** merge-blocked's own removal, the call after the hand-out of a person's
      retry, threw: the count was not written. */
  predicate RemovalThrew(c: Ctx, cl: set<Label>, at: nat) {
    MergeBlocked in cl && c.world(at).verdict.Throws?
  }

  lemma ThrewAt(c: Ctx, s: Item, io: bool)
    ensures var w := WriteLabel(c, s, io, false, MergeBlocked); w.Thr? ==> io && c.world(s.calls).verdict.Throws?
  {
  }

  /** A rework the merge gate hands out is due back at auto-merging, whatever
      was pending before, from a person's retry too, and whatever throws after
      its label calls. */
  lemma MergeGateAddresses(c: Ctx, s: Item, cl: set<Label>, told: bool)
    requires c.mode && NoEdits(c) && cl == s.labels
    ensures var st := HandToRework(c, s, cl, told);
      && (Out(s, st.s) ==>
          AutoMerging in cl
          && exists at :: OutBy(st.s, MergeGateFailedSoft, at) && (RemovalThrew(c, cl, at) || DueBack(st.s, AutoMerging)))
      && (st.Ret? && st.v.Applied? && HandOut(st.v.rule.on) ==> Out(s, st.s) && DueBack(st.s, AutoMerging))
  {
    hide ApplyEvent, Say, NoEdits, StuckFree, WriteLabel, RuleFor, Framed, AddressOf, BlockMerge, Out, Onward, OutBy;
    var e := MergeGateFailedSoft;
    if Attempts(s) >= c.caps.ciFixAttempts {
      BlockOnward(c, s, cl, MergeGateFailedHard, told);
    } else {
      SwappedOut(c, s, e, cl, told);
      OutEvent(c, s, e, cl, told);
      var st := ApplyEvent(c, s, e, cl, told);
      if st.Ret? && st.v.Applied? {
        var io := MergeBlocked in cl && c.Enforced(e);
        BlockTaken(c, st.s, io);
        LoneSwap(cl);
        ThrewAt(c, st.s, io);
        WrittenOnward(c, st.s, io);
        var w := WriteLabel(c, st.s, io, false, MergeBlocked);
        OutStays(s, st.s, w.s, e, st.s.calls);
        var t := PutCiFix(w.s, Some(CiFix(Attempts(s) + 1, true, false)));
        SaidLabels(c, t, c.Enforced(e));
        SaidOnward(c, t, c.Enforced(e));
        OutStays(s, w.s, t, e, st.s.calls) by {
          SameOnward(w.s, t);
        }
        OutStays(s, t, Comment(c, t, c.Enforced(e)).s, e, st.s.calls);
        FixAddress(t, Comment(c, t, c.Enforced(e)).s);
      }
    }
  }

  lemma SameOnward(s: Item, t: Item)
    requires s.trace == t.trace
    ensures Onward(s, t)
  {
  }

  lemma OutStays(s: Item, t: Item, u: Item, e: Event, at: nat)
    requires Out(s, t) && OutBy(t, e, at) && Onward(t, u)
    ensures Out(s, u) && OutBy(u, e, at)
  {
    hide Tally, LastOut;
  }

  lemma BlockOnward(c: Ctx, s: Item, cl: set<Label>, e: Event, told: bool)
    requires Simple(e) && JustAdded(e).None?
    ensures var st := BlockMerge(c, s, cl, e, told);
      !Out(s, st.s) && (st.Ret? && st.v.Applied? ==> !HandOut(st.v.rule.on))
  {
    hide ApplyEvent, Say, Ready, KeptOpen, RuleFor, EventOk, Reads;
    NoOutYet(c, s);
    OwnEvents(c, NoOutSince(s), s, e, cl);
    KeepBlockMerge(c, NoOutSince(s), s, cl, e, told);
    KeptOnward(c, s, BlockMerge(c, s, cl, e, told));
    EventNames(c, s, e, cl, told);
  }

  lemma CapOnward(c: Ctx, s: Item, cl: set<Label>, told: bool)
    ensures var st := CapRework(c, s, cl, told);
      !Out(s, st.s) && (st.Ret? && st.v.Applied? ==> !HandOut(st.v.rule.on))
  {
    hide ApplyEvent, Say, Ready, KeptOpen, RuleFor, Reads;
    NoOutYet(c, s);
    KeepCapRework(c, NoOutSince(s), s, cl, told);
    KeptOnward(c, s, CapRework(c, s, cl, told));
    EventNames(c, s, ReworkCapReached, cl, told);
  }

  lemma EventNames(c: Ctx, s: Item, e: Event, cl: set<Label>, told: bool)
    ensures var st := ApplyEvent(c, s, e, cl, told);
      st.Ret? && st.v.Applied? ==> st.v.rule.on == e && RuleFor(cl, e).Some?
  {
    hide ApplyEvent, RuleFor;
    AppliedMeans(c, s, e, cl, told);
    if RuleFor(cl, e).Some? {
      RuleForNames(cl, e);
    }
  }

  lemma LoneSwap(cl: set<Label>)
    ensures cl == {AutoMerging} ==> cl - {AutoMerging} + {AutoReworking} == {AutoReworking} && MergeBlocked !in cl
    ensures cl == {AutoMerging, MergeBlocked} ==>
      cl - {AutoMerging} + {AutoReworking} - {MergeBlocked} == {AutoReworking} && MergeBlocked in cl
    ensures cl == {AiReviewing} ==> cl - {AiReviewing} + {AutoReworking} == {AutoReworking}
  {
  }

  lemma FixAddress(t: Item, u: Item)
    requires t.ciFix == u.ciFix && CiFixPending(t)
    ensures AddressOf(u) == Some(if t.ciFix.value.toReview then AiReviewing else AutoMerging)
  {
  }

  lemma BlockTaken(c: Ctx, s: Item, io: bool)
    requires NoEdits(c)
    ensures var w := WriteLabel(c, s, io, false, MergeBlocked);
      w.Ret? ==> w.s.labels == if io then s.labels - {MergeBlocked} else s.labels
  {
  }

  /** One the review's CI gate hands out is due back at ai-reviewing, exactly
      if no other label is on. */
  lemma ReviewCiAddresses(c: Ctx, s: Item, cl: set<Label>, told: bool)
    requires c.mode && NoEdits(c)
    ensures var st := HandReviewToRework(c, s, cl, told);
      && (Out(s, st.s) ==>
          && (exists at :: OutBy(st.s, ReviewCiFailed, at)) && cl == {AiReviewing}
          && (DueBack(st.s, AiReviewing) <==> s.labels <= {AiReviewing, AutoReworking}))
      && (st.Ret? && st.v.Applied? && HandOut(st.v.rule.on) ==> Out(s, st.s))
  {
    hide ApplyEvent, Say, NoEdits, StuckFree, RuleFor, AddressOf, Framed, CapRework, Out, Onward, OutBy;
    var e := ReviewCiFailed;
    if Attempts(s) >= c.caps.ciFixAttempts {
      CapOnward(c, s, cl, told);
    } else {
      SwappedOut(c, s, e, cl, told);
      OutEvent(c, s, e, cl, told);
      var st := ApplyEvent(c, s, e, cl, told);
      if st.Ret? && st.v.Applied? {
        var t := PutCiFix(st.s, Some(CiFix(Attempts(s) + 1, true, true)));
        SaidLabels(c, t, c.Enforced(e));
        SaidOnward(c, t, c.Enforced(e));
        SameOnward(st.s, t);
        OutStays(s, st.s, t, e, st.s.calls);
        OutStays(s, t, Comment(c, t, c.Enforced(e)).s, e, st.s.calls);
        FixAddress(t, Comment(c, t, c.Enforced(e)).s);
        OnlyHome(s.labels);
      }
    }
  }

  lemma OnlyHome(labels: set<Label>)
    ensures labels - {AiReviewing} + {AutoReworking} == {AutoReworking} <==> labels <= {AiReviewing, AutoReworking}
  {
    if labels - {AiReviewing} + {AutoReworking} == {AutoReworking} {
      forall l | l in labels
        ensures l in {AiReviewing, AutoReworking}
      {
        assert l != AiReviewing ==> l in labels - {AiReviewing} + {AutoReworking};
      }
    }
  }

  /** A merge gate's fix is still pending: it would be found before the
      review's own. */
  predicate MergeFixPending(s: Item) {
    CiFixPending(s) && !s.ciFix.value.toReview
  }

  /** And one the review's findings hand out, exactly if no merge gate's fix is
      still pending. */
  lemma FindingsAddress(c: Ctx, s: Item, cl: set<Label>, told: bool)
    requires c.mode && NoEdits(c) && cl == s.labels
    ensures var st := TakeFindings(c, s, cl, told);
      && (Out(s, st.s) ==>
          (exists at :: OutBy(st.s, ReviewFindings, at)) && (DueBack(st.s, AiReviewing) <==> !MergeFixPending(s)))
      && (st.Ret? && st.v.Applied? && HandOut(st.v.rule.on) ==> Out(s, st.s))
  {
    hide ApplyEvent, Say, NoEdits, StuckFree, RuleFor, AddressOf, Framed, CapRework, Out, Onward, OutBy;
    var e := ReviewFindings;
    if BotRounds(s) + 1 > c.caps.botReviewReworks {
      CapOnward(c, s, cl, told);
    } else {
      SwappedOut(c, s, e, cl, told);
      OutEvent(c, s, e, cl, told);
      var st := ApplyEvent(c, s, e, cl, told);
      if st.Ret? && st.v.Applied? {
        LoneSwap(cl);
        var t := PutRounds(st.s, Some(Rounds(BotRounds(s) + 1, true)));
        SaidLabels(c, t, c.Enforced(e));
        SaidOnward(c, t, c.Enforced(e));
        SameOnward(st.s, t);
        OutStays(s, st.s, t, e, st.s.calls);
        OutStays(s, t, Comment(c, t, c.Enforced(e)).s, e, st.s.calls);
        RoundAddress(s, st.s, Comment(c, t, c.Enforced(e)).s);
      }
    }
  }

  lemma RoundAddress(s: Item, t: Item, u: Item)
    requires Framed(s, t) && u.ciFix == t.ciFix && FixPending(u)
    ensures AddressOf(u) == Some(AiReviewing) <==> !MergeFixPending(s)
  {
  }

  /** Two items whose labels and return address are the same. */
  predicate SamePlace(s: Item, t: Item) {
    s.labels == t.labels && s.ciFix == t.ciFix && s.rounds == t.rounds
  }

  lemma DueBackSame(s: Item, t: Item, home: Label)
    requires SamePlace(s, t)
    ensures DueBack(s, home) <==> DueBack(t, home)
  {
  }

  // --- what a shadow expiry leaves alone ---

  /** An act in which the expiry is all that may match, and only in shadow: it
      is logged, and writes nothing. */
  predicate ShadowExpiry(c: Ctx, a: Act) {
    !c.Enforced(WatchdogExpired) && (a.AlarmRun? || (a.SignalIn? && a.signal.EndedEarly?))
  }

  lemma SaidPlace(c: Ctx, s: Item, io: bool, m: Mark)
    requires NoEdits(c)
    ensures SamePlace(s, Say(c, s, io, m).s)
  {
  }

  lemma GlancedPlace(c: Ctx, s: Item, t: Item)
    requires NoEdits(c) && Glanced(c, s, t)
    ensures SamePlace(s, t)
  {
  }

  lemma FramedPlace(s: Item, t: Item)
    requires Framed(s, t) && s.labels == t.labels
    ensures SamePlace(s, t)
  {
  }

  lemma ExpiryPlace(c: Ctx, s: Item, cl: set<Label>)
    requires NoEdits(c) && !c.Enforced(WatchdogExpired)
    ensures SamePlace(s, ApplyEvent(c, s, WatchdogExpired, cl, false).s)
  {
    hide RuleCalls, RuleFor, NoEdits, StuckFree, Say, LabelOps, DoAll, PassesThrough, NotApplied, Framed;
    SaidPlace(c, s, true, Row);
    if RuleFor(cl, WatchdogExpired).Some? {
      var rule := RuleFor(cl, WatchdogExpired).value;
      var s1 := Marked(s, Matched(rule, PendingRun(s)));
      RuleForNames(cl, WatchdogExpired);
      RuleCallsLabels(c, s1, rule, cl, false);
      RuleCallsFrame(c, s1, rule, cl, false);
      FramedPlace(s1, RuleCalls(c, s1, rule, cl, false).s);
    }
  }

  lemma ExpirePlace(c: Ctx, s: Item, f: Fire)
    requires NoEdits(c) && !c.Enforced(WatchdogExpired)
    ensures SamePlace(s, Expire(c, s, f).s)
  {
    hide ApplyEvent, NoEdits, StuckFree, DeriveState, GetLabels;
    LabelsGlance(c, s);
    var g := GetLabels(c, s);
    GlancedPlace(c, s, g.s);
    if g.Ret? {
      ExpiryPlace(c, g.s, g.v);
    }
  }

  lemma FiredPlace(c: Ctx, s: Item, run: Routine, retried: bool)
    requires NoEdits(c)
    ensures SamePlace(s, FireWatched(c, s, true, run, retried, true).s)
    ensures SamePlace(s, FireUnwatched(c, s, true, run, true).s)
  {
    hide FireWatched, FireUnwatched, Framed, StuckFree;
    WatchedFrames(c, s, true, run, retried, true);
    UnwatchedFrames(c, s, true, run, true);
    KeepFireWatched(c, Loose, s, true, run, retried, true);
    KeepFireUnwatched(c, Loose, s, true, run, true);
    FramedPlace(s, FireWatched(c, s, true, run, retried, true).s);
    FramedPlace(s, FireUnwatched(c, s, true, run, true).s);
  }

  lemma DeferredPlace(c: Ctx, s: Item, f: Fire)
    requires NoEdits(c)
    ensures SamePlace(s, SendDeferred(c, s, f).s)
  {
    hide GetLabels, Say, FireWatched, FireUnwatched, StillWanted, DeriveState, NoEdits, StuckFree;
    LabelsGlance(c, s);
    var s1 := GetLabels(c, s).s;
    GlancedPlace(c, s, s1);
    SaidPlace(c, s1, true, Row);
    SaidPlace(c, Log(c, s1).s, true, CommentWrite(false));
    FiredPlace(c, s1, f.run, f.retried);
    var sent := if f.unwatched then FireUnwatched(c, s1, true, f.run, true)
                else FireWatched(c, s1, true, f.run, f.retried, true);
    SaidPlace(c, sent.s, true, Row);
    SaidPlace(c, Log(c, sent.s).s, true, CommentWrite(false));
  }

  /** A shadow expiry leaves the PR where it is, and due back where it was. */
  lemma ShadowExpiryStands(c: Ctx, s: Item, a: Act)
    requires NoEdits(c) && ShadowExpiry(c, a)
    ensures SamePlace(s, Handle(c, s, a))
  {
    hide Expire, SendDeferred, Early, NoEdits, StuckFree;
    if s.pending.Some? {
      ExpirePlace(c, s, s.pending.value);
      DeferredPlace(c, s, s.pending.value);
    }
  }

  /** No rule matches, but for a shadow expiry's. */
  predicate Rests(c: Ctx, s: Item, acts: seq<Act>)
    decreases |acts|
  {
    acts == [] ||
      var t := Handle(c, s, acts[0]);
      (ShadowExpiry(c, acts[0]) || Tally(t.trace, Matches) <= Tally(s.trace, Matches)) && Rests(c, t, acts[1..])
  }

  /** The address stands through heartbeats, check suites, comments, duplicates,
      sweep re-fires and shadow expiries, for as long as no other rule matches. */
  lemma {:induction false} AddressStands(c: Ctx, s: Item, home: Label, acts: seq<Act>)
    requires NoEdits(c) && OwnRun(acts) && DueBack(s, home) && Rests(c, s, acts)
    ensures DueBack(Run(c, s, acts), home)
    decreases |acts|
  {
    hide Handle, ShadowExpiry, DueBack, Tally, NoEdits, StuckFree;
    if acts != [] {
      var t := Handle(c, s, acts[0]);
      if ShadowExpiry(c, acts[0]) {
        ShadowExpiryStands(c, s, acts[0]);
        DueBackSame(s, t, home);
      } else {
        UnmatchedStands(c, s, home, acts[0]);
      }
      AddressStands(c, t, home, acts[1..]);
    }
  }

  lemma UnmatchedStands(c: Ctx, s: Item, home: Label, a: Act)
    requires NoEdits(c) && OwnRun([a]) && DueBack(s, home)
    requires Tally(Handle(c, s, a).trace, Matches) <= Tally(s.trace, Matches)
    ensures DueBack(Handle(c, s, a), home)
  {
    hide Handle, ActFits, Tally, NoEdits, StuckFree, AddressOf;
    var k := Address(Tally(s.trace, Matches), home);
    AddressActsFit(k, [a]);
    assert a in [a];
    KeepHandle(c, k, s, a);
    AddressSays(c, k, Handle(c, s, a));
  }

  /** A whole run in which no rule matches at all is one of these. */
  lemma {:induction false} UnmatchedRests(c: Ctx, s: Item, acts: seq<Act>)
    requires Tally(Run(c, s, acts).trace, Matches) <= Tally(s.trace, Matches)
    ensures Rests(c, s, acts)
    decreases |acts|
  {
    hide Handle, Tally, ShadowExpiry;
    if acts != [] {
      var t := Handle(c, s, acts[0]);
      MatchesStay(c, s, [acts[0]], Tally(s.trace, Matches));
      assert Run(c, s, [acts[0]]) == t by {
        assert [acts[0]][1..] == [];
        assert Run(c, t, []) == t;
      }
      MatchesStay(c, t, acts[1..], Tally(t.trace, Matches));
      UnmatchedRests(c, t, acts[1..]);
    }
  }

  /** The history only grows. */
  lemma MatchesStay(c: Ctx, s: Item, acts: seq<Act>, n: nat)
    requires n <= Tally(s.trace, Matches)
    ensures n <= Tally(Run(c, s, acts).trace, Matches)
  {
    hide Run, Tally;
    if n > 0 {
      var k := Ever(Matches, n - 1);
      forall a | a in acts
        ensures ActFits(k, a)
      {
      }
      KeepRun(c, k, s, acts);
    }
  }

  lemma AddressActsFit(k: Kind, acts: seq<Act>)
    requires k.Address? && OwnRun(acts)
    ensures forall a | a in acts :: ActFits(k, a)
  {
  }

  /** The event a push is, for a PR due back at `home`. */
  lemma PushEvent(s: Item, home: Label)
    requires DueBack(s, home)
    ensures var p := EndRework(s, ReworkPushed, s.labels);
      && p.s.labels == s.labels && p.s.calls == s.calls
      && p.e == (if home == AutoMerging then CiFixPushed else ReviewFixPushed)
      && (home == AutoMerging || home == AiReviewing)
  {
    ReadingMeans({AutoReworking});
  }

  lemma PushRule(home: Label)
    requires home == AutoMerging || home == AiReviewing
    ensures var e := if home == AutoMerging then CiFixPushed else ReviewFixPushed;
      RuleFor({AutoReworking}, e).Some? && RuleFor({AutoReworking}, e).value.from == At(AutoReworking)
      && RuleFor({AutoReworking}, e).value.to == ToLabel(home)
  {
    hide DeriveState, Decide;
    ReadingMeans({AutoReworking});
    DecisionsInRework();
  }

  /** The label calls all went through. */
  lemma SwapLands(c: Ctx, s: Item, rule: Rule, home: Label)
    requires NoEdits(c) && s.labels == {AutoReworking} && home != AutoReworking
    requires rule.from == At(AutoReworking) && rule.to == ToLabel(home)
    requires forall n | s.calls <= n < s.calls + 2 :: !c.world(n).verdict.Throws?
    ensures var st := WriteOps(c, s, true, LabelOps(s.labels, rule));
      st.Ret? && st.s.labels == {home}
  {
    var ops := LabelOps(s.labels, rule);
    assert ops == [RemoveOp(AutoReworking), AddOp(home)];
    var a := WriteLabel(c, s, true, false, AutoReworking);
    assert a.Ret? && a.s.labels == {} && a.s.calls == s.calls + 1;
    var b := WriteLabel(c, a.s, true, true, home);
    assert b.Ret? && b.s.labels == {home};
    assert ops[1..] == [AddOp(home)] && ops[1..][1..] == [];
    assert WriteOps(c, b.s, true, []) == Ret(b.s, ());
    assert WriteOps(c, a.s, true, ops[1..]) == WriteOps(c, b.s, true, ops[1..][1..]);
  }

  /** So the rule's labels are on, whatever becomes of its fire and its row. */
  lemma RuleLands(c: Ctx, s: Item, rule: Rule, cl: set<Label>, told: bool, home: Label)
    requires NoEdits(c) && c.Enforced(rule.on)
    requires var w := WriteOps(c, s, true, LabelOps(cl, rule)); w.Ret? && w.s.labels == {home}
    ensures RuleCalls(c, s, rule, cl, told).s.labels == {home}
  {
    hide WriteOps, FireOrClear, Log, LabelOps, NoEdits, StuckFree;
    var w := WriteOps(c, s, true, LabelOps(cl, rule)).s;
    FireLabels(c, w, true, rule, told);
    LogLabels(c, FireOrClear(c, w, true, rule, told).s);
  }

  lemma EventLands(c: Ctx, s: Item, e: Event, told: bool, home: Label)
    requires c.mode && NoEdits(c) && s.labels == {AutoReworking} && !e.WatchdogExpired?
    requires RuleFor(s.labels, e).Some? && RuleFor(s.labels, e).value.from == At(AutoReworking)
    requires RuleFor(s.labels, e).value.to == ToLabel(home) && home != AutoReworking
    requires forall n | s.calls <= n < s.calls + 2 :: !c.world(n).verdict.Throws?
    ensures ApplyEvent(c, s, e, s.labels, told).s.labels == {home}
  {
    hide RuleCalls, RuleFor, NoEdits, StuckFree, WriteOps, LabelOps;
    var rule := RuleFor(s.labels, e).value;
    RuleForNames(s.labels, e);
    var s1 := Marked(s, Matched(rule, PendingRun(s)));
    SwapLands(c, s1, rule, home);
    RuleLands(c, s1, rule, s.labels, told, home);
  }

  /** What a push's step comes to: returned, it has applied and the PR carries
      its return address alone; and its first `n` calls through, so it does
      however it ends. */
  ghost predicate Comes(c: Ctx, s: Item, st: Step<Result>, n: nat, home: Label) {
    && (st.Ret? ==> st.v.Applied? && st.s.labels == {home})
    && ((forall k | s.calls <= k < s.calls + n :: !c.world(k).verdict.Throws?) ==> st.s.labels == {home})
  }

  lemma PlainReturns(c: Ctx, s: Item, i: Input, e: Event, later: Later, home: Label)
    requires c.mode && NoEdits(c) && s.labels == {AutoReworking} && !e.WatchdogExpired? && home != AutoReworking
    requires RuleFor(s.labels, e).Some? && RuleFor(s.labels, e).value.from == At(AutoReworking)
    requires RuleFor(s.labels, e).value.to == ToLabel(home)
    ensures Comes(c, s, Plain(c, s, i, e, s.labels, later, false), 2, home)
  {
    hide ApplyEvent, RuleFor, NoEdits, StuckFree, DeriveState, NoteOverride, ClearLater;
    AppliedLabels(c, s, e, s.labels, Told(i));
    AppliedMeans(c, s, e, s.labels, Told(i));
    ClearedLabels(ApplyEvent(c, s, e, s.labels, Told(i)).s, later);
    assert {AutoReworking} - {AutoReworking} + {home} == {home};
    if forall n | s.calls <= n < s.calls + 2 :: !c.world(n).verdict.Throws? {
      EventLands(c, s, e, Told(i), home);
    }
  }

  lemma ClearedLabels(s: Item, later: Later)
    ensures ClearLater(s, later).labels == s.labels
  {
  }

  /** How many calls a push's delivery makes up to its second label write. */
  function PushCalls(c: Ctx): nat {
    if c.app then 4 else 3
  }

  lemma ReadReturns(c: Ctx, s: Item, i: Input, home: Label)
    requires c.mode && NoEdits(c) && DueBack(s, home) && i.payload.Pushed?
    ensures Comes(c, s, TakeEvent(c, s, i, ReworkPushed), 3, home)
  {
    hide OnEvent, NoEdits, StuckFree, AddressOf;
    LabelsGlance(c, s);
    var g := GetLabels(c, s);
    GlancedAddress(c, s, g.s);
    if g.Ret? {
      EventReturns(c, g.s, i, home);
    }
  }

  lemma ProcessReturns(c: Ctx, s: Item, i: Input, home: Label)
    requires c.mode && NoEdits(c) && DueBack(s, home) && i.payload.Pushed?
    ensures Comes(c, s, ProcessEvent(c, s, i), PushCalls(c), home)
  {
    hide TakeEvent, NoEdits, StuckFree, AddressOf;
    BotGlances(c, s);
    var s1 := BotLogin(c, s).s;
    GlancedAddress(c, s, s1);
    ReadReturns(c, s1, i, home);
  }

  /** Its next push takes the PR there. Once its labels have been read and
      written the PR carries its return address alone, even if the fire or the
      row after them fails; and if the push's delivery returns, it has applied. */
  lemma PushReturns(c: Ctx, s: Item, i: Input, home: Label)
    requires c.mode && NoEdits(c) && DueBack(s, home)
    requires i.payload.Pushed? && (i.id == NoId || i.id !in s.seen)
    ensures Comes(c, s, CoordinateWebhook(c, s, i), PushCalls(c), home)
  {
    hide ProcessEvent, NoEdits, StuckFree, AddressOf;
    var s0 := if i.id == NoId then s else s.(seen := s.seen + {i.id});
    SameAddress(s, s0);
    ProcessReturns(c, s0, i, home);
  }

  lemma SameAddress(s: Item, t: Item)
    requires s.ciFix == t.ciFix && s.rounds == t.rounds
    ensures AddressOf(s) == AddressOf(t)
  {
  }

  lemma GlancedAddress(c: Ctx, s: Item, t: Item)
    requires Glanced(c, s, t) && NoEdits(c)
    ensures s.labels == t.labels && AddressOf(s) == AddressOf(t)
  {
  }

  lemma EventReturns(c: Ctx, s: Item, i: Input, home: Label)
    requires c.mode && NoEdits(c) && DueBack(s, home) && i.payload.Pushed?
    ensures Comes(c, s, OnEvent(c, s, i, ReworkPushed, s.labels), 2, home)
  {
    hide Plain, EndRework, DueBack, DeriveState, RuleFor, NoEdits, StuckFree;
    PushEvent(s, home);
    PushRule(home);
    DueBackSays(s, home);
    var p := EndRework(s, ReworkPushed, s.labels);
    PlainReturns(c, p.s, i, p.e, p.later, home);
  }

  lemma DueBackSays(s: Item, home: Label)
    requires DueBack(s, home)
    ensures s.labels == {AutoReworking}
  {
  }
}
