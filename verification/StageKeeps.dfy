// The hand-offs between items and the release split keep every kind
// (worker/src/coordinate/stages.ts and release.ts).

module StageKeeps {
  import opened Wrappers
  import opened Graph
  import opened Labels
  import opened Items
  import opened Apply
  import opened Deliveries
  import opened Stages
  import opened Kinds
  import opened Keeps
  import opened GateKeeps

  /** A step with any result that keeps a kind, the labels (where nobody else
      edits them) and the pending fire. */
  ghost predicate Aside<T>(c: Ctx, k: Kind, s: Item, st: Step<T>) {
    && Ready(c, k, st.s)
    && Steady(c, s, st.s)
    && st.s.pending == s.pending
    && (NoFailures(c) ==> st.Ret?)
  }

  lemma KeepForward(c: Ctx, k: Kind, s: Item)
    requires Ready(c, k, s)
    ensures Aside(c, k, s, Forward(c, s))
  {
    hide Ready, Say, NoEdits, StuckFree, NoFailures;
    KeepSay(c, k, s, true, Forwarded);
    SayFrames(c, s, true, Forwarded);
  }

  lemma {:induction false} KeepForwardEach(c: Ctx, k: Kind, s: Item, to: seq<int>)
    requires Ready(c, k, s)
    ensures Aside(c, k, s, ForwardEach(c, s, to))
    decreases |to|
  {
    hide Ready, Forward, NoEdits, StuckFree, NoFailures;
    if to != [] {
      KeepForward(c, k, s);
      if Forward(c, s).Ret? {
        KeepForwardEach(c, k, Forward(c, s).s, to[1..]);
      }
    }
  }

  lemma AsideRead(c: Ctx, k: Kind, s: Item)
    requires Ready(c, k, s)
    ensures Aside(c, k, s, Read(c, s))
  {
    hide Holds, NoEdits, StuckFree, NoFailures;
    ReadGlances(c, s);
    KeepGlanced(c, k, s, Read(c, s).s);
  }

  lemma KeepHandOffs(c: Ctx, k: Kind, s: Item, merged: bool, hasCommit: bool, closes: seq<int>, pr: int)
    requires Ready(c, k, s)
    ensures Aside(c, k, s, HandOffMerged(c, s, merged, hasCommit, closes))
    ensures Aside(c, k, s, HandOffReview(c, s, pr))
  {
    hide Ready, Forward, ForwardEach, NoEdits, StuckFree, NoFailures;
    KeepForwardEach(c, k, s, closes);
    KeepForward(c, k, s);
  }

  lemma KeepHandOffRelease(c: Ctx, k: Kind, s: Item)
    requires Ready(c, k, s)
    ensures Aside(c, k, s, HandOffRelease(c, s))
  {
    hide Ready, Read, ForwardEach, NoEdits, StuckFree, NoFailures;
    AsideRead(c, k, s);
    if Read(c, s).Ret? {
      KeepForwardEach(c, k, Read(c, s).s, Read(c, s).v.numbers);
    }
  }

  lemma AsideComment(c: Ctx, k: Kind, s: Item, io: bool)
    requires Ready(c, k, s) && (k.Dry? ==> !io)
    ensures Aside(c, k, s, Comment(c, s, io))
  {
    hide Ready, Say, NoEdits, StuckFree, NoFailures;
    KeepComment(c, k, s, io);
    SayFrames(c, s, io, CommentWrite(false));
  }

  lemma KeepExport(c: Ctx, k: Kind, s: Item, merged: bool, closes: seq<int>)
    requires Ready(c, k, s)
    ensures Ready(c, k, ExportWorkLog(c, s, merged, closes))
  {
    hide Ready, Read, Comment, NoEdits, StuckFree, NoFailures;
    DryIsShadow(c, k, s);
    AsideRead(c, k, s);
    var s1 := Read(c, s).s;
    AsideComment(c, k, s1, c.Enforced(Merged));
    AsideRead(c, k, s1);
    AsideComment(c, k, Read(c, s1).s, c.Enforced(Merged));
  }

  lemma KeepPrMerged(c: Ctx, k: Kind, s: Item, cl: set<Label>, shipped: Option<Shipped>, told: bool)
    requires Ready(c, k, s) && Reads(k, s, cl) && !k.Counted? && !k.EntryIs?
    ensures KeptOpen(c, k, PrMergedStage(c, s, cl, shipped, told))
  {
    hide Ready, ApplyEvent, Reads, NoFailures, Left, EventOk, Opened;
    OwnEvents(c, k, s, PrMerged, cl);
    KeepSimple(c, k, s, PrMerged, cl, told);
    var st := ApplyEvent(c, s, PrMerged, cl, told);
    if st.Ret? && st.v.Applied? {
      var t := st.s.(shipped := shipped);
      SameLeft(c, st.s, t);
      KeepCounters(c, Opened(k), st.s, t);
    }
  }

  lemma SameLeft(c: Ctx, s: Item, t: Item)
    requires s.ciFix == t.ciFix && s.rounds == t.rounds
    ensures Left(c, s) == Left(c, t) && AddressOf(s) == AddressOf(t)
  {
  }

  lemma KeepReleased(c: Ctx, k: Kind, s: Item, cl: set<Label>, tag: string, told: bool)
    requires Ready(c, k, s) && Reads(k, s, cl) && !k.Counted? && !k.EntryIs?
    ensures KeptOpen(c, k, ReleasedStage(c, s, cl, tag, told))
  {
    hide Ready, Read, ApplyEvent, Reads, NoFailures, DeriveState;
    ReadGlances(c, s);
    var s1 := Read(c, s).s;
    ReadsGlanced(c, k, s, s1, cl);
    assert EventOk(c, k, s1, Event.Released, cl);
    KeepSimple(c, k, s1, Event.Released, cl, told);
  }

  lemma TrustedGlances(c: Ctx, s: Item, signal: bool, m: Remark)
    ensures Glanced(c, s, TrustedAuthor(c, s, signal, m).s)
    ensures NoFailures(c) ==> TrustedAuthor(c, s, signal, m).Ret?
  {
    hide NoEdits, StuckFree, NoFailures;
    BotGlances(c, s);
  }

  // --- the release split ---

  lemma SteadyOn(c: Ctx, s: Item, s1: Item, t: Item, u: Item)
    requires s.labels == s1.labels && t.labels == u.labels && Steady(c, s1, t)
    ensures Steady(c, s, u)
  {
  }

  /** What the first event of the split leaves: the labels as they were, and
      nothing pending. */
  lemma NoopLeaves(c: Ctx, s: Item, e: Event, cl: set<Label>, told: bool)
    requires RuleFor(cl, e).Some? && RuleFor(cl, e).value.to.Noop? && RuleFor(cl, e).value.run.None?
    ensures var st := ApplyEvent(c, s, e, cl, told);
      (st.Ret? ==> st.s.pending.None?) && Steady(c, s, st.s)
  {
    hide RuleFor, NoEdits, StuckFree, NoFailures, Say, Steady, Ready;
    var rule := RuleFor(cl, e).value;
    var s1 := Marked(s, Matched(rule, PendingRun(s)));
    assert WriteOps(c, s1, c.Enforced(rule.on), []) == Ret(s1, ());
    LooseIsReady(c, Disarm(s1));
    KeepLog(c, Loose, Disarm(s1));
    SteadyOn(c, s, Disarm(s1), Log(c, Disarm(s1)).s, ApplyEvent(c, s, e, cl, told).s);
    SayFrames(c, Disarm(s1), true, Row);
  }

  lemma ApprovedRule(cl: set<Label>)
    requires RuleFor(cl, ReleaseApproved).Some?
    ensures RuleFor(cl, ReleaseApproved).value.to.Noop? && RuleFor(cl, ReleaseApproved).value.run.None?
  {
  }

  lemma KeepReleaseRecord(c: Ctx, k: Kind, s: Item, m: Option<Shipped>)
    requires Ready(c, k, s)
    requires k.Released? && m.Some? ==> !Running(s, AutoReleaseLoop)
    ensures Ready(c, k, PutReleaseMerged(s, m))
  {
    hide Tally, Passed, LastEntry;
  }

  lemma KeepRefuse(c: Ctx, k: Kind, s: Item, cl: set<Label>, told: bool, r: Result)
    requires Ready(c, k, s) && Reads(k, s, cl) && !k.Counted? && !k.EntryIs? && Opened(k) == k
    ensures var st := RefuseRelease(c, s, cl, told, r); Ready(c, k, st.s) && (NoFailures(c) ==> st.Ret?)
  {
    hide Ready, ApplyEvent, Comment, Reads, NoFailures;
    assert EventOk(c, k, s, ReleaseBlocked, cl);
    KeepSimple(c, k, s, ReleaseBlocked, cl, told);
    DryIsShadow(c, k, s);
    var st := ApplyEvent(c, s, ReleaseBlocked, cl, told);
    if st.Ret? {
      KeepComment(c, k, st.s, c.Enforced(ReleaseApproved));
    }
  }

  lemma KeepAfterMerge(c: Ctx, k: Kind, s: Item, cl: set<Label>, pr: int, sha: Sha, told: bool)
    requires Ready(c, k, s) && Reads(k, s, cl) && !k.Counted? && !k.EntryIs? && Opened(k) == k
    requires s.pending.None?
    ensures var st := AfterMerge(c, s, cl, pr, sha, told); Ready(c, k, st.s) && (NoFailures(c) ==> st.Ret?)
  {
    hide Ready, ApplyEvent, Comment, NoFailures;
    KeepReleaseRecord(c, k, s, Some(Shipped(pr, sha)));
    var s1 := if c.Enforced(ReleaseApproved) then PutReleaseMerged(s, Some(Shipped(pr, sha))) else s;
    assert Reads(k, s1, cl);
    assert EventOk(c, k, s1, ReleaseMerged, cl);
    KeepSimple(c, k, s1, ReleaseMerged, cl, told);
    DryIsShadow(c, k, s1);
    var st := ApplyEvent(c, s1, ReleaseMerged, cl, told);
    if st.Ret? {
      KeepComment(c, k, st.s, c.Enforced(ReleaseApproved));
    }
  }

  lemma KeepMergeReviewed(c: Ctx, k: Kind, s: Item, sha: Sha)
    requires Ready(c, k, s)
    ensures Aside(c, k, s, MergeReviewed(c, s, sha))
  {
    hide Ready, Read, Say, NoEdits, StuckFree, NoFailures;
    DryIsShadow(c, k, s);
    AsideRead(c, k, s);
    var s1 := Read(c, s).s;
    KeepSay(c, k, s1, c.Enforced(ReleaseApproved), MergeWrite);
    SayFrames(c, s1, c.Enforced(ReleaseApproved), MergeWrite);
    AsideRead(c, k, Say(c, s1, c.Enforced(ReleaseApproved), MergeWrite).s);
  }

  lemma KeepMergeRelease(c: Ctx, k: Kind, s: Item, cl: set<Label>, pr: int, sha: Sha, told: bool, r: Result)
    requires Ready(c, k, s) && Reads(k, s, cl) && !k.Counted? && !k.EntryIs? && Opened(k) == k
    requires s.pending.None?
    ensures var st := MergeRelease(c, s, cl, pr, sha, told, r); Ready(c, k, st.s) && (NoFailures(c) ==> st.Ret?)
  {
    hide Ready, MergeReviewed, AfterMerge, RefuseRelease, NoFailures, NoEdits, StuckFree;
    KeepMergeReviewed(c, k, s, sha);
    var s1 := MergeReviewed(c, s, sha).s;
    ReadsSameLabels(c, k, s, s1, cl);
    KeepAfterMerge(c, k, s1, cl, pr, sha, told);
    KeepRefuse(c, k, s1, cl, told, r);
  }

  lemma ReadsSameLabels(c: Ctx, k: Kind, s: Item, t: Item, cl: set<Label>)
    requires Ready(c, k, s) && Reads(k, s, cl) && Steady(c, s, t)
    ensures Reads(k, t, cl)
  {
    hide Holds, NoEdits, StuckFree;
  }

  lemma ReadsOpened(k: Kind, s: Item, cl: set<Label>)
    requires Reads(k, s, cl)
    ensures Reads(Opened(k), s, cl) && Opened(Opened(k)) == Opened(k)
    ensures k.Counted? || k.EntryIs? || (!Opened(k).Counted? && !Opened(k).EntryIs?)
  {
  }

  /** Where an approval applies, its merge's own event does too. */
  lemma ApprovedThenMerged(cl: set<Label>)
    requires RuleFor(cl, ReleaseApproved).Some?
    ensures RuleFor(cl, ReleaseMerged).Some?
  {
    hide DeriveState;
  }

  lemma MergeApplies(c: Ctx, s: Item, cl: set<Label>, pr: int, sha: Sha, told: bool, r: Result)
    requires RuleFor(cl, ReleaseMerged).Some? && r.Applied?
    ensures var st := MergeRelease(c, s, cl, pr, sha, told, r); st.Ret? ==> st.v.Applied?
  {
    hide MergeReviewed, ApplyEvent, Comment, RuleFor;
    if MergeReviewed(c, s, sha).Ret? {
      var s1 := MergeReviewed(c, s, sha).s;
      var s2 := if c.Enforced(ReleaseApproved) then PutReleaseMerged(s1, Some(Shipped(pr, sha))) else s1;
      AppliedMeans(c, s2, ReleaseMerged, cl, told);
    }
  }

  lemma KeepReleaseApproved(c: Ctx, k: Kind, s: Item, cl: set<Label>, signal: bool, m: Remark, told: bool)
    requires Ready(c, k, s) && Reads(k, s, cl) && !k.Counted? && !k.EntryIs?
    ensures KeptOpen(c, k, ReleaseApprovedStage(c, s, cl, signal, m, told))
  {
    hide Ready, TrustedAuthor, ApplyEvent, MergeRelease, NoFailures, RuleFor, Reads, NoEdits, StuckFree, Opened;
    var e := ReleaseApproved;
    TrustedGlances(c, s, signal, m);
    var s1 := TrustedAuthor(c, s, signal, m).s;
    ReadsGlanced(c, k, s, s1, cl);
    OwnEvents(c, k, s1, e, cl);
    KeepSimple(c, k, s1, e, cl, told);
    var st := ApplyEvent(c, s1, e, cl, told);
    if m.outcome.Some? && m.outcome.value.ReleaseReady? && st.Ret? && st.v.Applied? {
      KeepApproved(c, k, s1, cl, m.outcome.value.pr, m.outcome.value.sha, told);
    }
  }

  /** The Worker's own events, none of them a label's, are fit for any kind. */
  lemma OwnEvents(c: Ctx, k: Kind, s: Item, e: Event, cl: set<Label>)
    requires JustAdded(e).None? && !e.WatchdogExpired? && (k.Handless? ==> !HandOut(e))
    ensures EventOk(c, k, s, e, cl)
  {
    hide RuleFor;
  }

  /** The split once the approval has applied. */
  lemma KeepApproved(c: Ctx, k: Kind, s: Item, cl: set<Label>, pr: int, sha: Sha, told: bool)
    requires Ready(c, k, s) && Reads(k, s, cl) && !k.Counted? && !k.EntryIs?
    requires var st := ApplyEvent(c, s, ReleaseApproved, cl, told);
      st.Ret? && st.v.Applied? && Ready(c, Opened(k), st.s)
    ensures var st := ApplyEvent(c, s, ReleaseApproved, cl, told);
      KeptOpen(c, k, MergeRelease(c, st.s, cl, pr, sha, told, st.v))
  {
    hide Ready, ApplyEvent, MergeRelease, NoFailures, RuleFor, Reads, NoEdits, StuckFree, Opened;
    var e := ReleaseApproved;
    var st := ApplyEvent(c, s, e, cl, told);
    AppliedMeans(c, s, e, cl, told);
    ApprovedRule(cl);
    ApprovedThenMerged(cl);
    NoopLeaves(c, s, e, cl, told);
    ReadsSameLabels(c, k, s, st.s, cl);
    ReadsOpened(k, st.s, cl);
    KeepMergeRelease(c, Opened(k), st.s, cl, pr, sha, told, st.v);
    MergeApplies(c, st.s, cl, pr, sha, told, st.v);
  }

  /** auto-releasing re-added: only a person's label leads here. */
  lemma KeepRetryRelease(c: Ctx, k: Kind, s: Item, cl: set<Label>, told: bool)
    requires Ready(c, k, s) && Reads(k, s, cl) && !k.Counted? && !k.EntryIs?
    requires LabelFree(k) || k.Dry?
    ensures KeptOpen(c, k, RetryReleasePublish(c, s, cl, told))
  {
    hide Ready, ApplyEvent, WriteLabel, NoFailures, Reads;
    var io := AiStuck in cl && c.Enforced(ReleaseMerged);
    DryIsShadow(c, k, s);
    KeepWriteLabel(c, k, s, io, false, AiStuck);
    var w := WriteLabel(c, s, io, false, AiStuck);
    if w.Ret? {
      UnstuckReads(c, k, s, cl);
      OwnEvents(c, k, w.s, ReleaseMerged, cl - {AiStuck});
      KeepSimple(c, k, w.s, ReleaseMerged, cl - {AiStuck}, told);
    }
  }

  lemma UnstuckReads(c: Ctx, k: Kind, s: Item, cl: set<Label>)
    requires Ready(c, k, s) && Reads(k, s, cl) && (LabelFree(k) || k.Dry?)
    ensures var w := WriteLabel(c, s, AiStuck in cl && c.Enforced(ReleaseMerged), false, AiStuck);
      w.Ret? ==> Reads(k, w.s, cl - {AiStuck})
  {
    hide Holds;
  }

  lemma AppliedIsOpen(c: Ctx, k: Kind, st: Step<Result>)
    requires KeptOpen(c, k, st) && st.Ret? && st.v.Applied?
    ensures Ready(c, Opened(k), st.s)
  {
    hide Ready, NoFailures, Opened;
  }

  lemma KeepPublished(c: Ctx, k: Kind, s: Item, cl: set<Label>, signal: bool, m: Remark, told: bool)
    requires Ready(c, k, s) && Reads(k, s, cl) && !k.Counted? && !k.EntryIs?
    ensures KeptOpen(c, k, PublishedStage(c, s, cl, signal, m, told))
  {
    hide Ready, TrustedAuthor, ApplyEvent, HandOffRelease, NoFailures, Reads, NoEdits, StuckFree, Opened, Glanced, EventOk, RuleFor, KeptOpen,
      PutReleaseMerged;
    TrustedGlances(c, s, signal, m);
    var s1 := TrustedAuthor(c, s, signal, m).s;
    ReadsGlanced(c, k, s, s1, cl);
    KeptQuietly(c, k, s1, TrustedAuthor(c, s, signal, m).Ret?);
    OwnEvents(c, k, s1, ReleasePublished, cl);
    KeepSimple(c, k, s1, ReleasePublished, cl, told);
    var st := ApplyEvent(c, s1, ReleasePublished, cl, told);
    if st.Ret? && st.v.Applied? {
      AppliedIsOpen(c, k, st);
      KeepReleaseRecord(c, Opened(k), st.s, None);
      var t := PutReleaseMerged(st.s, None);
      KeepHandOffRelease(c, Opened(k), t);
      var h := HandOffRelease(c, t);
      if h.Ret? {
        KeptApplied(c, k, h.s, st.v);
      } else {
        KeptThrown(c, k, h.s);
      }
    }
  }

  lemma KeepBuilt(c: Ctx, k: Kind, s: Item, cl: set<Label>, signal: bool, m: Remark, told: bool)
    requires Ready(c, k, s) && Reads(k, s, cl) && !k.Counted? && !k.EntryIs?
    ensures KeptOpen(c, k, BuiltStage(c, s, cl, signal, m, told))
  {
    hide Ready, TrustedAuthor, ApplyEvent, HandOffReview, NoFailures, Reads, NoEdits, StuckFree, Opened;
    OwnEvents(c, k, s, BuildSucceeded, cl);
    KeepSimple(c, k, s, BuildSucceeded, cl, told);
    var st := ApplyEvent(c, s, BuildSucceeded, cl, told);
    if st.Ret? && st.v.Applied? && m.outcome.Some? && m.outcome.value.BuildDone? {
      TrustedGlances(c, st.s, signal, m);
      var s2 := TrustedAuthor(c, st.s, signal, m).s;
      KeepGlanced(c, Opened(k), st.s, s2);
      KeepHandOffs(c, Opened(k), s2, false, false, [], m.outcome.value.pr);
    }
  }
}
