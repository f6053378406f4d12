// The gates keep every kind (worker/src/coordinate/merge-gate.ts and
// review-gate.ts): a hand-out to rework-loop is paid for by its counter.

module GateKeeps {
  import opened Wrappers
  import opened Graph
  import opened Labels
  import opened Items
  import opened Apply
  import opened Gates
  import opened Kinds
  import opened Keeps

  /** Two items that differ in their counters and records at most. */
  predicate SameButCounters(s: Item, t: Item) {
    t == s.(ciFix := t.ciFix, rounds := t.rounds, reviewReworks := t.reviewReworks, mergeFiredFor := t.mergeFiredFor,
            shipped := t.shipped, reported := t.reported, completed := t.completed)
  }

  lemma KeepCounters(c: Ctx, k: Kind, s: Item, t: Item)
    requires Ready(c, k, s) && SameButCounters(s, t)
    requires k.Address? ==> AddressOf(t) == AddressOf(s)
    requires k.Budget? ==> Left(c, t) <= Left(c, s)
    ensures Ready(c, k, t)
  {
    hide Tally, Passed, LastEntry;
  }

  /** reworkExpired taken back: only ever safe. */
  lemma KeepUnexpired(c: Ctx, k: Kind, s: Item)
    requires Ready(c, k, s)
    ensures Ready(c, k, PutExpired(s, false))
    ensures k.StuckOwed? ==> Ready(c, StuckBy, PutExpired(s, false))
  {
    hide Tally, Passed, LastEntry;
  }

  /** Hand-outs start from one label, and leave auto-reworking alone on. */
  lemma HandOutLeaves(k: Kind, cl: set<Label>, e: Event)
    requires Hands(k) && HandOut(e) && RuleFor(cl, e).Some?
    requires k.Budget? || k.Verdict? ==> cl != {MergeBlocked, AutoMerging}
    requires k.Spent? || k.Finished? ==> Passed(cl)
    requires k.Lone? ==> |cl| <= 1
    ensures !k.Spent? && !k.Finished? && MergeBlocked !in cl && After(cl, RuleFor(cl, e).value) == {AutoReworking}
  {
    hide Decide, DeriveState;
    var rule := RuleFor(cl, e).value;
    RuleForNames(cl, e);
    ReadingMeans(cl);
    HandOutRules(rule.from, e);
    if Passed(cl) {
      PassedStays(cl, e, cl);
    }
    if k.Lone? {
      SmallReading(cl);
    }
  }

  lemma HandOutRules(s: State, e: Event)
    requires Decide(s, e).Some? && HandOut(e)
    ensures (s == At(AutoMerging) || s == At(AiReviewing)) && Decide(s, e).value.to == ToLabel(AutoReworking)
  {
  }

  lemma HandsSay(c: Ctx, k: Kind, s: Item, cl: set<Label>)
    requires Ready(c, k, s) && Hands(k) && cl == s.labels
    ensures NoEdits(c) && c.mode
    ensures k.Budget? || k.Verdict? ==> cl != {MergeBlocked, AutoMerging}
    ensures k.Spent? || k.Finished? ==> Passed(cl)
    ensures k.Lone? ==> |cl| <= 1
  {
    hide Tally, NoEdits, StuckFree;
  }

  /** A hand-out, and the counter written for it. */
  lemma KeepHandOut(c: Ctx, k: Kind, s: Item, e: Event, cl: set<Label>, told: bool, t: Item)
    requires Ready(c, k, s) && Reads(k, s, cl) && !k.Handless? && !k.Counted? && !k.EntryIs?
    requires HandOut(e) && RuleFor(cl, e).Some?
    requires var st := ApplyEvent(c, s, e, cl, told); st.Ret? && SameButCounters(st.s, t)
    requires Left(c, t) + 1 <= Left(c, s)
    ensures Ready(c, Opened(k), t)
  {
    hide Ready, Holds, ApplyEvent, RuleFor, Left, LastEntry, Tally, NoEdits, StuckFree;
    assert JustAdded(e).None?;
    KeepApply(c, k, s, e, cl, told);
    ApplyFrames(c, s, e, cl, told);
    var st := ApplyEvent(c, s, e, cl, told);
    if k.Budget? {
      HandsSay(c, k, s, cl);
      HandOutLeaves(k, cl, e);
      AppliedLabels(c, s, e, cl, told);
      FramedLeft(c, s, st.s);
      Paid(c, k, s, st.s, t);
    } else {
      KeepCounters(c, Opened(k), st.s, t);
    }
  }

  lemma AppliedLabels(c: Ctx, s: Item, e: Event, cl: set<Label>, told: bool)
    requires NoEdits(c) && cl == s.labels && RuleFor(cl, e).Some? && c.Enforced(e)
    ensures var st := ApplyEvent(c, s, e, cl, told); st.Ret? ==> st.s.labels == After(cl, RuleFor(cl, e).value)
  {
    hide ApplyRule, RuleFor, After, Between, NoEdits, StuckFree;
    RuleLabels(c, s, e, cl, told);
  }

  lemma Paid(c: Ctx, k: Kind, s: Item, u: Item, t: Item)
    requires k.Budget? && Ready(c, Budget(k.b + 1), u) && SameButCounters(u, t)
    requires Left(c, u) == Left(c, s) && Left(c, t) + 1 <= Left(c, s)
    requires u.labels == {AutoReworking}
    ensures Ready(c, k, t)
  {
    hide Tally, Left, NoEdits, StuckFree;
  }

  /** A comment after an event that applied. */
  function Commented(c: Ctx, st: Step<Result>, io: bool): Step<Result>
    requires st.Ret?
  {
    var (s, _) :- Comment(c, st.s, io);
    Ret(s, st.v)
  }

  lemma KeepCommented(c: Ctx, k: Kind, st: Step<Result>, io: bool)
    requires KeptOpen(c, k, st) && st.Ret? && st.v.Applied? && (Opened(k).Dry? ==> !io)
    ensures KeptOpen(c, k, Commented(c, st, io))
  {
    hide Ready, Comment, NoFailures, NoEdits, StuckFree, Opened;
    KeepComment(c, Opened(k), st.s, io);
  }

  lemma KeepBlockMerge(c: Ctx, k: Kind, s: Item, cl: set<Label>, e: Event, told: bool)
    requires Ready(c, k, s) && Reads(k, s, cl) && !k.Counted? && !k.EntryIs?
    requires Simple(e) && EventOk(c, k, s, e, cl)
    ensures KeptOpen(c, k, BlockMerge(c, s, cl, e, told))
  {
    hide Ready, ApplyEvent, Comment, Reads, EventOk, KeptOpen, Simple, RuleFor;
    KeepSimple(c, k, s, e, cl, told);
    DryIsShadow(c, k, s);
    var st := ApplyEvent(c, s, e, cl, told);
    if st.Ret? && st.v.Applied? {
      KeepCommented(c, k, st, c.Enforced(e));
    }
  }

  lemma KeepCapRework(c: Ctx, k: Kind, s: Item, cl: set<Label>, told: bool)
    requires Ready(c, k, s) && Reads(k, s, cl) && !k.Counted? && !k.EntryIs? && !k.StuckOwed?
    requires Hands(k) ==> Own(ReworkCapReached, cl)
    ensures KeptOpen(c, k, CapRework(c, s, cl, told))
  {
    hide Ready, ApplyEvent, Comment, Reads, NoFailures, RuleFor, Own;
    KeepApply(c, k, s, ReworkCapReached, cl, told);
    AppliedMeans(c, s, ReworkCapReached, cl, told);
    DryIsShadow(c, k, s);
    StuckReturns(c, k, s);
    var st := ApplyEvent(c, s, ReworkCapReached, cl, told);
    if st.Ret? && st.v.Applied? {
      KeepUnexpired(c, AfterApply(k, ReworkCapReached, true, true), st.s);
      KeepComment(c, Opened(k), PutExpired(st.s, false), c.Enforced(ReworkCapReached));
    }
  }

  lemma StuckReturns(c: Ctx, k: Kind, s: Item)
    requires Ready(c, k, s)
    ensures OfStuck(k) ==> NoFailures(c)
  {
  }

  /** A hand-out's event, but for what it leaves where it applied. */
  lemma HandOutEvent(c: Ctx, k: Kind, s: Item, e: Event, cl: set<Label>, told: bool)
    requires Ready(c, k, s) && Reads(k, s, cl) && !k.Handless? && !k.Counted? && !k.EntryIs? && HandOut(e)
    ensures var st := ApplyEvent(c, s, e, cl, told);
      && (NoFailures(c) ==> st.Ret?)
      && (st.Ret? && !st.v.Applied? ==> Ready(c, k, st.s))
      && (st.Thr? ==> Ready(c, k, st.s) || Ready(c, Opened(k), st.s))
      && (st.Ret? && st.v.Applied? ==> RuleFor(cl, e).Some?)
  {
    hide Ready, ApplyEvent, RuleFor, NoFailures, Opened;
    assert EventOk(c, k, s, e, cl);
    KeepApply(c, k, s, e, cl, told);
    AppliedMeans(c, s, e, cl, told);
  }

  lemma OpenedDry(c: Ctx, k: Kind, s: Item)
    requires Ready(c, k, s)
    ensures Opened(k).Dry? ==> !c.mode
  {
    hide Holds;
  }

  /** A hand-out by the merge gate: merge-blocked comes off a re-added
      auto-merging too. */
  lemma KeepHandedToRework(c: Ctx, k: Kind, s: Item, cl: set<Label>, told: bool)
    requires Ready(c, k, s) && Reads(k, s, cl) && !k.Handless? && !k.Counted? && !k.EntryIs?
    requires Attempts(s) < c.caps.ciFixAttempts
    ensures KeptOpen(c, k, HandToRework(c, s, cl, told))
  {
    hide Ready, ApplyEvent, Say, WriteLabel, Reads, NoFailures, NoEdits, StuckFree, RuleFor, Opened, KeptOpen, Attempts;
    var e := MergeGateFailedSoft;
    HandOutEvent(c, k, s, e, cl, told);
    var st := ApplyEvent(c, s, e, cl, told);
    if st.Ret? && st.v.Applied? {
      var w := WriteLabel(c, st.s, MergeBlocked in cl && c.Enforced(e), false, MergeBlocked);
      var s3 := PutCiFix(w.s, Some(CiFix(Attempts(s) + 1, true, false)));
      HandedSwap(c, k, s, cl, told, st.s, s3);
      if w.Ret? {
        OpenedDry(c, k, s);
        KeptApplied(c, k, s3, st.v);
        KeepCommented(c, k, Ret(s3, st.v), c.Enforced(e));
        assert HandToRework(c, s, cl, told) == Commented(c, Ret(s3, st.v), c.Enforced(e));
      } else {
        KeptThrown(c, k, w.s);
      }
    } else {
      KeptEvent(c, k, st);
    }
  }

  lemma KeptApplied(c: Ctx, k: Kind, s: Item, r: Result)
    requires Ready(c, Opened(k), s) && r.Applied?
    ensures KeptOpen(c, k, Ret(s, r))
  {
    hide Ready, NoFailures;
  }

  lemma KeptThrown(c: Ctx, k: Kind, s: Item)
    requires Ready(c, Opened(k), s) && !NoFailures(c)
    ensures KeptOpen(c, k, Thr(s))
  {
    hide Ready, NoFailures;
  }

  lemma KeptEvent(c: Ctx, k: Kind, st: Step<Result>)
    requires st.Ret? ==> !st.v.Applied? && Ready(c, k, st.s)
    requires st.Thr? ==> !NoFailures(c) && (Ready(c, k, st.s) || Ready(c, Opened(k), st.s))
    ensures KeptOpen(c, k, st)
  {
    hide Ready, NoFailures;
  }

  lemma HandedSwap(c: Ctx, k: Kind, s: Item, cl: set<Label>, told: bool, s1: Item, t: Item)
    requires Ready(c, k, s) && Reads(k, s, cl) && !k.Handless? && !k.Counted? && !k.EntryIs?
    requires Attempts(s) < c.caps.ciFixAttempts && RuleFor(cl, MergeGateFailedSoft).Some?
    requires ApplyEvent(c, s, MergeGateFailedSoft, cl, told).Ret? && s1 == ApplyEvent(c, s, MergeGateFailedSoft, cl, told).s
    requires var w := WriteLabel(c, s1, MergeBlocked in cl && c.Enforced(MergeGateFailedSoft), false, MergeBlocked);
      t == PutCiFix(w.s, Some(CiFix(Attempts(s) + 1, true, false)))
    ensures Ready(c, Opened(k), t)
    ensures var w := WriteLabel(c, s1, MergeBlocked in cl && c.Enforced(MergeGateFailedSoft), false, MergeBlocked);
      (w.Thr? ==> Ready(c, Opened(k), w.s)) && (NoFailures(c) ==> w.Ret?)
  {
    hide Ready, Holds, ApplyEvent, WriteLabel, RuleFor, Left, NoEdits, StuckFree, NoFailures;
    var e := MergeGateFailedSoft;
    ApplyFrames(c, s, e, cl, told);
    WriteOpFrames(c, s1, MergeBlocked in cl && c.Enforced(e), RemoveOp(MergeBlocked));
    AttemptTaken(c, s, s1, t);
    if Hands(k) {
      HandsSay(c, k, s, cl);
      HandOutLeaves(k, cl, e);
      NothingWritten(c, s1, MergeBlocked);
      KeepHandOut(c, k, s, e, cl, told, t);
    } else {
      KeepApply(c, k, s, e, cl, told);
      var io := MergeBlocked in cl && c.Enforced(e);
      DryIsShadow(c, k, s);
      KeepWriteLabel(c, Opened(k), s1, io, false, MergeBlocked);
      KeepCounters(c, Opened(k), WriteLabel(c, s1, io, false, MergeBlocked).s, t);
    }
  }

  lemma NothingWritten(c: Ctx, s: Item, l: Label)
    ensures WriteLabel(c, s, false, false, l) == Ret(s, ())
  {
  }

  lemma AttemptTaken(c: Ctx, s: Item, u: Item, t: Item)
    requires Framed(s, u) && t.rounds == u.rounds && t.ciFix.Some? && t.ciFix.value.attempts == Attempts(s) + 1
    requires Attempts(s) < c.caps.ciFixAttempts
    ensures Left(c, t) + 1 <= Left(c, s)
  {
  }

  lemma KeepHandToRework(c: Ctx, k: Kind, s: Item, cl: set<Label>, told: bool)
    requires Ready(c, k, s) && Reads(k, s, cl) && !k.Handless? && !k.Counted? && !k.EntryIs?
    ensures KeptOpen(c, k, HandToRework(c, s, cl, told))
  {
    hide Ready, BlockMerge, ApplyEvent, Comment, WriteLabel, Reads, KeptOpen, DeriveState;
    if Attempts(s) >= c.caps.ciFixAttempts {
      KeepBlockMerge(c, k, s, cl, MergeGateFailedHard, told);
    } else {
      KeepHandedToRework(c, k, s, cl, told);
    }
  }

  /** A hand-out for the review, its counter and its comment. */
  lemma KeepCountedOut(c: Ctx, k: Kind, s: Item, e: Event, cl: set<Label>, told: bool, t: Item)
    requires Ready(c, k, s) && Reads(k, s, cl) && !k.Handless? && !k.Counted? && !k.EntryIs? && HandOut(e)
    requires var st := ApplyEvent(c, s, e, cl, told); st.Ret? && st.v.Applied? ==>
      SameButCounters(st.s, t) && Left(c, t) + 1 <= Left(c, s)
    ensures var st := ApplyEvent(c, s, e, cl, told);
      && (NoFailures(c) ==> st.Ret?)
      && (st.Ret? && !st.v.Applied? ==> Ready(c, k, st.s))
      && (st.Thr? ==> Ready(c, k, st.s) || Ready(c, Opened(k), st.s))
      && (st.Ret? && st.v.Applied? ==>
        Ready(c, Opened(k), Comment(c, t, c.Enforced(e)).s) && (NoFailures(c) ==> Comment(c, t, c.Enforced(e)).Ret?))
  {
    hide Ready, ApplyEvent, Comment, RuleFor, Left, SameButCounters, NoFailures, KeptOpen, Reads, Opened;
    HandOutEvent(c, k, s, e, cl, told);
    OpenedDry(c, k, s);
    var st := ApplyEvent(c, s, e, cl, told);
    if st.Ret? && st.v.Applied? {
      KeepHandOut(c, k, s, e, cl, told, t);
      KeepComment(c, Opened(k), t, c.Enforced(e));
    }
  }

  lemma KeepHandReviewToRework(c: Ctx, k: Kind, s: Item, cl: set<Label>, told: bool)
    requires Ready(c, k, s) && Reads(k, s, cl) && !k.Handless? && !k.Counted? && !k.EntryIs? && !k.StuckOwed?
    ensures KeptOpen(c, k, HandReviewToRework(c, s, cl, told))
  {
    hide Ready, CapRework, ApplyEvent, Comment, Reads, Left, NoFailures;
    if Attempts(s) >= c.caps.ciFixAttempts {
      KeepCapRework(c, k, s, cl, told);
    } else {
      var u := ApplyEvent(c, s, ReviewCiFailed, cl, told).s;
      ApplyFrames(c, s, ReviewCiFailed, cl, told);
      var t := PutCiFix(u, Some(CiFix(Attempts(s) + 1, true, true)));
      AttemptTaken(c, s, u, t);
      KeepCountedOut(c, k, s, ReviewCiFailed, cl, told, t);
    }
  }

  lemma RoundTaken(c: Ctx, s: Item, u: Item, t: Item)
    requires Framed(s, u) && t.ciFix == u.ciFix && t.rounds.Some? && t.rounds.value.botRounds == BotRounds(s) + 1
    requires BotRounds(s) < c.caps.botReviewReworks
    ensures Left(c, t) + 1 <= Left(c, s)
  {
  }

  lemma KeepTakeFindings(c: Ctx, k: Kind, s: Item, cl: set<Label>, told: bool)
    requires Ready(c, k, s) && Reads(k, s, cl) && !k.Handless? && !k.Counted? && !k.EntryIs? && !k.StuckOwed?
    ensures KeptOpen(c, k, TakeFindings(c, s, cl, told))
  {
    hide Ready, CapRework, ApplyEvent, Comment, Reads, Left, NoFailures;
    if BotRounds(s) + 1 > c.caps.botReviewReworks {
      KeepCapRework(c, k, s, cl, told);
    } else {
      var u := ApplyEvent(c, s, ReviewFindings, cl, told).s;
      ApplyFrames(c, s, ReviewFindings, cl, told);
      var t := PutRounds(u, Some(Rounds(BotRounds(s) + 1, true)));
      RoundTaken(c, s, u, t);
      KeepCountedOut(c, k, s, ReviewFindings, cl, told, t);
    }
  }

  lemma ReadsGlanced(c: Ctx, k: Kind, s: Item, t: Item, cl: set<Label>)
    requires Ready(c, k, s) && Reads(k, s, cl) && Glanced(c, s, t)
    ensures Ready(c, k, t) && Reads(k, t, cl)
  {
    hide Holds;
    KeepGlanced(c, k, s, t);
  }

  lemma PassedOk(c: Ctx, k: Kind, s: Item, cl: set<Label>)
    ensures EventOk(c, k, s, ReviewCiPassed, cl)
  {
    hide RuleFor;
  }

  lemma KeepReviewGate(c: Ctx, k: Kind, s: Item, cl: set<Label>, told: bool)
    requires Ready(c, k, s) && Reads(k, s, cl) && !k.Handless? && !k.Counted? && !k.EntryIs? && !k.StuckOwed?
    ensures KeptOpen(c, k, ReviewGate(c, s, cl, told))
  {
    hide Ready, HandReviewToRework, ApplyEvent, Say, Read, Reads, NoFailures, AnyUnfinished, AnyFailed, EventOk, RuleFor, KeptOpen,
      Glanced;
    if Running(s, ReviewLoop) {
      KeepLog(c, k, s);
      KeptQuietly(c, k, Log(c, s).s, Log(c, s).Ret?);
    } else {
      ReadGlances(c, s);
      var s1 := Read(c, s).s;
      ReadsGlanced(c, k, s, s1, cl);
      KeptQuietly(c, k, s1, Read(c, s).Ret?);
      KeepHandReviewToRework(c, k, s1, cl, told);
      PassedOk(c, k, s1, cl);
      KeepSimple(c, k, s1, ReviewCiPassed, cl, told);
    }
  }

  lemma KeptQuietly(c: Ctx, k: Kind, s: Item, back: bool)
    requires Ready(c, k, s)
    ensures back ==> KeptOpen(c, k, Ret(s, NoEvent))
    ensures !back && !NoFailures(c) ==> KeptOpen(c, k, Thr(s))
  {
    hide Ready, NoFailures;
  }

  lemma {:induction false} SettleMoreGlances(c: Ctx, s: Item, f: Facts, tries: nat)
    ensures Glanced(c, s, SettleMore(c, s, f, tries).s)
    ensures NoFailures(c) ==> SettleMore(c, s, f, tries).Ret?
    decreases tries
  {
    hide NoEdits, StuckFree, NoFailures;
    if tries > 0 && f.mergeable.None? {
      ReadGlances(c, s);
      if Read(c, s).Ret? {
        SettleMoreGlances(c, Read(c, s).s, Read(c, s).v.facts, tries - 1);
      }
    }
  }

  lemma SettledGlances(c: Ctx, s: Item)
    ensures Glanced(c, s, SettledFacts(c, s).s)
    ensures NoFailures(c) ==> SettledFacts(c, s).Ret?
  {
    hide SettleMore, NoEdits, StuckFree, NoFailures;
    ReadGlances(c, s);
    if Read(c, s).Ret? {
      SettleMoreGlances(c, Read(c, s).s, Read(c, s).v.facts, MERGEABLE_RETRIES);
    }
  }
}
