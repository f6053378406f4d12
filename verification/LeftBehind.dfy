// What the sweep does about an item left behind
// (worker/src/coordinate/reconcile.ts).

module LeftBehind {
  import opened Wrappers
  import opened Graph
  import opened Labels
  import opened Items
  import opened Apply
  import opened Gates
  import opened Deliveries
  import opened Webhook
  import opened Sweeping
  import opened Kinds
  import opened Fires
  import opened Delivering
  import opened Steps
  import opened GateFacts
  import opened Gatekeeping
  import opened ReviewKeeping

  /** The routine a trigger label's lost fire would have started. */
  function LostRun(l: Label, merged: bool): Routine
    requires l in WATCHED
  {
    match l
    case AiReady => IssueBuildLoop
    case AutoReleasing => if merged then ReleasePublish else AutoReleaseLoop
    case AutoReworking => ReworkLoop
    case AutoMerging => MergeFlow
    case _ => ReviewLoop
  }

  /** Nothing will notice: no pending fire, or one whose alarm is gone a quarter
      of an hour past due. */
  predicate Unwatched(s: Item) {
    s.pending.None? || (s.alarm.None? && s.now >= s.pending.value.dueAt + 900_000)
  }

  /** The item's last activity: the later of its last log row and GitHub's own
      time of it. */
  predicate LastOf(last: Option<int>, row: Option<int>, updatedAt: Option<int>) {
    && (last == row || last == updatedAt)
    && (row.Some? ==> last.Some? && row.value <= last.value)
    && (updatedAt.Some? ==> last.Some? && updatedAt.value <= last.value)
  }

  /** `ms` to the nearest tenth of a minute, half up. */
  predicate Nearest(ms: int, tenths: int) {
    6_000 * tenths - 3_000 <= ms < 6_000 * tenths + 3_000
  }

  /** Idle for less than twice its routine's timeout, as the sweep counts it. */
  predicate Lately(c: Ctx, s: Item, run: Routine, last: Option<int>, tenths: int) {
    last.Some? && 6_000 * tenths < 2 * c.timeout(run)
  }

  /** Its last run reported that it was done, and nothing has happened since. */
  predicate DoneSince(s: Item, last: Option<int>) {
    s.completed.Some? && (last.None? || s.completed.value >= last.value)
  }

  /** The sweep's own mark and row, at most. */
  predicate LeftAlone(s: Item, t: Item) {
    Rests(s, t) && Counters(s, t)
  }

  /** The lost fire made again, watched. */
  predicate Refires(c: Ctx, s: Item, st: Step<Swept>, run: Routine) {
    && FiredOnce(s, st.s, run) && Leaves(c, s, st.s, run, true, false)
    && (st.Ret? ==> st.v.Refired? && !Reply(st.s).Throws? && st.s.labels == s.labels)
  }

  /** A gate's answer, as the sweep gives it. */
  function AsResult(st: Step<Swept>): Step<Result> {
    match st
    case Ret(t, Gated(r)) => Ret(t, r)
    case Ret(t, _) => Ret(t, NoEvent)
    case Thr(t) => Thr(t)
  }

  // --- the branches ---

  lemma RefiresIt(c: Ctx, s: Item, run: Routine)
    requires NoEdits(c)
    ensures Refires(c, s, Refire(c, s, run), run)
  {
    hide FireWatched, Say, NoEdits, StuckFree, Fired, Reply, Watching, Deferring, Framed;
    WatchedFire(c, s, run, false, false);
    KeepFireWatched(c, Loose, s, true, run, false, false) by {
      LooseIsReady(c, s);
    }
    var w := FireWatched(c, s, true, run, false, false);
    StaysPut(c, s, w.s);
    SayRests(c, w.s, true, Row);
    UnfiredItself(s);
    UnfiredItself(w.s);
    LeavesOn(c, s, s, w.s, Refire(c, s, run).s, run, true, false);
  }

  lemma StaysPut(c: Ctx, s: Item, t: Item)
    requires NoEdits(c) && Steady(c, s, t)
    ensures t.labels == s.labels
  {
  }

  /** The row is written once an idle stretch, which its last activity marks. */
  predicate NotesOnce(s: Item, st: Step<Swept>, last: Option<int>) {
    && LeftAlone(s, st.s) && (st.Ret? ==> st.v.WouldRefire?)
    && if s.reported == Some(last) then st.Ret? && st.s.trace == s.trace
       else st.s.reported == Some(last) && (st.Ret? ==> st.s.trace == s.trace + [Row])
  }

  lemma ReportLeaves(c: Ctx, s: Item, last: Option<int>)
    requires NoEdits(c)
    ensures NotesOnce(s, ReportLeft(c, s, last), last)
  {
    LogSays(c, s.(reported := Some(last)));
    hide Say, NoEdits, StuckFree, Fired, Framed;
    var t := s.(reported := Some(last));
    SayRests(c, t, true, Row);
    SaysCount(c, t, true, Row);
    UnfiredItself(s);
  }

  lemma LogSays(c: Ctx, s: Item)
    ensures var l := Log(c, s); l.s.reported == s.reported && (l.Ret? ==> l.s.trace == s.trace + [Row])
  {
  }

  /** What the sweep does for a PR left under auto-merging alone. */
  predicate MergeSwept(c: Ctx, s: Item, st: Step<Swept>, f: Facts) {
    if Blocked(f) then Blocks(c, s, AsResult(st))
    else if Softly(f) then MergeFix(c, s, AsResult(st), Attempts(s))
    else Refires(c, s, st, MergeFlow)
  }

  lemma MergeSweeps(c: Ctx, s: Item)
    requires c.mode && NoEdits(c) && s.labels == {AutoMerging}
    ensures var st := SweepMerge(c, s, s.labels, MergeFlow);
      MergeSwept(c, s, st, Settled(c, s.calls)) || (st.Thr? && LeftAlone(s, st.s))
  {
    hide SettledFacts, Settled, BlockMerge, HandToRework, Refire, RuleFor, NoEdits, StuckFree, Fired, Moves, Framed, After,
      HardBlock, Blocked, Unfinished, AnyRed, DeriveGate, Reply, Watching, Deferring;
    SettledCalm(c, s);
    SettledMeans(c, s);
    var x := SettledFacts(c, s);
    CalmCounts(s, x.s);
    if x.Ret? {
      FactsMean(x.v);
      MergingRules();
      BlockMoves(c, x.s, MergeGateFailedHard, false);
      Swapped(AutoMerging, RuleFor(s.labels, MergeGateFailedHard).value);
      HandsToRework(c, x.s, false);
      RefiresIt(c, x.s, MergeFlow);
      SweptFrom(c, s, x.s, SweepMerge(c, s, s.labels, MergeFlow), x.v);
    }
  }

  lemma SweptFrom(c: Ctx, s: Item, u: Item, st: Step<Swept>, f: Facts)
    requires Rests(s, u) && Counters(s, u) && MergeSwept(c, u, st, f)
    ensures MergeSwept(c, s, st, f)
  {
    hide Fired, Moves, Blocked, Softly, Reply, Watching, Deferring;
    Lifts(c, s, u, AsResult(st), AsResult(st));
    UnfiredItself(st.s);
    LeavesOn(c, s, u, st.s, st.s, MergeFlow, true, false);
  }

  // --- the sweep's answer ---

  /** What the sweep does about an item that carries just the trigger label `l`,
      nothing watching it, its last activity `tenths` of a minute ago: nothing
      where that was lately, or its last run is done since; the review's gate for
      a PR in review, the merge's for one under auto-merging; the lost fire again
      for any other; and a row at most where the sweep is not to act. */
  predicate SweepDoes(
    c: Ctx, s: Item, st: Step<Swept>, l: Label, enforced: bool, budget: bool, last: Option<int>, tenths: int)
    requires l in WATCHED
  {
    var run := LostRun(l, s.releaseMerged.Some?);
    var live := c.mode && c.watchdog;
    if Lately(c, s, run, last, tenths) then st.Ret? && st.v.Recent? && LeftAlone(s, st.s)
    else if DoneSince(s, last) then st.Ret? && st.v.CompletedRun? && LeftAlone(s, st.s)
    else if l == AiReviewing && budget && live then
      if Running(s, ReviewLoop) then Stands(s, AsResult(st))
      else Decides(c, s, AsResult(st), c.world(s.calls + 2).facts) || (st.Thr? && LeftAlone(s, st.s))
    else if !(enforced && budget && live) then NotesOnce(s, st, last)
    else if l == AutoMerging then
      MergeSwept(c, s, st, Settled(c, s.calls + 2)) || (st.Thr? && LeftAlone(s, st.s))
    else Refires(c, s, st, run)
  }

  lemma SweepRunIs(l: Label, merged: bool)
    requires l in WATCHED
    ensures SweepRun({l}, merged) == Some(LostRun(l, merged)) && DeriveState({l}) == Clear(At(l))
  {
    hide DeriveState;
    ReadingMeans({l});
  }

  lemma LatestIs(last: Option<int>, row: Option<int>, updatedAt: Option<int>)
    requires LastOf(last, row, updatedAt)
    ensures Latest(row, updatedAt) == last
  {
  }

  lemma Rounds(ms: int, tenths: int)
    requires Nearest(ms, tenths)
    ensures IdleTenths(ms) == tenths
  {
  }

  lemma IdleDoes(c: Ctx, s: Item, u: Item, l: Label, enforced: bool, budget: bool, last: Option<int>)
    requires NoEdits(c) && s.labels == {l} && l in WATCHED && Calm(s, u) && u.calls == s.calls + 2
    ensures forall tenths | !Lately(c, s, LostRun(l, s.releaseMerged.Some?), last, tenths) ::
      SweepDoes(c, s, SweepIdle(c, u, {l}, LostRun(l, s.releaseMerged.Some?), enforced, budget, last), l, enforced, budget, last, tenths)
  {
    hide ReviewGate, SweepMerge, Refire, ReportLeft, NoEdits, StuckFree, DeriveState, Decides, MergeSwept, Moves, Fired, Settled, Lately,
      Refires;
    var run := LostRun(l, s.releaseMerged.Some?);
    CalmCounts(s, u);
    SweepRunIs(l, s.releaseMerged.Some?);
    ReportLeaves(c, u, last);
    NotedFrom(s, u, ReportLeft(c, u, last), last);
    if c.mode && c.watchdog && budget {
      if l == AiReviewing {
        ReviewSwept(c, s, u);
      } else if l == AutoMerging {
        MergeSweeps(c, u);
        var st := SweepMerge(c, u, {l}, run);
        if MergeSwept(c, u, st, Settled(c, u.calls)) {
          SweptFrom(c, s, u, st, Settled(c, u.calls));
        } else {
          LeftFrom(s, u, st.s);
        }
      } else {
        RefiresIt(c, u, run);
        RefiresFrom(c, s, u, Refire(c, u, run), run);
      }
    }
  }

  lemma LeftFrom(s: Item, u: Item, t: Item)
    requires LeftAlone(s, u)
    ensures LeftAlone(u, t) ==> LeftAlone(s, t)
  {
    hide Fired;
  }

  lemma NotedFrom(s: Item, u: Item, st: Step<Swept>, last: Option<int>)
    requires Calm(s, u) && NotesOnce(u, st, last)
    ensures NotesOnce(s, st, last)
  {
    hide Fired;
  }

  lemma RefiresFrom(c: Ctx, s: Item, u: Item, st: Step<Swept>, run: Routine)
    requires Rests(s, u) && Refires(c, u, st, run)
    ensures Refires(c, s, st, run)
  {
    hide Fired, Reply, Watching, Deferring;
    UnfiredItself(st.s);
    LeavesOn(c, s, u, st.s, st.s, run, true, false);
  }

  lemma ReviewSwept(c: Ctx, s: Item, u: Item)
    requires c.mode && NoEdits(c) && s.labels == {AiReviewing} && Calm(s, u) && u.calls == s.calls + 2
    ensures var st := AsGated(ReviewGate(c, u, {AiReviewing}, false));
      if Running(s, ReviewLoop) then Stands(s, AsResult(st))
      else Decides(c, s, AsResult(st), c.world(s.calls + 2).facts) || (st.Thr? && LeftAlone(s, st.s))
  {
    hide ReviewGate, NoEdits, StuckFree, Decides, Fired;
    CalmCounts(s, u);
    var g := ReviewGate(c, u, u.labels, false);
    if Running(s, ReviewLoop) {
      AlreadyOut(c, u, false);
      Lifts(c, s, u, g, g);
    } else {
      GateOpens(c, u, false);
      if Decides(c, u, g, c.world(u.calls).facts) {
        ChecksFrom(c, s, u, g, g, c.world(u.calls).facts);
      } else {
        LeftFrom(s, u, g.s);
      }
    }
  }

  /** The sweep asks about an item that carries one trigger label, with nothing
      watching it, and reads its labels and its last row: it does exactly that. */
  lemma SweepFindsTheLost(
    c: Ctx, s: Item, l: Label, enforced: bool, budget: bool, updatedAt: Option<int>, last: Option<int>, tenths: int)
    requires NoEdits(c) && s.labels == {l} && l in WATCHED && Unwatched(s)
    requires !c.world(s.calls).verdict.Throws? && !c.world(s.calls + 1).verdict.Throws?
    requires LastOf(last, c.world(s.calls + 1).at, updatedAt) && (last.Some? ==> Nearest(s.now - last.value, tenths))
    ensures SweepDoes(c, s, Reconcile(c, s, enforced, budget, updatedAt), l, enforced, budget, last, tenths)
  {
    hide SweepIdle, Read, GetLabels, NoEdits, StuckFree, DeriveState, SweepRun, Latest, IdleTenths, Decides, MergeSwept, Refires, Stands,
      Fired, Settled;
    LabelsCalm(c, s);
    LabelsWent(c, s);
    var g := GetLabels(c, s).s;
    FactsCalm(c, g);
    ReadEnds(c, g);
    var u := Read(c, g).s;
    CalmOn(s, g, u);
    CalmCounts(s, u);
    LatestIs(last, c.world(s.calls + 1).at, updatedAt);
    SweepRunIs(l, s.releaseMerged.Some?);
    if last.Some? {
      Rounds(s.now - last.value, tenths);
    }
    IdleDoes(c, s, u, l, enforced, budget, last);
  }

  lemma LabelsWent(c: Ctx, s: Item)
    ensures GetLabels(c, s).Ret? <==> !c.world(s.calls).verdict.Throws?
  {
  }

  lemma CalmOn(s: Item, t: Item, u: Item)
    requires Calm(s, t) && Calm(t, u)
    ensures Calm(s, u)
  {
  }

  /** One that is watched, its alarm armed or its fire not long due, is left to
      its watchdog. */
  lemma WatchedIsLeft(c: Ctx, s: Item, enforced: bool, budget: bool, updatedAt: Option<int>)
    requires !Unwatched(s)
    ensures Reconcile(c, s, enforced, budget, updatedAt) == Ret(s, BeingWatched)
  {
  }

  // --- a person's lost retry ---

  /** What the sweep does for auto-merging re-added to a merge-blocked PR. */
  predicate RetrySwept(c: Ctx, s: Item, st: Step<Swept>, f: Facts) {
    if Blocked(f) then Blocks(c, s, AsResult(st))
    else if Softly(f) then MergeRetry(c, s, AsResult(st))
    else Moves(c, s, AsResult(st), {AutoMerging}, Some(MergeFlow))
  }

  lemma RetryPasses(c: Ctx, s: Item)
    requires c.mode && NoEdits(c) && s.labels == {MergeBlocked, AutoMerging}
    ensures Moves(c, s, RetryMerge(c, s, s.labels), {AutoMerging}, Some(MergeFlow))
  {
    hide ApplyEvent, RuleFor, NoEdits, StuckFree, Fired, Moves, Say, After, Framed;
    PassingRule(s.labels);
    EventMoves(c, s, LabelledAutoMerging, false);
    var st := ApplyEvent(c, s, LabelledAutoMerging, s.labels, false);
    MovesMeans(c, s, st, {AutoMerging}, Some(MergeFlow));
    if st.Ret? {
      SayRests(c, st.s, true, Row);
      Itself(s);
      MovesOn(c, s, s, st, RetryMerge(c, s, s.labels), {AutoMerging}, Some(MergeFlow));
    }
  }

  lemma RetrySweeps(c: Ctx, s: Item)
    requires c.mode && NoEdits(c) && s.labels == {MergeBlocked, AutoMerging}
    ensures var st := SweepMerge(c, s, s.labels, MergeFlow);
      RetrySwept(c, s, st, Settled(c, s.calls)) || (st.Thr? && Rests(s, st.s))
  {
    hide SettledFacts, Settled, BlockMerge, HandToRework, Refire, RuleFor, NoEdits, StuckFree, Fired, Moves, Framed, RetryMerge,
      HardBlock, Blocked, Unfinished, AnyRed, DeriveGate;
    var s1 := PutCiFix(s, None);
    SettledCalm(c, s1);
    SettledMeans(c, s1);
    var x := SettledFacts(c, s1);
    if x.Ret? {
      FactsMean(x.v);
      RetryReads();
      assert After(s.labels, RuleFor(s.labels, MergeGateFailedHard).value) == {MergeBlocked};
      BlockMoves(c, x.s, MergeGateFailedHard, false);
      RetryHandsOut(c, x.s, false);
      RetryPasses(c, x.s);
      var st := SweepMerge(c, s, s.labels, MergeFlow);
      Lifts(c, s, x.s, AsResult(st), AsResult(st));
    }
  }

  lemma PairReads(merged: bool)
    ensures SweepRun({MergeBlocked, AutoMerging}, merged) == Some(MergeFlow)
    ensures DeriveState({MergeBlocked, AutoMerging}) == Clear(At(AutoMerging))
  {
    hide DeriveState;
    RetryReads();
  }

  /** The sweep that acts on a person's lost retry does what the retry's own
      delivery would have: a block, a rework with a fresh count, or merge-flow. */
  lemma SweepFindsTheLostRetry(
    c: Ctx, s: Item, updatedAt: Option<int>, last: Option<int>, tenths: int)
    requires NoEdits(c) && c.mode && c.watchdog && s.labels == {MergeBlocked, AutoMerging} && Unwatched(s)
    requires !c.world(s.calls).verdict.Throws? && !c.world(s.calls + 1).verdict.Throws?
    requires LastOf(last, c.world(s.calls + 1).at, updatedAt) && (last.Some? ==> Nearest(s.now - last.value, tenths))
    requires !Lately(c, s, MergeFlow, last, tenths) && !DoneSince(s, last)
    ensures var st := Reconcile(c, s, true, true, updatedAt);
      RetrySwept(c, s, st, Settled(c, s.calls + 2)) || (st.Thr? && Rests(s, st.s))
  {
    hide SweepMerge, Read, GetLabels, NoEdits, StuckFree, DeriveState, SweepRun, Latest, IdleTenths, RetrySwept, Fired, Settled;
    LabelsCalm(c, s);
    LabelsWent(c, s);
    var g := GetLabels(c, s).s;
    FactsCalm(c, g);
    ReadEnds(c, g);
    var u := Read(c, g).s;
    CalmOn(s, g, u);
    CalmCounts(s, u);
    LatestIs(last, c.world(s.calls + 1).at, updatedAt);
    PairReads(s.releaseMerged.Some?);
    if last.Some? {
      Rounds(s.now - last.value, tenths);
    }
    RetrySweeps(c, u);
    var st := SweepMerge(c, u, u.labels, MergeFlow);
    assert Reconcile(c, s, true, true, updatedAt) == st;
    if RetrySwept(c, u, st, Settled(c, u.calls)) {
      RetryFrom(c, s, u, st, Settled(c, u.calls));
    } else {
      RestsOn(s, u, st.s);
    }
  }

  lemma RetryFrom(c: Ctx, s: Item, u: Item, st: Step<Swept>, f: Facts)
    requires Rests(s, u) && RetrySwept(c, u, st, f)
    ensures RetrySwept(c, s, st, f)
  {
    hide Fired, Moves, Blocked, Softly;
    Lifts(c, s, u, AsResult(st), AsResult(st));
  }
}
