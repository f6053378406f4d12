// What passes between items, and ends one (worker/src/coordinate/stages.ts,
// webhook.ts): a merged PR tells the issues it closes, a build hands its PR
// over, a release closes what it ships.

module Crossing {
  import opened Wrappers
  import opened Graph
  import opened Labels
  import opened Items
  import opened Apply
  import opened Deliveries
  import opened Stages
  import opened Webhook
  import opened Kinds
  import opened Keeps
  import opened GateKeeps
  import opened WebhookKeeps
  import opened Fires
  import opened Delivering
  import opened Steps
  import opened Triggers
  import opened Gatekeeping
  import opened ReviewKeeping
  import opened Reports
  import O = Outcomes

  /** How many times the item has spoken to another. */
  function Told(trace: seq<Mark>): nat {
    if trace == [] then 0
    else Told(trace[..|trace| - 1]) + if trace[|trace| - 1].Forwarded? then 1 else 0
  }

  lemma ToldGrows(trace: seq<Mark>, m: Mark)
    ensures Told(trace + [m]) == Told(trace) + if m.Forwarded? then 1 else 0
  {
    assert (trace + [m])[..|trace|] == trace;
  }

  lemma SaysTold(c: Ctx, s: Item, io: bool, m: Mark)
    ensures var st := Say(c, s, io, m);
      && (!m.Forwarded? || !io ==> Told(st.s.trace) == Told(s.trace))
      && (m.Forwarded? && io && st.Ret? ==> Told(st.s.trace) == Told(s.trace) + 1)
  {
    ToldGrows(s.trace, m);
  }

  lemma OpTold(c: Ctx, s: Item, io: bool, op: LabelOp)
    ensures Told(WriteOp(c, s, io, op).s.trace) == Told(s.trace)
  {
    hide WriteLabel, Say, Told;
    match op
    case AddOp(l) => WriteTold(c, s, io, true, l);
    case RemoveOp(l) => WriteTold(c, s, io, false, l);
    case CloseOp => SaysTold(c, if io && Lands(c, s) then s.(open := false) else s, io, CloseWrite);
  }

  lemma WriteTold(c: Ctx, s: Item, io: bool, add: bool, l: Label)
    ensures Told(WriteLabel(c, s, io, add, l).s.trace) == Told(s.trace)
  {
    hide Told;
    ToldGrows(s.trace, LabelWrite(add, l));
  }

  lemma {:induction false} OpsTold(c: Ctx, s: Item, io: bool, ops: seq<LabelOp>)
    ensures Told(WriteOps(c, s, io, ops).s.trace) == Told(s.trace)
    decreases |ops|
  {
    hide WriteOp, Told;
    if ops != [] {
      OpTold(c, s, io, ops[0]);
      if WriteOp(c, s, io, ops[0]).Ret? {
        OpsTold(c, WriteOp(c, s, io, ops[0]).s, io, ops[1..]);
      }
    }
  }

  /** An event that runs nothing tells nobody. */
  lemma EventTold(c: Ctx, s: Item, e: Event, cl: set<Label>, told: bool)
    requires RuleFor(cl, e).Some? ==> RuleFor(cl, e).value.run.None?
    ensures Told(ApplyEvent(c, s, e, cl, told).s.trace) == Told(s.trace)
  {
    hide RuleFor, Say, Told, WriteOps, LabelOps;
    SaysTold(c, s, true, Row);
    if RuleFor(cl, e).Some? {
      var rule := RuleFor(cl, e).value;
      var s1 := Marked(s, Matched(rule, PendingRun(s)));
      ToldGrows(s.trace, Matched(rule, PendingRun(s)));
      OpsTold(c, s1, c.Enforced(rule.on), LabelOps(cl, rule));
      var d := Disarm(WriteOps(c, s1, c.Enforced(rule.on), LabelOps(cl, rule)).s);
      SaysTold(c, d, true, Row);
      var l := Log(c, d).s;
      ToldGrows(l.trace, AppliedMark(rule.on, l.calls));
    }
  }

  lemma {:induction false} EachIsTold(c: Ctx, s: Item, to: seq<int>)
    ensures var st := ForwardEach(c, s, to); st.Ret? ==> Told(st.s.trace) == Told(s.trace) + |to|
    decreases |to|
  {
    hide Say, Told;
    if to != [] {
      SaysTold(c, s, true, Forwarded);
      var f := Forward(c, s);
      if f.Ret? {
        EachIsTold(c, f.s, to[1..]);
      }
    }
  }

  lemma ExportTold(c: Ctx, s: Item, merged: bool, closes: seq<int>)
    requires NoEdits(c)
    ensures var t := ExportWorkLog(c, s, merged, closes);
      && Told(t.trace) == Told(s.trace) && Rests(s, t) && Counters(s, t) && (!merged ==> t == s)
  {
    hide Say, Read, Told, NoEdits, StuckFree, Fired, Framed;
    UnfiredItself(s);
    if merged {
      FactsCalm(c, s);
      var r := Read(c, s).s;
      CalmCounts(s, r);
      SaysTold(c, r, c.Enforced(Merged), CommentWrite(false));
      SayRests(c, r, c.Enforced(Merged), CommentWrite(false));
      SaysCount(c, r, c.Enforced(Merged), CommentWrite(false));
      RestsOn(s, r, Comment(c, r, c.Enforced(Merged)).s);
      FactsCalm(c, r);
      var q := Read(c, r).s;
      CalmCounts(r, q);
      RestsOn(s, r, q);
      SaysTold(c, q, c.Enforced(Merged), CommentWrite(false));
      SayRests(c, q, c.Enforced(Merged), CommentWrite(false));
      SaysCount(c, q, c.Enforced(Merged), CommentWrite(false));
      RestsOn(s, q, Comment(c, q, c.Enforced(Merged)).s);
    }
  }

  // --- a PR closes ---

  /** The labels a merged PR's close has a rule for. */
  predicate ClosesFrom(l: Label) {
    l in {AutoMerging, ReadyForReview, AiStuck}
  }

  lemma MergedRule(l: Label)
    ensures var found := RuleFor({l}, Merged);
      if ClosesFrom(l) then found.Some? && found.value.to.Close? && found.value.run.None? && After({l}, found.value) == {l}
      else found.None?
  {
    hide DeriveState;
    RuleAlone(l, Merged);
  }

  lemma MergedIs(c: Ctx, s: Item, i: Input)
    requires i.payload.PrClosed? && i.payload.merged
    ensures Translate(i.payload) == Some(Merged) && Allowed(c, i, Merged)
    ensures OnEvent(c, s, i, Merged, s.labels) == Plain(c, s, i, Merged, s.labels, NOTHING_LATER, false)
  {
    hide Plain, DeriveState;
  }

  lemma MergedPlain(c: Ctx, s: Item, i: Input, l: Label)
    requires c.mode && NoEdits(c) && s.labels == {l} && i.payload.PrClosed?
    ensures var st := Plain(c, s, i, Merged, s.labels, NOTHING_LATER, false);
      && Told(st.s.trace) == Told(s.trace)
      && (st.Ret? ==> st.s.labels == {l} && NoneFired(s, st.s) && (ClosesFrom(l) ==> !st.s.open && Idle(st.s)))
      && (st.Ret? && !ClosesFrom(l) ==> Rests(s, st.s))
  {
    hide ApplyEvent, RuleFor, NoEdits, StuckFree, Fired, Moves, After, DeriveState, Told, NoteOverride, Stands;
    MergedRule(l);
    EventTold(c, s, Merged, s.labels, Deliveries.Told(i));
    AppliedMeans(c, s, Merged, s.labels, Deliveries.Told(i));
    if ClosesFrom(l) {
      Closes(c, s, Merged, Deliveries.Told(i));
      EventMoves(c, s, Merged, Deliveries.Told(i));
      MovesSays(c, s, ApplyEvent(c, s, Merged, s.labels, Deliveries.Told(i)), {l});
    } else {
      EventStands(c, s, Merged, Deliveries.Told(i));
      StandsSays(s, ApplyEvent(c, s, Merged, s.labels, Deliveries.Told(i)));
    }
  }

  lemma StandsSays(s: Item, st: Step<Result>)
    requires Stands(s, st)
    ensures Rests(s, st.s)
  {
  }

  /** The delivery of a close: its event, then what it tells, then the drop of a
      fire that only waits. */
  lemma CloseIs(c: Ctx, s: Item, i: Input)
    requires i.payload.PrClosed? && (i.id == NoId || i.id !in s.seen)
    ensures var st := CoordinateWebhook(c, s, i); var p := i.payload; var e := ProcessEvent(c, Claimed(s, i), i);
      st.Ret? ==>
        && e.Ret? && HandOffMerged(c, e.s, p.merged, p.hasCommit, p.closes).Ret?
        && var u := ExportWorkLog(c, HandOffMerged(c, e.s, p.merged, p.hasCommit, p.closes).s, p.merged, p.closes);
           st.s == if Deferred(u) then Disarm(u) else u
  {
    hide ProcessEvent, HandOffMerged, ExportWorkLog;
  }

  lemma MergedEvent(c: Ctx, s: Item, i: Input, l: Label)
    requires c.mode && NoEdits(c) && s.labels == {l} && i.payload.PrClosed? && i.payload.merged
    ensures var st := ProcessEvent(c, s, i);
      st.Ret? ==>
        && Told(st.s.trace) == Told(s.trace) && st.s.labels == {l} && NoneFired(s, st.s)
        && (ClosesFrom(l) ==> !st.s.open && Idle(st.s)) && (!ClosesFrom(l) ==> Rests(s, st.s))
  {
    hide OnEvent, GetLabels, Counts, BotLogin, NoEdits, StuckFree, Translate, Fired, Told, Plain, Rests;
    MergedIs(c, s, i);
    BotGlances(c, s);
    var b := BotLogin(c, s).s;
    GlancedCalm(c, s, b);
    CountsGlances(c, b, i, Merged);
    var n := Counts(c, b, i, Merged).s;
    GlancedCalm(c, b, n);
    LabelsCalm(c, n);
    var g := GetLabels(c, n).s;
    MergedIs(c, g, i);
    MergedPlain(c, g, i, l);
    CalmEvent(s, g, Plain(c, g, i, Merged, g.labels, NOTHING_LATER, false).s);
    Uncounted(c, b, i);
  }

  lemma Uncounted(c: Ctx, s: Item, i: Input)
    requires i.payload.PrClosed?
    ensures Counts(c, s, i, Merged) == Ret(s, true)
  {
  }

  lemma CalmEvent(s: Item, t: Item, u: Item)
    requires Calm(s, t)
    ensures Told(t.trace) == Told(s.trace) && (NoneFired(t, u) ==> NoneFired(s, u)) && (Rests(t, u) ==> Rests(s, u))
  {
  }

  /** A PR was merged, by anyone. Its delivery, once it returns, has told each of
      the issues it closes, once, if the merge has a commit; nothing was fired and
      no limited fire waits any more; and from auto-merging, ready-for-review and
      ai-stuck the PR is closed off with nothing pending, its label left on. */
  lemma MergeTellsItsIssues(c: Ctx, s: Item, i: Input, l: Label)
    requires c.mode && NoEdits(c) && s.labels == {l} && (i.id == NoId || i.id !in s.seen)
    requires i.payload.PrClosed? && i.payload.merged
    ensures var st := CoordinateWebhook(c, s, i);
      st.Ret? ==>
        && Told(st.s.trace) == Told(s.trace) + (if i.payload.hasCommit then |i.payload.closes| else 0)
        && st.s.labels == {l} && NoneFired(s, st.s) && !Deferred(st.s)
        && (ClosesFrom(l) ==> !st.s.open && Idle(st.s))
        && (!ClosesFrom(l) && !Deferred(s) ==> st.s.pending == s.pending && st.s.alarm == s.alarm)
  {
    hide CoordinateWebhook, ProcessEvent, NoEdits, StuckFree, Fired, Told, ForwardEach, ExportWorkLog, Rests, Counters;
    var p := i.payload;
    var s0 := Claimed(s, i);
    CloseIs(c, s, i);
    MergedEvent(c, s0, i, l);
    var e := ProcessEvent(c, s0, i);
    EachIsTold(c, e.s, p.closes);
    ForwardsRest(c, e.s, p.closes);
    var h := HandOffMerged(c, e.s, p.merged, p.hasCommit, p.closes);
    UnfiredItself(e.s);
    ExportTold(c, h.s, p.merged, p.closes);
    RestsAlong(e.s, h.s, ExportWorkLog(c, h.s, p.merged, p.closes));
    RestsFrom(s, i, e.s);
  }

  lemma RestsAlong(s: Item, t: Item, u: Item)
    requires Rests(s, t) && Rests(t, u) && Counters(s, t) && Counters(t, u)
    ensures u.labels == s.labels && u.pending == s.pending && u.alarm == s.alarm && u.open == s.open && NoneFired(s, u)
  {
  }

  lemma RestsFrom(s: Item, i: Input, t: Item)
    ensures Rests(Claimed(s, i), t) ==> t.pending == s.pending && t.alarm == s.alarm
    ensures NoneFired(Claimed(s, i), t) ==> NoneFired(s, t)
    ensures Claimed(s, i).trace == s.trace
  {
  }

  /** A PR closed without a merge tells nobody and moves nothing but a limited
      fire, which is dropped. */
  lemma UnmergedCloseDrops(c: Ctx, s: Item, i: Input)
    requires NoEdits(c) && i.payload.PrClosed? && !i.payload.merged && (i.id == NoId || i.id !in s.seen)
    ensures var st := CoordinateWebhook(c, s, i);
      && st.s.trace == s.trace && st.s.labels == s.labels
      && (st.Ret? ==> if Deferred(s) then Idle(st.s) else st.s.pending == s.pending && st.s.alarm == s.alarm)
  {
    hide NoEdits, StuckFree, BotLogin;
    var s0 := Claimed(s, i);
    BotGlances(c, s0);
    GlancedCalm(c, s0, BotLogin(c, s0).s);
  }

  // --- an issue closes ---

  lemma ClosedRule(l: Label)
    ensures var found := RuleFor({l}, IssueClosed);
      if l == AutoReleasing then found.Some? && found.value.run.None? && After({l}, found.value) == {l} else found.None?
  {
    hide DeriveState;
    RuleAlone(l, IssueClosed);
  }

  lemma ClosedIs(c: Ctx, s: Item, i: Input)
    requires i.payload.IssueClosedNow?
    ensures Translate(i.payload) == Some(IssueClosed) && Allowed(c, i, IssueClosed) && !Human(c, i.payload)
    ensures OnEvent(c, s, i, IssueClosed, s.labels) == Plain(c, s, i, IssueClosed, s.labels, NOTHING_LATER, false)
    ensures Counts(c, s, i, IssueClosed) == Ret(s, true)
  {
    hide Plain, DeriveState;
  }

  lemma ClosedEvent(c: Ctx, s: Item, i: Input, l: Label)
    requires c.mode && NoEdits(c) && s.labels == {l} && i.payload.IssueClosedNow?
    ensures var st := ProcessEvent(c, s, i);
      st.Ret? ==> NoneFired(s, st.s) && st.s.labels == {l} && if l == AutoReleasing then Idle(st.s) else Rests(s, st.s)
  {
    hide OnEvent, GetLabels, BotLogin, NoEdits, StuckFree, Translate, Fired, Plain, Rests, Moves, Counts, After;
    ClosedIs(c, s, i);
    BotGlances(c, s);
    var b := BotLogin(c, s).s;
    GlancedCalm(c, s, b);
    ClosedIs(c, b, i);
    LabelsCalm(c, b);
    var g := GetLabels(c, b).s;
    ClosedIs(c, g, i);
    ClosedRule(l);
    var st := Plain(c, g, i, IssueClosed, g.labels, NOTHING_LATER, false);
    if l == AutoReleasing {
      PlainMoves(c, g, i, IssueClosed, NOTHING_LATER, false);
      MovesSays(c, g, st, {l});
    } else {
      PlainStands(c, g, i, IssueClosed, NOTHING_LATER, false);
      StandsSays(g, st);
      RestsMeans(g, st.s);
    }
    CalmEvent(s, g, st.s);
  }

  lemma RestsMeans(s: Item, t: Item)
    requires Rests(s, t)
    ensures NoneFired(s, t) && t.labels == s.labels && t.pending == s.pending && t.alarm == s.alarm
  {
  }

  lemma IssueCloseIs(c: Ctx, s: Item, i: Input)
    requires i.payload.IssueClosedNow? && (i.id == NoId || i.id !in s.seen)
    ensures var st := CoordinateWebhook(c, s, i); var e := ProcessEvent(c, Claimed(s, i), i);
      st.Ret? ==> e.Ret? && st.s == if Deferred(e.s) then Disarm(e.s) else e.s
  {
    hide ProcessEvent;
  }

  /** An issue was closed: nothing is fired, no limited fire waits any more, and a
      release's run is not watched any longer; any other's still is. */
  lemma ClosedIssueDropsWhatWaits(c: Ctx, s: Item, i: Input, l: Label)
    requires c.mode && NoEdits(c) && s.labels == {l} && i.payload.IssueClosedNow? && (i.id == NoId || i.id !in s.seen)
    ensures var st := CoordinateWebhook(c, s, i);
      st.Ret? ==>
        && NoneFired(s, st.s) && st.s.labels == {l} && !Deferred(st.s)
        && (if l == AutoReleasing || Deferred(s) then Idle(st.s) else st.s.pending == s.pending && st.s.alarm == s.alarm)
  {
    hide CoordinateWebhook, ProcessEvent, NoEdits, StuckFree, Fired, Rests;
    var s0 := Claimed(s, i);
    IssueCloseIs(c, s, i);
    ClosedEvent(c, s0, i, l);
    var e := ProcessEvent(c, s0, i);
    RestsFrom(s, i, e.s);
  }

  // --- the issue's stages ---

  lemma StageRule(labels: set<Label>)
    requires labels == {} || labels == {PrOpen}
    ensures var found := RuleFor(labels, PrMerged);
      found.Some? && found.value.run.None? && After(labels, found.value) == {ReadyForRelease}
  {
    hide DeriveState, RuleFor;
    if labels == {} {
      FromNothing();
    } else {
      RuleAlone(PrOpen, PrMerged);
      Swapped(PrOpen, Rule(At(PrOpen), PrMerged, ToLabel(ReadyForRelease), None));
    }
  }

  lemma FromNothing()
    ensures var rule := Rule(Untracked, PrMerged, ToLabel(ReadyForRelease), None);
      RuleFor({}, PrMerged) == Some(rule) && After({}, rule) == {ReadyForRelease}
  {
    hide DeriveState;
    assert Before({}, PrMerged) == {};
    ReadingMeans({});
  }

  lemma StageIs(c: Ctx, s: Item, i: Input)
    requires i.payload.PrMergedHere? && i.payload.shipped.Some?
    ensures Translate(i.payload) == Some(PrMerged) && Plainly(i) && Allowed(c, i, PrMerged)
    ensures OnEvent(c, s, i, PrMerged, s.labels) == PrMergedStage(c, s, s.labels, i.payload.shipped, Deliveries.Told(i))
  {
    hide PrMergedStage, DeriveState;
  }

  lemma StageMoves(c: Ctx, s: Item, shipped: Option<Shipped>, told: bool)
    requires c.mode && NoEdits(c) && (s.labels == {} || s.labels == {PrOpen}) && shipped.Some?
    ensures var st := PrMergedStage(c, s, s.labels, shipped, told);
      Moves(c, s, st, {ReadyForRelease}, None) && (st.Ret? ==> st.s.shipped == shipped)
  {
    hide ApplyEvent, RuleFor, NoEdits, StuckFree, Fired, Moves, After, Framed;
    StageRule(s.labels);
    EventMoves(c, s, PrMerged, told);
    var st := ApplyEvent(c, s, PrMerged, s.labels, told);
    MovesMeans(c, s, st, {ReadyForRelease}, None);
    UnfiredItself(st.s);
    Itself(s);
    MovesOn(c, s, s, st, PrMergedStage(c, s, s.labels, shipped, told), {ReadyForRelease}, None);
  }

  /** An issue whose PR was merged, open or carrying nothing: it waits for its
      release, its commit on record. */
  lemma MergedIssueWaits(c: Ctx, s: Item, i: Input)
    requires c.mode && NoEdits(c) && (s.labels == {} || s.labels == {PrOpen}) && Unhandled(s, i)
    requires i.payload.PrMergedHere? && i.payload.shipped.Some?
    ensures var st := CoordinateWebhook(c, s, i);
      Moves(c, s, st, {ReadyForRelease}, None) && (st.Ret? ==> st.s.shipped == i.payload.shipped)
  {
    hide OnEvent, CoordinateWebhook, AtEvent, NoEdits, StuckFree, Unhandled, Fired, PrMergedStage, Reached, Translate, Allowed, Moves;
    StageIs(c, s, i);
    Delivers(c, s, i, PrMerged);
    var u := AtEvent(c, s, i, PrMerged);
    ClaimedUnfired(s, i, u);
    var st := CoordinateWebhook(c, s, i);
    if Reached(c, s, i, PrMerged) {
      StageIs(c, u, i);
      StageMoves(c, u, i.payload.shipped, Deliveries.Told(i));
      Lifts(c, s, u, OnEvent(c, u, i, PrMerged, u.labels), st);
    } else {
      StopsShort(c, s, st, {ReadyForRelease}, None);
    }
  }

  /** The release's tag is known, the issue's own commit too, and GitHub says the
      one contains the other. */
  predicate Contained(c: Ctx, s: Item, tag: string, n: nat) {
    tag != "" && s.shipped.Some? && !c.world(n).verdict.Throws? && c.world(n).yes
  }

  lemma ReleasedRule()
    ensures var found := RuleFor({ReadyForRelease}, Event.Released);
      found.Some? && found.value.to.Close? && found.value.run.None? && After({ReadyForRelease}, found.value) == {ReadyForRelease}
  {
    hide DeriveState;
    RuleAlone(ReadyForRelease, Event.Released);
  }

  lemma ReleasedIs(c: Ctx, s: Item, i: Input)
    requires i.payload.ReleasedHere? && i.payload.tag.Some?
    ensures Translate(i.payload) == Some(Event.Released) && Plainly(i) && Allowed(c, i, Event.Released) && !i.payload.Commented?
    ensures OnEvent(c, s, i, Event.Released, s.labels) == ReleasedStage(c, s, s.labels, i.payload.tag.value, Deliveries.Told(i))
  {
    hide ReleasedStage, DeriveState;
  }

  lemma ReleasedMoves(c: Ctx, s: Item, tag: string, told: bool)
    requires c.mode && NoEdits(c) && s.labels == {ReadyForRelease}
    ensures var st := ReleasedStage(c, s, s.labels, tag, told);
      if Contained(c, s, tag, s.calls) then Moves(c, s, st, {ReadyForRelease}, None) && (st.Ret? ==> !st.s.open)
      else Stands(s, st)
  {
    hide ApplyEvent, RuleFor, NoEdits, StuckFree, Fired, Moves, After, Read, DeriveState;
    FactsCalm(c, s);
    ReadEnds(c, s);
    var r := Read(c, s);
    CalmCounts(s, r.s);
    UnfiredItself(s);
    ReleasedRule();
    if Contained(c, s, tag, s.calls) {
      EventMoves(c, r.s, Event.Released, told);
      Closes(c, r.s, Event.Released, told);
      Lifts(c, s, r.s, ApplyEvent(c, r.s, Event.Released, s.labels, told), ReleasedStage(c, s, s.labels, tag, told));
    }
  }

  /** A release was published: a waiting issue closes if and only if the release's
      tag contains its own merge; otherwise it goes on waiting. */
  lemma ReleaseClosesWhatItShips(c: Ctx, s: Item, i: Input)
    requires c.mode && NoEdits(c) && s.labels == {ReadyForRelease} && Unhandled(s, i)
    requires i.payload.ReleasedHere? && i.payload.tag.Some?
    ensures var st := CoordinateWebhook(c, s, i);
      if Contained(c, s, i.payload.tag.value, s.calls + LabelCalls(c)) then
        Moves(c, s, st, {ReadyForRelease}, None) && (st.Ret? ==> !st.s.open)
      else Stands(s, st)
  {
    hide OnEvent, CoordinateWebhook, AtEvent, NoEdits, StuckFree, Unhandled, Fired, ReleasedStage, Reached, Translate, Allowed, Moves, Stands;
    var e := Event.Released;
    ReleasedIs(c, s, i);
    Delivers(c, s, i, e);
    LabelReads(c, s, i, e);
    var u := AtEvent(c, s, i, e);
    ClaimedUnfired(s, i, u);
    SameCounters(s, i, u);
    var st := CoordinateWebhook(c, s, i);
    if Reached(c, s, i, e) {
      ReleasedIs(c, u, i);
      ReleasedMoves(c, u, i.payload.tag.value, Deliveries.Told(i));
      Lifts(c, s, u, OnEvent(c, u, i, e, u.labels), st);
    } else {
      ShortStands(c, s, i, e);
      StopsShort(c, s, st, {ReadyForRelease}, None) by {
        StandsSays(s, st);
      }
    }
  }

  // --- a build hands its PR over ---

  lemma BuiltTold(c: Ctx, s: Item, i: Input, o: O.Outcome)
    requires c.mode && NoEdits(c) && s.labels == {AiReady} && Carries(i, o) && o.BuildDone?
    ensures var st := BuiltStage(c, s, s.labels, i.actor.SignalActor?, i.payload.remark, Deliveries.Told(i));
      st.Ret? ==> Told(st.s.trace) == Told(s.trace) + if Trusted(c, i) && o.pr != c.number then 1 else 0
  {
    hide ApplyEvent, RuleFor, NoEdits, StuckFree, Say, Told, DeriveState;
    OutcomeRule(o, AiReady);
    EventTold(c, s, BuildSucceeded, s.labels, Deliveries.Told(i));
    AppliedMeans(c, s, BuildSucceeded, s.labels, Deliveries.Told(i));
    var st := ApplyEvent(c, s, BuildSucceeded, s.labels, Deliveries.Told(i));
    if st.Ret? {
      var a := TrustedAuthor(c, st.s, i.actor.SignalActor?, i.payload.remark);
      TrustIs(c, st.s, i);
      SaysTold(c, a.s, true, Forwarded);
    }
  }

  lemma TrustIs(c: Ctx, s: Item, i: Input)
    requires i.payload.Commented?
    ensures var a := TrustedAuthor(c, s, i.actor.SignalActor?, i.payload.remark);
      a.s.trace == s.trace && (a.Ret? ==> (a.v <==> Trusted(c, i)))
  {
  }

  lemma BuiltIs(c: Ctx, s: Item, i: Input, o: O.Outcome)
    requires Carries(i, o) && o.BuildDone?
    ensures OnEvent(c, s, i, BuildSucceeded, s.labels)
      == BuiltStage(c, s, s.labels, i.actor.SignalActor?, i.payload.remark, Deliveries.Told(i))
  {
    hide BuiltStage, DeriveState;
  }

  /** A build's report: its PR is handed its review, once, if and only if the
      report is from someone with write access and names another item. */
  lemma BuildHandsItsPullOver(c: Ctx, s: Item, i: Input, o: O.Outcome)
    requires c.mode && NoEdits(c) && s.labels == {AiReady} && Carries(i, o) && o.BuildDone? && Unhandled(s, i)
    ensures var st := CoordinateWebhook(c, s, i);
      st.Ret? ==> Told(st.s.trace) == Told(s.trace) + if Trusted(c, i) && o.pr != c.number then 1 else 0
  {
    hide OnEvent, CoordinateWebhook, AtEvent, NoEdits, StuckFree, Unhandled, Told, BuiltStage, Reached, Translate, Allowed, Trusted;
    Carried(c, i, o);
    Delivers(c, s, i, BuildSucceeded);
    var u := AtEvent(c, s, i, BuildSucceeded);
    if Reached(c, s, i, BuildSucceeded) {
      BuiltIs(c, u, i, o);
      BuiltTold(c, u, i, o);
    }
  }
}
