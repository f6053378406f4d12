// What a delivery comes to, from its payload to the item it leaves
// (worker/src/coordinate/webhook.ts).

module Delivering {
  import opened Wrappers
  import opened Graph
  import opened Labels
  import opened Items
  import opened Apply
  import opened Deliveries
  import opened Webhook
  import opened Watchdog
  import opened Kinds
  import opened Keeps
  import opened GateKeeps
  import opened WebhookKeeps
  import opened Fires
  import O = Outcomes

  /** The item is moved to carry just `to`, and `run` is the one thing fired for
      it, if anything is. Returned, the step has applied: the labels are on, and
      what is pending is the run (watched, but for a discussion; or deferred) or
      nothing. Thrown, it has fired nothing else. */
  predicate Moves(c: Ctx, s: Item, st: Step<Result>, to: set<Label>, run: Option<Routine>) {
    && (NoneFired(s, st.s) || (run.Some? && Launched(c, s, st.s, run.value)))
    && (st.Ret? ==>
          && st.v.Applied? && st.s.labels == to
          && match run
             case None => NoneFired(s, st.s) && Idle(st.s)
             case Some(r) => Launched(c, s, st.s, r) && !Reply(st.s).Throws?)
  }

  /** `run` was tried, once, and the API's answer says what is pending now. */
  predicate Launched(c: Ctx, s: Item, t: Item, run: Routine) {
    FiredOnce(s, t, run) && Leaves(c, s, t, run, run != IssueDiscussLoop, false)
  }

  /** Nothing fired; what is pending, and the labels, as they were. */
  predicate Rests(s: Item, t: Item) {
    Unfired(s, t) && t.labels == s.labels
  }

  lemma MovesOn(c: Ctx, s: Item, s1: Item, st1: Step<Result>, st: Step<Result>, to: set<Label>, run: Option<Routine>)
    requires NoneFired(s, s1) && s.now <= s1.now && Moves(c, s1, st1, to, run) && Rests(st1.s, st.s)
    requires st.Ret? ==> st1.Ret? && st.v.Applied?
    ensures Moves(c, s, st, to, run)
  {
    hide Fired, Leaves, Reply;
    if run.Some? {
      LeavesOn(c, s, s1, st1.s, st.s, run.value, run.value != IssueDiscussLoop, false);
    }
  }

  lemma StopsShort(c: Ctx, s: Item, st: Step<Result>, to: set<Label>, run: Option<Routine>)
    requires Unfired(s, st.s) && st.Thr?
    ensures Moves(c, s, st, to, run)
  {
  }

  // --- an event ---

  lemma RunsWatched(s: State, e: Event)
    requires Decide(s, e).Some? && Decide(s, e).value.run.Some?
    ensures WatchedEnd(Decide(s, e).value) <==> Decide(s, e).value.run != Some(IssueDiscussLoop)
  {
    hide Decide;
    RunsLeadHome(s, e);
  }

  /** An enforced event that has a rule moves the item to the labels the rule
      means, and fires what the rule runs; no counter or record moves. */
  lemma EventMoves(c: Ctx, s: Item, e: Event, told: bool)
    requires NoEdits(c) && c.Enforced(e) && RuleFor(s.labels, e).Some?
    ensures var st := ApplyEvent(c, s, e, s.labels, told); var rule := RuleFor(s.labels, e).value;
      && Moves(c, s, st, After(s.labels, rule), rule.run) && Framed(s, st.s) && (st.Ret? ==> st.v == Applied(rule))
  {
    hide ApplyEvent, RuleFor, NoEdits, StuckFree, After, Fired, Leaves, Reply, WatchedEnd, Framed, Decide;
    var rule := RuleFor(s.labels, e).value;
    RuleForNames(s.labels, e);
    EventFires(c, s, e, s.labels, told);
    AppliedLabels(c, s, e, s.labels, told);
    AppliedMeans(c, s, e, s.labels, told);
    ApplyFrames(c, s, e, s.labels, told);
    if rule.run.Some? {
      RunsWatched(rule.from, e);
    }
  }

  // --- up to the event, and after it ---

  /** Only time and the call count. */
  predicate Calm(s: Item, t: Item) {
    t == s.(now := t.now, calls := t.calls) && s.now <= t.now
  }

  lemma GlancedCalm(c: Ctx, s: Item, t: Item)
    requires NoEdits(c) && Glanced(c, s, t)
    ensures Calm(s, t)
  {
  }

  lemma CalmRests(s: Item, t: Item)
    requires Calm(s, t)
    ensures Rests(s, t) && Framed(s, t)
  {
  }

  lemma SayRests(c: Ctx, s: Item, io: bool, m: Mark)
    requires NoEdits(c) && !m.FireTried?
    ensures Rests(s, Say(c, s, io, m).s) && Framed(s, Say(c, s, io, m).s)
  {
    hide Say, NoEdits, StuckFree, Fired, Framed;
    SaysUnfired(c, s, io, m);
    SayReturns(c, s, io, m);
    SayFrames(c, s, io, m);
  }

  /** This outcome of `run` was not applied since its last fire. */
  predicate Unspent(s: Item, run: Routine, name: O.Name) {
    || run !in s.outcomes
    || s.outcomes[run].name != name
    || (s.pending.Some? && s.pending.value.run == run && s.pending.value.firedAt != s.outcomes[run].firedAt)
  }

  /** A delivery not handled before, carrying no outcome applied before. */
  predicate Unhandled(s: Item, i: Input) {
    && (i.id == NoId || i.id !in s.seen)
    && (Reports(i.payload) ==> Unspent(s, i.payload.remark.routine.value, O.NameOf(i.payload.remark.outcome.value)))
  }

  /** The item once the delivery is claimed. */
  function Claimed(s: Item, i: Input): Item {
    if i.id == NoId then s else s.(seen := s.seen + {i.id})
  }

  /** Someone with write access, where the outcome needs one. */
  predicate Allowed(c: Ctx, i: Input, e: Event) {
    i.payload.Commented? && (e.ReworkNoChange? || e.MergeBlockReported? || e.DiscussionCapped?) ==> Trusted(c, i)
  }

  predicate Trusted(c: Ctx, i: Input) {
    i.actor.SignalActor? || (i.payload.Commented? && ((c.app && i.payload.remark.own) || i.payload.remark.trusted))
  }

  /** The item once the labels were read for the delivery's event, every call up
      to there through. */
  function AtEvent(c: Ctx, s: Item, i: Input, e: Event): Item {
    GetLabels(c, Counts(c, BotLogin(c, Claimed(s, i)).s, i, e).s).s
  }

  predicate Reached(c: Ctx, s: Item, i: Input, e: Event) {
    var b := BotLogin(c, Claimed(s, i));
    b.Ret? && var n := Counts(c, b.s, i, e); n.Ret? && GetLabels(c, n.s).Ret?
  }

  /** A step, and the same once remembered and released. */
  predicate Same(st1: Step<Result>, st: Step<Result>) {
    && (st.Ret? <==> st1.Ret?) && (st.Ret? ==> st.v == st1.v)
    && st.s == st1.s.(outcomes := st.s.outcomes, seen := st.s.seen)
  }

  predicate Plainly(i: Input) {
    !i.payload.CheckSuite? && !i.payload.PrClosed? && !i.payload.IssueClosedNow? && !OnClosedIssue(i.payload)
  }

  lemma Wraps(c: Ctx, s: Item, i: Input)
    requires Unhandled(s, i) && !i.payload.PrClosed? && !i.payload.IssueClosedNow?
    ensures Same(ProcessEvent(c, Claimed(s, i), i), CoordinateWebhook(c, s, i))
  {
    hide ProcessEvent;
  }

  lemma ReadCalm(c: Ctx, s: Item, i: Input, e: Event)
    requires NoEdits(c)
    ensures Calm(Claimed(s, i), AtEvent(c, s, i, e))
    ensures var b := BotLogin(c, Claimed(s, i)).s; Calm(Claimed(s, i), b) && Calm(Claimed(s, i), Counts(c, b, i, e).s)
    ensures Reached(c, s, i, e) ==> GetLabels(c, Counts(c, BotLogin(c, Claimed(s, i)).s, i, e).s).v == s.labels
  {
    hide GetLabels, Counts, BotLogin, NoEdits, StuckFree;
    var b := BotLogin(c, Claimed(s, i)).s;
    BotGlances(c, Claimed(s, i));
    GlancedCalm(c, Claimed(s, i), b);
    CountsGlances(c, b, i, e);
    var n := Counts(c, b, i, e).s;
    GlancedCalm(c, b, n);
    LabelsGlance(c, n);
    GlancedCalm(c, n, GetLabels(c, n).s);
  }

  lemma Allows(c: Ctx, s: Item, i: Input, e: Event)
    requires Allowed(c, i, e) && Counts(c, s, i, e).Ret?
    ensures Counts(c, s, i, e).v
  {
  }

  /** A delivery is its event against the labels just read, unless a call before
      that threw. */
  lemma Delivers(c: Ctx, s: Item, i: Input, e: Event)
    requires NoEdits(c) && Unhandled(s, i) && Plainly(i) && Translate(i.payload) == Some(e) && Allowed(c, i, e)
    ensures var st := CoordinateWebhook(c, s, i); var u := AtEvent(c, s, i, e);
      && Calm(Claimed(s, i), u)
      && (Reached(c, s, i, e) ==> Same(OnEvent(c, u, i, e, u.labels), st))
      && (!Reached(c, s, i, e) ==> st.Thr? && Rests(s, st.s))
  {
    hide CoordinateWebhook, OnEvent, GetLabels, Counts, BotLogin, NoEdits, StuckFree, Translate, Unhandled, Fired;
    Wraps(c, s, i);
    ReadCalm(c, s, i, e);
    var s0 := Claimed(s, i);
    var b := BotLogin(c, s0);
    if b.Ret? && Counts(c, b.s, i, e).Ret? {
      Allows(c, b.s, i, e);
    }
  }

  lemma ClaimedUnfired(s: Item, i: Input, u: Item)
    requires Calm(Claimed(s, i), u)
    ensures Unfired(s, u) && Framed(Claimed(s, i), u) && u.labels == s.labels
  {
  }

  lemma SameRests(st1: Step<Result>, st: Step<Result>)
    requires Same(st1, st)
    ensures Rests(st1.s, st.s)
  {
  }

  /** So what its event does there, the delivery does. */
  lemma Delivered(c: Ctx, s: Item, i: Input, e: Event, to: set<Label>, run: Option<Routine>)
    requires NoEdits(c) && Unhandled(s, i) && Plainly(i) && Translate(i.payload) == Some(e) && Allowed(c, i, e)
    requires var u := AtEvent(c, s, i, e); Moves(c, u, OnEvent(c, u, i, e, u.labels), to, run)
    ensures Moves(c, s, CoordinateWebhook(c, s, i), to, run)
  {
    hide CoordinateWebhook, OnEvent, AtEvent, Reached, NoEdits, StuckFree, Translate, Unhandled, Moves, Rests, Calm, Same, Allowed, Plainly;
    Delivers(c, s, i, e);
    var u := AtEvent(c, s, i, e);
    ClaimedUnfired(s, i, u);
    var st := CoordinateWebhook(c, s, i);
    if Reached(c, s, i, e) {
      SameRests(OnEvent(c, u, i, e, u.labels), st);
      SameMeans(OnEvent(c, u, i, e, u.labels), st);
      Returned(c, u, OnEvent(c, u, i, e, u.labels), to, run);
      MovesOn(c, s, u, OnEvent(c, u, i, e, u.labels), st, to, run);
    } else {
      RestsUnfired(s, st.s);
      StopsShort(c, s, st, to, run);
    }
  }

  lemma RestsUnfired(s: Item, t: Item)
    requires Rests(s, t)
    ensures Unfired(s, t)
  {
  }

  lemma SameMeans(st1: Step<Result>, st: Step<Result>)
    requires Same(st1, st)
    ensures (st.Ret? <==> st1.Ret?) && (st.Ret? ==> st.v == st1.v)
  {
  }

  lemma Returned(c: Ctx, s: Item, st: Step<Result>, to: set<Label>, run: Option<Routine>)
    requires Moves(c, s, st, to, run)
    ensures st.Ret? ==> st.v.Applied?
  {
  }
}
