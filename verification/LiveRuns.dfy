// A run that is out (worker/src/coordinate/routine-signal.ts, watchdog.ts):
// what its signals, its timeout, its one retry and its lost comment come to.

module LiveRuns {
  import opened Wrappers
  import opened Graph
  import opened Labels
  import opened Items
  import opened Apply
  import opened Deliveries
  import opened Webhook
  import opened Watchdog
  import opened Signals
  import opened Kinds
  import opened Keeps
  import opened Fires
  import opened Delivering
  import opened Steps
  import opened Gatekeeping
  import opened ReviewKeeping
  import opened Reports
  import O = Outcomes

  // --- its signals ---

  /** The run is still out, having reported a step, its watchdog armed for a full
      timeout from now; nothing else has moved. */
  predicate Extends(c: Ctx, s: Item, t: Item, blocked: bool) {
    && s.pending.Some?
    && var f := s.pending.value;
       && t.pending == Some(f.(stepped := true, blocked := blocked, dueAt := s.now + c.timeout(f.run)))
       && t.alarm == Some(s.now + c.timeout(f.run)) && t.completed.None? && t.labels == s.labels && Counters(s, t) && NoneFired(s, t)
  }

  /** A step the live run reports extends it. */
  lemma StepExtends(c: Ctx, s: Item, run: Routine)
    requires Live(s, run)
    ensures var st := OnSignal(c, s, Process(run)); st.Ret? && Extends(c, s, st.s, s.pending.value.blocked) && st.s.trace == s.trace
  {
    hide Fired, AlreadyApplied, ApplyOutcome, NoteBlocked, EndFire, RefuseSignal, LogDeduped;
  }

  /** Its completion ends it: the fire and its alarm are gone, the run is marked
      completed, and nothing else has moved. */
  lemma CompletionEnds(c: Ctx, s: Item, run: Routine)
    requires Live(s, run)
    ensures var st := OnSignal(c, s, Completion(run));
      && st.Ret? && Idle(st.s) && st.s.completed == Some(s.now)
      && st.s.labels == s.labels && Counters(s, st.s) && st.s.trace == s.trace
  {
    hide AlreadyApplied, ApplyOutcome, NoteBlocked, EndFire, RefuseSignal, LogDeduped;
  }

  /** A permission it waits for extends it, and is said on the item at most
      once. */
  lemma BlockedIsSaidOnce(c: Ctx, s: Item, run: Routine)
    requires Live(s, run) && NoEdits(c)
    ensures var st := OnSignal(c, s, Signal.Blocked(run));
      && st.Ret? && Extends(c, s, st.s, true)
      && (st.s.trace == s.trace || (!s.pending.value.blocked && st.s.trace == s.trace + [CommentWrite(false)]))
  {
    hide Fired, NoEdits, StuckFree, Framed, Say, AlreadyApplied, ApplyOutcome, EndFire, RefuseSignal, LogDeduped;
    var t := Arm(c, s, s.pending.value.(stepped := true, blocked := true));
    SayRests(c, t, c.mode, CommentWrite(false));
    SaysCount(c, t, c.mode, CommentWrite(false));
    SayAdds(c, t, c.mode, CommentWrite(false));
  }

  lemma SayAdds(c: Ctx, s: Item, io: bool, m: Mark)
    ensures var t := Say(c, s, io, m).s; t.trace == s.trace || t.trace == s.trace + [m]
  {
  }

  /** A signal of a run that is not out moves nothing. */
  lemma SignalOfAnotherRun(c: Ctx, s: Item, sig: Signal)
    requires NoEdits(c) && !sig.Invalid? && !Live(s, sig.run) && (sig.Report? ==> Unspent(s, sig.run, O.NameOf(sig.outcome)))
    ensures var st := OnSignal(c, s, sig); Rests(s, st.s) && Counters(s, st.s) && (st.Ret? ==> st.v.NoFire? || st.v.Mismatched?)
  {
    hide Say, NoEdits, StuckFree, Fired, Framed;
    SayRests(c, s, true, Row);
    SaysCount(c, s, true, Row);
    UnfiredItself(s);
  }

  // --- its lost comment ---

  /** A comment of this run: its marker's, and not from before the fire. */
  predicate Mine(f: Fire, n: Note) {
    n.remark.routine == Some(f.run) && n.createdAt >= f.firedAt
  }

  /** Comments that are not the run's own are passed over. */
  lemma {:induction false} PassedOver(c: Ctx, s: Item, f: Fire, notes: seq<Note>, j: nat, k: nat)
    requires k <= j <= |notes| && forall m | k <= m < j :: !Mine(f, notes[m])
    ensures TryNotes(c, s, f, notes, j) == TryNotes(c, s, f, notes, k)
    decreases j
  {
    hide CoordinateWebhook;
    if j > k {
      assert !Mine(f, notes[j - 1]);
      PassedOver(c, s, f, notes, j - 1, k);
    }
  }

  lemma NothingToRecover(c: Ctx, s: Item, f: Fire)
    requires NoEdits(c) && forall n | n in c.world(s.calls).notes :: !Mine(f, n)
    ensures var m := MaybeRecover(c, s, f); m.Ret? && m.v.None? && Rests(s, m.s) && Counters(s, m.s)
    ensures MaybeRecover(c, s, f).s.calls <= s.calls + 1 && (c.Enforced(WatchdogExpired) ==> MaybeRecover(c, s, f).s.calls == s.calls + 1)
  {
    hide NoEdits, StuckFree, TryNotes, Fired, Read;
    FactsCalm(c, s);
    var r := Read(c, s);
    CalmCounts(s, r.s);
    UnfiredItself(s);
    if r.Ret? {
      PassedOver(c, r.s, f, r.v.notes, |r.v.notes|, 0);
      NoNotes(c, r.s, f, r.v.notes);
    }
  }

  lemma NoNotes(c: Ctx, s: Item, f: Fire, notes: seq<Note>)
    ensures TryNotes(c, s, f, notes, 0) == Ret(s, None)
  {
  }

  /** The run's newest comment, its webhook lost: recovered, and its outcome
      takes the item where its own delivery would have, and ends the run. */
  lemma NewestCommentIsRecovered(c: Ctx, s: Item, f: Fire, k: nat, o: O.Outcome, from: Label)
    requires c.Enforced(WatchdogExpired) && NoEdits(c) && s.labels == {from} && s.pending == Some(f)
    requires var notes := c.world(s.calls).notes;
      && k < |notes| && Mine(f, notes[k]) && (forall m | k < m < |notes| :: !Mine(f, notes[m]))
      && Carries(Replay(f, notes[k]), o) && (NeedsTrust(o) ==> Trusted(c, Replay(f, notes[k])))
      && Unhandled(s, Replay(f, notes[k]))
    requires !DoesMore(o, from) && EndsOn(o, from).Some?
    ensures var m := MaybeRecover(c, s, f);
      m.Ret? && m.v.Some? ==> m.s.labels == EndsOn(o, from).value && Idle(m.s) && NoneFired(s, m.s) && !m.s.reworkExpired
    ensures MaybeRecover(c, s, f).Ret? && !c.world(s.calls).verdict.Throws? && MaybeRecover(c, s, f).v.None? ==>
      CoordinateWebhook(c, Read(c, s).s, Replay(f, c.world(s.calls).notes[k])).Thr?
  {
    hide NoEdits, StuckFree, TryNotes, Fired, Read, CoordinateWebhook, Replay, Trusted, Unhandled, Moves, Recovered;
    FactsCalm(c, s);
    ReadEnds(c, s);
    var r := Read(c, s);
    var notes := c.world(s.calls).notes;
    if r.Ret? {
      PassedOver(c, r.s, f, notes, |notes|, k + 1);
      UnhandledLater(s, r.s, Replay(f, notes[k]));
      OutcomeMovesItsItem(c, r.s, Replay(f, notes[k]), o, from);
      TriesNote(c, r.s, f, notes, k);
      var st := CoordinateWebhook(c, r.s, Replay(f, notes[k]));
      MovesSaid(c, r.s, st, EndsOn(o, from).value);
      if st.Ret? {
        RecoveredSays(c, st.s, f, st.v);
      }
    }
  }

  lemma UnhandledLater(s: Item, t: Item, i: Input)
    requires Calm(s, t) && Unhandled(s, i)
    ensures Unhandled(t, i)
  {
  }

  lemma TriesNote(c: Ctx, s: Item, f: Fire, notes: seq<Note>, k: nat)
    requires k < |notes| && Mine(f, notes[k])
    ensures var st := CoordinateWebhook(c, s, Replay(f, notes[k])); var m := TryNotes(c, s, f, notes, k + 1);
      && (st.Thr? ==> m == if SameFire(st.s, f) then Ret(st.s, None) else Thr(st.s))
      && (st.Ret? && st.v.Applied? ==> m == Recovered(c, st.s, f, st.v))
  {
    hide CoordinateWebhook, Recovered;
  }

  lemma MovesSaid(c: Ctx, s: Item, st: Step<Result>, to: set<Label>)
    requires Moves(c, s, st, to, None)
    ensures NoneFired(s, st.s) && (st.Ret? ==> st.v.Applied? && st.s.labels == to && Idle(st.s))
  {
    hide Fired;
  }

  lemma RecoveredSays(c: Ctx, s: Item, f: Fire, r: Result)
    requires NoEdits(c) && Idle(s)
    ensures var m := Recovered(c, s, f, r); m.s.labels == s.labels && Idle(m.s) && NoneFired(s, m.s) && (m.Ret? ==> m.v.Some?)
  {
    hide Say, NoEdits, StuckFree, Fired, Framed;
    SayRests(c, s, true, Row);
  }

  // --- its timeout ---

  lemma ExpiryRule(l: Label)
    ensures var found := RuleFor({l}, WatchdogExpired);
      if l in WATCHED then found.Some? && found.value.run.None? && After({l}, found.value) == {AiStuck} else found.None?
  {
    hide DeriveState;
    RuleAlone(l, WatchdogExpired);
    if l in WATCHED {
      assert {l} - {l} + {AiStuck} == {AiStuck};
    }
  }

  /** The expiry: the item goes to ai-stuck from a label whose run is watched,
      claiming the next push if its run was a rework; it stays where it is from
      any other; and nothing is pending. */
  lemma ExpiryStrands(c: Ctx, s: Item, f: Fire, l: Label)
    requires c.Enforced(WatchdogExpired) && NoEdits(c) && s.labels == {l}
    ensures var st := Expire(c, s, f);
      && NoneFired(s, st.s)
      && (st.Ret? ==> st.s.labels == (if l in WATCHED then {AiStuck} else {l}) && Idle(st.s))
      && (st.Ret? && l in WATCHED ==> (st.s.reworkExpired <==> f.run == ReworkLoop))
  {
    hide ApplyEvent, RuleFor, NoEdits, StuckFree, Fired, Moves, After, Say, DeriveState, Framed, GetLabels;
    LabelsCalm(c, s);
    var g := GetLabels(c, s).s;
    CalmCounts(s, g);
    SayRests(c, g, true, CommentWrite(true));
    var s3 := PutExpired(Say(c, g, true, CommentWrite(true)).s, f.run == ReworkLoop);
    ExpiryRule(l);
    if l in WATCHED {
      EventMoves(c, s3, WatchdogExpired, false);
      ApplyFrames(c, s3, WatchdogExpired, s3.labels, false);
      FramedExpired(s3, ApplyEvent(c, s3, WatchdogExpired, s3.labels, false).s);
      AppliedMeans(c, s3, WatchdogExpired, s3.labels, false);
      MovesSaid(c, s3, ApplyEvent(c, s3, WatchdogExpired, s3.labels, false), {AiStuck});
    } else {
      EventStands(c, s3, WatchdogExpired, false);
    }
  }

  /** The fire may be sent once more instead. */
  predicate OnceMore(c: Ctx, f: Fire) {
    c.retry && !f.retried && !f.stepped
  }

  lemma NoMore(c: Ctx, s: Item, f: Fire)
    requires !OnceMore(c, f)
    ensures MaybeRetry(c, s, f) == Ret(s, None)
  {
    hide DeriveState, Decide;
  }

  lemma WatchedReading(l: Label)
    ensures DeriveState({l}) == Clear(At(l)) && (Decide(At(l), WatchdogExpired).Some? <==> l in WATCHED)
  {
    hide DeriveState;
    ReadingMeans({l});
  }

  lemma RetriesIt(c: Ctx, s: Item, f: Fire, l: Label)
    requires c.Enforced(WatchdogExpired) && NoEdits(c) && s.labels == {l} && l in WATCHED && OnceMore(c, f)
    requires !c.world(s.calls).verdict.Throws?
    ensures var m := MaybeRetry(c, s, f);
      && FiredOnce(s, m.s, f.run) && Leaves(c, s, m.s, f.run, true, true)
      && (m.Ret? ==> (m.v == Some(Retried) <==> Reply(m.s).Accepts?) && (m.v.None? <==> Reply(m.s).Throws?))
  {
    hide FireWatched, DeriveState, Decide, NoEdits, StuckFree, Fired, Say, GetLabels, Reply, Framed, Quietly;
    LabelsCalm(c, s);
    LabelsEnd(c, s);
    WatchedReading(l);
    var g := GetLabels(c, s).s;
    CalmCounts(s, g);
    WatchedFire(c, g, f.run, true, false);
    var w := FireWatched(c, g, true, f.run, true, false);
    SayRests(c, w.s, true, CommentWrite(false));
    var k := Comment(c, w.s, true);
    SayRests(c, k.s, true, Row);
    RestsOn(w.s, k.s, Log(c, k.s).s);
    UnfiredItself(w.s);
    LeavesOn(c, s, g, w.s, MaybeRetry(c, s, f).s, f.run, true, true);
  }

  lemma LabelsEnd(c: Ctx, s: Item)
    ensures GetLabels(c, s).Ret? <==> !c.world(s.calls).verdict.Throws?
  {
  }

  lemma ExpiryFiresNothing(c: Ctx, s: Item, f: Fire)
    requires NoEdits(c)
    ensures NoneFired(s, Expire(c, s, f).s)
  {
    hide ApplyEvent, RuleFor, NoEdits, StuckFree, Fired, Say, DeriveState, GetLabels, Leaves, Framed;
    LabelsCalm(c, s);
    var g := GetLabels(c, s);
    SayRests(c, g.s, c.Enforced(WatchdogExpired), CommentWrite(true));
    if g.Ret? {
      var t := Say(c, g.s, c.Enforced(WatchdogExpired), CommentWrite(true)).s;
      var u := if c.Enforced(WatchdogExpired) then PutExpired(t, f.run == ReworkLoop) else t;
      EventFires(c, u, WatchdogExpired, g.v, false);
      RunsNothing(g.v);
    }
  }

  lemma RunsNothing(cl: set<Label>)
    ensures RuleFor(cl, WatchdogExpired).Some? ==> RuleFor(cl, WatchdogExpired).value.run.None?
  {
    hide DeriveState;
  }

  /** What the one retry comes to: the run sent again, once; sent, it is watched
      for a full timeout and marked as retried. */
  predicate SentAgain(c: Ctx, s: Item, st: Step<WatchdogResult>, run: Routine) {
    && FiredOnce(s, st.s, run)
    && (st.Ret? && Reply(st.s).Accepts? ==> st.v.Retried? && Watching(c, s, st.s, run, true))
  }

  lemma SentOnward(c: Ctx, s: Item, m: Item, f: Fire, l: Label)
    requires c.Enforced(WatchdogExpired) && NoEdits(c) && m.labels == {l} && l in WATCHED && OnceMore(c, f) && Unfired(s, m)
    requires !c.world(m.calls).verdict.Throws?
    ensures SentAgain(c, s, ExpireOrRetry(c, m, f), f.run)
  {
    hide MaybeRetry, Expire, NoEdits, StuckFree, Fired, Watching, Deferring;
    RetriesIt(c, m, f, l);
    var t := MaybeRetry(c, m, f);
    UnfiredItself(t.s);
    LeavesOn(c, s, m, t.s, t.s, f.run, true, true);
    if t.Ret? && t.v.None? {
      ExpiryFiresNothing(c, t.s, f);
    }
  }

  /** Due, but for half its timeout or a minute at most. */
  predicate DueBy(c: Ctx, s: Item, f: Fire) {
    f.dueAt - s.now <= 60_000 && 2 * (f.dueAt - s.now) <= c.timeout(f.run)
  }

  lemma DueIsNotEarly(c: Ctx, s: Item, f: Fire)
    ensures DueBy(c, s, f) <==> !Early(c, s, f)
  {
  }

  /** A due run with no comment of its own to recover: if it may be sent once
      more it is, once, watched for a full timeout and marked as retried; if not,
      it expires to ai-stuck and nothing is fired or pending. */
  lemma TimedOut(c: Ctx, s: Item, l: Label)
    requires c.Enforced(WatchdogExpired) && NoEdits(c) && s.labels == {l} && l in WATCHED
    requires s.pending.Some? && !Deferred(s) && DueBy(c, s, s.pending.value)
    requires forall n | n in c.world(s.calls).notes :: !Mine(s.pending.value, n)
    ensures var f := s.pending.value; var st := OnAlarm(c, s);
      if OnceMore(c, f) then !c.world(s.calls + 1).verdict.Throws? ==> SentAgain(c, s, st, f.run)
      else NoneFired(s, st.s) && (st.Ret? ==> st.s.labels == {AiStuck} && Idle(st.s) && (st.s.reworkExpired <==> f.run == ReworkLoop))
  {
    hide MaybeRecover, MaybeRetry, Expire, SendDeferred, NoEdits, StuckFree, Fired, Watching, Deferring, Early;
    var f := s.pending.value;
    DueIsNotEarly(c, s, f);
    NothingToRecover(c, s, f);
    var m := MaybeRecover(c, s, f).s;
    if OnceMore(c, f) {
      if !c.world(s.calls + 1).verdict.Throws? {
        SentOnward(c, s, m, f, l);
      }
    } else {
      NoMore(c, m, f);
      ExpiryStrands(c, m, f, l);
    }
  }

  /** And a run that was sent again, or has reported a step, never is. */
  lemma OnlyOnce(c: Ctx, s: Item)
    requires s.pending.Some? && (s.pending.value.retried || s.pending.value.stepped)
    ensures var st := OnAlarm(c, s); st.Ret? ==> !st.v.Retried?
  {
    hide MaybeRecover, Expire, FireWatched, FireUnwatched, GetLabels, DeriveState, StillWanted, DropDeferred, Early, Say;
    NoMore(c, MaybeRecover(c, s, s.pending.value).s, s.pending.value);
  }

  /** A run that says it ended without an outcome, with no comment of its own to
      recover, expires at once, however long it still had, and is not sent
      again. */
  lemma EndedExpiresAtOnce(c: Ctx, s: Item, run: Routine, l: Label)
    requires c.Enforced(WatchdogExpired) && NoEdits(c) && Live(s, run) && s.labels == {l} && l in WATCHED
    requires forall n | n in c.world(s.calls).notes :: !Mine(s.pending.value, n)
    ensures var st := OnSignal(c, s, EndedEarly(run));
      NoneFired(s, st.s) && (st.Ret? ==> st.s.labels == {AiStuck} && Idle(st.s))
  {
    hide MaybeRecover, Expire, NoEdits, StuckFree, Fired;
    var f := s.pending.value;
    NothingToRecover(c, s, f);
    ExpiryStrands(c, MaybeRecover(c, s, f).s, f, l);
  }
}
