// One outcome, two carriers (worker/src/coordinate/outcome-dedupe.ts): the
// routine's signal and its comment apply an outcome once between them.

module Carriers {
  import opened Wrappers
  import opened Graph
  import opened Items
  import opened Apply
  import opened Deliveries
  import opened Webhook
  import opened Signals
  import opened Runs
  import opened Kinds
  import opened RunKeeps
  import opened Releases
  import O = Outcomes

  /** This delivery carries this outcome of this routine. */
  predicate Carries(i: Input, run: Routine, name: O.Name) {
    Reports(i.payload) && i.payload.remark.routine == Some(run) && O.NameOf(i.payload.remark.outcome.value) == name
  }

  /** An outcome that applied while its routine's own fire was pending is
      remembered against that fire, unless applying it started a newer one. */
  lemma AppliedIsRemembered(c: Ctx, s: Item, i: Input, run: Routine, name: O.Name)
    requires Carries(i, run, name) && Running(s, run) && !Deferred(s)
    requires var st := CoordinateWebhook(c, s, i);
      st.Ret? && st.v.Applied? && (Running(st.s, run) ==> st.s.pending.value.firedAt == s.pending.value.firedAt)
    ensures var t := CoordinateWebhook(c, s, i).s;
      run in t.outcomes && t.outcomes[run] == Ended(s.pending.value.firedAt, name)
  {
    hide ProcessEvent, LogDeduped, Tally, Unmoved;
    var s1 := if i.id == NoId then s else s.(seen := s.seen + {i.id});
    DedupedIsUnmoved(c, s1);
    var e := ProcessEvent(c, s1, i);
    if !SecondCarrier(s1, i.payload) && e.Ret? {
      assert AfterClose(c, RememberReport(e.s, s1.pending, i.payload, e.v), i.payload)
          == Ret(RememberReport(e.s, s1.pending, i.payload, e.v), ());
    }
  }

  /** One that did start a newer run is not: that run's own report will count. */
  lemma NewerRunIsNotSpent(c: Ctx, s: Item, i: Input, run: Routine, name: O.Name)
    requires Carries(i, run, name) && Running(s, run)
    requires var st := CoordinateWebhook(c, s, i);
      st.Ret? && st.v.Applied? && Running(st.s, run) && st.s.pending.value.firedAt != s.pending.value.firedAt
    ensures var s1 := if i.id == NoId then s else s.(seen := s.seen + {i.id});
      CoordinateWebhook(c, s, i).s.outcomes == ProcessEvent(c, s1, i).s.outcomes
  {
    hide ProcessEvent, LogDeduped, Tally, Unmoved;
    var s1 := if i.id == NoId then s else s.(seen := s.seen + {i.id});
    DedupedIsUnmoved(c, s1);
    var e := ProcessEvent(c, s1, i);
    if !SecondCarrier(s1, i.payload) && e.Ret? {
      assert AfterClose(c, RememberReport(e.s, s1.pending, i.payload, e.v), i.payload)
          == Ret(RememberReport(e.s, s1.pending, i.payload, e.v), ());
    }
  }

  /** Nothing an item holds has moved but its clock, and its log. */
  predicate Unmoved(c: Ctx, s: Item, t: Item) {
    && t == s.(now := t.now, calls := t.calls, labels := t.labels, seen := t.seen, trace := t.trace)
    && Tally(t.trace, Fires) == Tally(s.trace, Fires)
    && Tally(t.trace, Writes) == Tally(s.trace, Writes)
  }

  lemma UnmovedOnward(c: Ctx, s: Item, t: Item, u: Item)
    requires Unmoved(c, s, t) && Unmoved(c, t, u)
    ensures Unmoved(c, s, u)
  {
  }

  lemma LabelsUnmoved(c: Ctx, s: Item)
    ensures Unmoved(c, s, GetLabels(c, s).s) && Unmoved(c, s, BotLogin(c, s).s)
  {
  }

  lemma RowUnmoved(c: Ctx, s: Item)
    ensures Unmoved(c, s, Log(c, s).s) && (NoEdits(c) ==> Log(c, s).s.labels == s.labels)
  {
    hide Tally;
    TallyGrows(s.trace, Row, Fires);
    TallyGrows(s.trace, Row, Writes);
  }

  lemma DedupedIsUnmoved(c: Ctx, s: Item)
    ensures var st := LogDeduped(c, s);
      Unmoved(c, s, st.s) && (NoEdits(c) ==> st.s.labels == s.labels) && (st.Ret? ==> st.v.Deduped?)
  {
    hide GetLabels, Log, Unmoved, NoEdits, StuckFree, Glanced;
    LabelsUnmoved(c, s);
    LabelsGlance(c, s);
    var g := GetLabels(c, s).s;
    GlancedLabels(c, s, g);
    RowUnmoved(c, g);
    UnmovedOnward(c, s, g, Log(c, g).s);
  }

  lemma GlancedLabels(c: Ctx, s: Item, t: Item)
    requires Glanced(c, s, t)
    ensures NoEdits(c) ==> t.labels == s.labels
  {
  }

  /** The outcome is spent: every carrier of it, a comment or a signal, moves
      nothing, and one that returns was taken for a duplicate. */
  ghost predicate Spent(c: Ctx, s: Item, run: Routine, name: O.Name) {
    && (forall i | Carries(i, run, name) :: SpentDelivery(c, s, i))
    && (forall o, q | O.NameOf(o) == name :: SpentSignal(c, s, run, o, q))
  }

  ghost predicate SpentDelivery(c: Ctx, s: Item, i: Input) {
    var st := CoordinateWebhook(c, s, i);
    Unmoved(c, s, st.s) && (NoEdits(c) ==> st.s.labels == s.labels) && (st.Ret? ==> st.v.Deduped?)
  }

  ghost predicate SpentSignal(c: Ctx, s: Item, run: Routine, o: O.Outcome, q: bool) {
    var st := OnSignal(c, s, Report(run, o, q));
    Unmoved(c, s, st.s) && (NoEdits(c) ==> st.s.labels == s.labels) && (st.Ret? ==> st.v.SignalDeduped?)
  }

  lemma SecondDelivery(c: Ctx, s: Item, i: Input, run: Routine, name: O.Name)
    requires run in s.outcomes && s.outcomes[run].name == name && !Running(s, run) && Carries(i, run, name)
    ensures SpentDelivery(c, s, i)
  {
    hide LogDeduped, ProcessEvent, Tally, NoEdits, StuckFree;
    var s1 := s.(seen := s.seen + {i.id});
    DedupedIsUnmoved(c, s);
    DedupedIsUnmoved(c, s1);
  }

  lemma SecondSignal(c: Ctx, s: Item, o: O.Outcome, q: bool, run: Routine, name: O.Name)
    requires run in s.outcomes && s.outcomes[run].name == name && !Running(s, run) && O.NameOf(o) == name
    ensures SpentSignal(c, s, run, o, q)
  {
    hide LogDeduped, OnLive, Tally, NoEdits, StuckFree;
    DedupedIsUnmoved(c, s);
  }

  /** A remembered outcome's carrier, either one, is a logged no-op. */
  lemma RememberedIsDeduped(c: Ctx, s: Item, run: Routine, name: O.Name)
    requires run in s.outcomes && s.outcomes[run].name == name && !Running(s, run)
    ensures Spent(c, s, run, name)
  {
    hide SpentDelivery, SpentSignal, Carries;
    forall i | Carries(i, run, name)
      ensures SpentDelivery(c, s, i)
    {
      SecondDelivery(c, s, i, run, name);
    }
    forall o, q | O.NameOf(o) == name
      ensures SpentSignal(c, s, run, o, q)
    {
      SecondSignal(c, s, o, q, run, name);
    }
  }

  /** And it stays spent through any acts that do not start its routine. */
  lemma StaysSpent(c: Ctx, t: Item, run: Routine, name: O.Name, acts: seq<Act>)
    requires run in t.outcomes && t.outcomes[run].name == name && !Running(t, run)
    requires Tally(Run(c, t, acts).trace, Starts(run)) == Tally(t.trace, Starts(run))
    ensures Spent(c, Run(c, t, acts), run, name)
  {
    hide Spent, Run, ActFits, Tally;
    var k := Remembers(run, t.outcomes[run], Tally(t.trace, Starts(run)));
    AnyActFits(k, acts);
    KeepRun(c, k, t, acts);
    RememberedIsDeduped(c, Run(c, t, acts), run, name);
  }

  /** Once a comment carrying an outcome of `run` has applied for its fire and
      ended it, then through any further events of any kind, until `run` is
      next started, every later carrier of that outcome moves nothing: not the
      labels, the counters or the pending fire, and it fires nothing. */
  lemma AppliedOnce(c: Ctx, s: Item, i: Input, run: Routine, name: O.Name, acts: seq<Act>)
    requires Carries(i, run, name) && Running(s, run) && !Deferred(s)
    requires var st := CoordinateWebhook(c, s, i); st.Ret? && st.v.Applied? && !Running(st.s, run)
    requires var t := CoordinateWebhook(c, s, i).s;
      Tally(Run(c, t, acts).trace, Starts(run)) == Tally(t.trace, Starts(run))
    ensures Spent(c, Run(c, CoordinateWebhook(c, s, i).s, acts), run, name)
  {
    hide CoordinateWebhook, Run, Tally, Spent, Carries;
    AppliedIsRemembered(c, s, i, run, name);
    StaysSpent(c, CoordinateWebhook(c, s, i).s, run, name, acts);
  }

  /** A signal that applied is remembered too: its own delivery remembers it,
      and what the signal does after that ends the fire. */
  lemma SignalIsRemembered(c: Ctx, s: Item, run: Routine, o: O.Outcome, q: bool)
    requires Live(s, run)
    requires var st := OnSignal(c, s, Report(run, o, q));
      st.Ret? && st.v.Reported? && st.v.result.Applied? && !Running(st.s, run)
    ensures var t := OnSignal(c, s, Report(run, o, q)).s;
      run in t.outcomes && t.outcomes[run] == Ended(s.pending.value.firedAt, O.NameOf(o))
  {
    hide CoordinateWebhook, LogDeduped;
    AppliedIsRemembered(c, s, SignalInput(s.pending.value, o, q), run, O.NameOf(o));
  }

  /** So it is with the routine's own signal as the first carrier. */
  lemma SignalledOnce(c: Ctx, s: Item, run: Routine, o: O.Outcome, q: bool, acts: seq<Act>)
    requires Live(s, run)
    requires var st := OnSignal(c, s, Report(run, o, q));
      st.Ret? && st.v.Reported? && st.v.result.Applied? && !Running(st.s, run)
    requires var t := OnSignal(c, s, Report(run, o, q)).s;
      Tally(Run(c, t, acts).trace, Starts(run)) == Tally(t.trace, Starts(run))
    ensures Spent(c, Run(c, OnSignal(c, s, Report(run, o, q)).s, acts), run, O.NameOf(o))
  {
    hide OnSignal, Run, Tally, Spent;
    SignalIsRemembered(c, s, run, o, q);
    StaysSpent(c, OnSignal(c, s, Report(run, o, q)).s, run, O.NameOf(o), acts);
  }
}
