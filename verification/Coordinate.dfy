// The handlers as they are written: each works on one item's Deps step by
// step, and does what the function of the same name says (its own name in
// these modules, the function's qualified). This file: the shared tail
// (worker/src/coordinate/apply.ts) and the gates (merge-gate.ts,
// review-gate.ts).

module CoordinateApply {
  import opened Wrappers
  import opened Graph
  import opened Labels
  import opened Items
  import opened Storage
  import Apply

  method DeferFire(d: Deps, io: bool, run: Routine, retried: bool, unwatched: bool, retryAt: int, redeferral: bool)
    modifies d
    ensures d.View() == Apply.DeferFire(d.c, old(d.View()), io, run, retried, unwatched, retryAt, redeferral)
  {
    hide Items.Comment, Arm;
    var deferUntil := retryAt + (d.c.number % 30) * 1000;
    d.SetPendingFire(Fire(run, false, retried, false, Some(deferUntil), unwatched, 0, d.now));
    if redeferral {
      return;
    }
    var told := d.Comment(io);
  }

  /** Armed before the fire, so that a crash in between leaves the watchdog to
      notice; disarmed if it is refused. */
  method FireWatched(d: Deps, io: bool, run: Routine, retried: bool, redeferral: bool) returns (r: Try<Apply.FireOutcome>)
    modifies d
    ensures d.Did(r, Apply.FireWatched(d.c, old(d.View()), io, run, retried, redeferral))
  {
    hide Apply.DeferFire, Arm, Items.FireRoutine, Disarm, Forget;
    d.ForgetAppliedOutcome(run);
    var alreadyDeferred := d.pending.Some? && d.pending.value.run == run && d.pending.value.deferUntil.Some?;
    ghost var s := d.View();
    assert alreadyDeferred == (Running(s, run) && Deferred(s));
    var f := Fire(run, false, retried, false, None, false, 0, d.now);
    assert f == NewFire(s, run, retried, false, None);
    hide Deps.View, Running, Deferred, NewFire;
    d.SetPendingFire(f);
    var v := d.FireRoutine(io, run);
    if v.RateLimits? {
      DeferFire(d, io, run, retried, false, v.retryAt, redeferral || alreadyDeferred);
      return Done(Apply.PutOff);
    }
    if v.Throws? {
      d.ClearPendingFire();
      return Failed;
    }
    r := Done(Apply.WentOut);
  }

  method FireUnwatched(d: Deps, io: bool, run: Routine, redeferral: bool) returns (r: Try<Apply.FireOutcome>)
    modifies d
    ensures d.Did(r, Apply.FireUnwatched(d.c, old(d.View()), io, run, redeferral))
  {
    hide Apply.DeferFire, Items.FireRoutine, Disarm, Forget;
    d.ForgetAppliedOutcome(run);
    var alreadyDeferred := d.pending.Some? && d.pending.value.run == run && d.pending.value.deferUntil.Some?;
    ghost var s := d.View();
    assert alreadyDeferred == (Running(s, run) && Deferred(s));
    d.ClearPendingFire();
    var v := d.FireRoutine(io, run);
    if v.RateLimits? {
      DeferFire(d, io, run, false, true, v.retryAt, redeferral || alreadyDeferred);
      return Done(Apply.PutOff);
    }
    r := if v.Throws? then Failed else Done(Apply.WentOut);
  }

  /** The calls a rule asks for: its own state's label off, its target's on. */
  method LabelOpsOf(currentLabels: set<Label>, rule: Rule) returns (ops: seq<LabelOp>)
    ensures ops == LabelOps(currentLabels, rule)
  {
    if rule.to.Noop? {
      return [];
    }
    if rule.to.Close? {
      return [CloseOp];
    }
    ops := [];
    if rule.from.At? && rule.to != ToLabel(rule.from.lane) && rule.from.lane in currentLabels {
      ops := ops + [RemoveOp(rule.from.lane)];
    }
    if rule.to.ToLabel? && rule.from != At(rule.to.value) && rule.to.value !in currentLabels {
      ops := ops + [AddOp(rule.to.value)];
    }
  }

  method WriteOps(d: Deps, io: bool, ops: seq<LabelOp>) returns (r: Try<()>)
    modifies d
    ensures d.Did(r, Apply.WriteOps(d.c, old(d.View()), io, ops))
  {
    hide WriteLabel, Items.CloseIssue;
    for i := 0 to |ops|
      invariant Apply.WriteOps(d.c, old(d.View()), io, ops) == Apply.WriteOps(d.c, d.View(), io, ops[i..])
    {
      assert ops[i..][1..] == ops[i + 1..];
      match ops[i]
      case AddOp(l) => var _ :- d.AddLabel(io, l);
      case RemoveOp(l) => var _ :- d.RemoveLabel(io, l);
      case CloseOp => var _ :- d.CloseIssue(io);
    }
    r := Done(());
  }

  method ReportRefusedFire(d: Deps, io: bool, told: bool)
    modifies d
    ensures d.View() == Apply.ReportRefused(d.c, old(d.View()), io, told)
  {
    hide Items.Log, Items.Comment, Deps.View;
    var logged := d.Log();
    if !told {
      return;
    }
    var said := d.Comment(io);
  }

  method FireOrClear(d: Deps, io: bool, rule: Rule, told: bool) returns (r: Try<()>)
    modifies d
    ensures d.Did(r, Apply.FireOrClear(d.c, old(d.View()), io, rule, told))
  {
    hide Apply.FireWatched, Apply.FireUnwatched, Apply.ReportRefused, IsWatched, Deps.View;
    if rule.run.None? {
      d.ClearPendingFire();
      return Done(());
    }
    var fired: Try<Apply.FireOutcome>;
    if IsWatched(Apply.Target(rule)) {
      fired := FireWatched(d, io, rule.run.value, false, false);
    } else {
      fired := FireUnwatched(d, io, rule.run.value, false);
    }
    if fired.Failed? {
      ReportRefusedFire(d, io, told);
      return Failed;
    }
    r := Done(());
  }

  /** A matched rule: its label calls, its fire or the end of one, its row. */
  method RuleCalls(d: Deps, rule: Rule, currentLabels: set<Label>, told: bool) returns (r: Try<()>)
    modifies d
    ensures d.Did(r, Apply.RuleCalls(d.c, old(d.View()), rule, currentLabels, told))
  {
    hide Apply.WriteOps, Apply.FireOrClear, Items.Log, LabelOps, Deps.View;
    var io := d.c.Enforced(rule.on);
    var ops := LabelOpsOf(currentLabels, rule);
    var _ :- WriteOps(d, io, ops);
    var _ :- FireOrClear(d, io, rule, told);
    r := d.Log();
  }

  method ApplyRule(d: Deps, rule: Rule, currentLabels: set<Label>, told: bool) returns (r: Try<Apply.Result>)
    modifies d
    ensures d.Did(r, Apply.ApplyRule(d.c, old(d.View()), rule, currentLabels, told))
  {
    hide Apply.RuleCalls;
    d.Note(Matched(rule, PendingRun(d.View())));
    var _ :- RuleCalls(d, rule, currentLabels, told);
    d.Note(AppliedMark(rule.on, d.calls));
    r := Done(Apply.Applied(rule));
  }

  /** The shared tail: an event against the labels in hand. */
  method ApplyEvent(d: Deps, event: Event, currentLabels: set<Label>, told: bool) returns (r: Try<Apply.Result>)
    modifies d
    ensures d.Did(r, Apply.ApplyEvent(d.c, old(d.View()), event, currentLabels, told))
  {
    hide Apply.ApplyRule, Items.Log, DeriveState, Decide, Before, Contextual, Deps.View;
    var reading := DeriveState(Before(currentLabels, event));
    if reading.Ambiguous? {
      var _ :- d.Log();
      return Done(Apply.AmbiguousState);
    }
    var current := reading.state;
    var found := Decide(current, event);
    if found.None? && Contextual(event) {
      return Done(Apply.Ignored(current, event));
    }
    if found.None? {
      var _ :- d.Log();
      return Done(Apply.DroppedNoRule(current, event));
    }
    r := ApplyRule(d, found.value, currentLabels, told);
  }
}

module CoordinateGates {
  import opened Wrappers
  import opened Graph
  import opened Labels
  import opened Items
  import opened Storage
  import opened CoordinateApply
  import Apply
  import Gates

  /** Read again while `mergeable` is unknown, a bounded number of times. */
  method SettledGateFacts(d: Deps) returns (r: Try<Facts>)
    modifies d
    ensures d.Did(r, Gates.SettledFacts(d.c, old(d.View())))
  {
    hide Items.Read;
    var first :- d.Read();
    var facts := first.facts;
    var i := 0;
    while i < Gates.MERGEABLE_RETRIES && facts.mergeable.None?
      invariant i <= Gates.MERGEABLE_RETRIES
      invariant Gates.SettledFacts(d.c, old(d.View())) == Gates.SettleMore(d.c, d.View(), facts, Gates.MERGEABLE_RETRIES - i)
    {
      var again :- d.Read();
      facts := again.facts;
      i := i + 1;
    }
    r := Done(facts);
  }

  method BlockMerge(d: Deps, currentLabels: set<Label>, event: Event, told: bool) returns (r: Try<Apply.Result>)
    modifies d
    ensures d.Did(r, Gates.BlockMerge(d.c, old(d.View()), currentLabels, event, told))
  {
    hide Apply.ApplyEvent, Items.Comment, Deps.View;
    var result :- ApplyEvent(d, event, currentLabels, told);
    if result.Applied? {
      var _ :- d.Comment(d.c.Enforced(event));
    }
    r := Done(result);
  }

  method HandToRework(d: Deps, currentLabels: set<Label>, told: bool) returns (r: Try<Apply.Result>)
    modifies d
    ensures d.Did(r, Gates.HandToRework(d.c, old(d.View()), currentLabels, told))
  {
    hide Apply.ApplyEvent, Items.Comment, WriteLabel, Gates.BlockMerge;
    var attempts := if d.ciFix.Some? then d.ciFix.value.attempts else 0;
    if attempts >= d.c.caps.ciFixAttempts {
      r := BlockMerge(d, currentLabels, MergeGateFailedHard, told);
      return;
    }
    var result :- ApplyEvent(d, MergeGateFailedSoft, currentLabels, told);
    if result.Applied? {
      var _ :- d.RemoveLabel(MergeBlocked in currentLabels && d.c.Enforced(MergeGateFailedSoft), MergeBlocked);
      d.SetCiFix(Some(CiFix(attempts + 1, true, false)));
      var _ :- d.Comment(d.c.Enforced(MergeGateFailedSoft));
    }
    r := Done(result);
  }

  /** Past a cap: to ai-stuck, saying why. */
  method CapRework(d: Deps, currentLabels: set<Label>, told: bool) returns (r: Try<Apply.Result>)
    modifies d
    ensures d.Did(r, Gates.CapRework(d.c, old(d.View()), currentLabels, told))
  {
    hide Apply.ApplyEvent, Items.Comment, Deps.View;
    var result :- ApplyEvent(d, ReworkCapReached, currentLabels, told);
    if result.Applied? {
      d.SetReworkExpired(false);
      var _ :- d.Comment(d.c.Enforced(ReworkCapReached));
    }
    r := Done(result);
  }

  method HandReviewToRework(d: Deps, currentLabels: set<Label>, told: bool) returns (r: Try<Apply.Result>)
    modifies d
    ensures d.Did(r, Gates.HandReviewToRework(d.c, old(d.View()), currentLabels, told))
  {
    hide Apply.ApplyEvent, Items.Comment, Gates.CapRework;
    var attempts := if d.ciFix.Some? then d.ciFix.value.attempts else 0;
    if attempts >= d.c.caps.ciFixAttempts {
      r := CapRework(d, currentLabels, told);
      return;
    }
    var result :- ApplyEvent(d, ReviewCiFailed, currentLabels, told);
    if result.Applied? {
      d.SetCiFix(Some(CiFix(attempts + 1, true, true)));
      var _ :- d.Comment(d.c.Enforced(ReviewCiFailed));
    }
    r := Done(result);
  }

  method ReviewGate(d: Deps, currentLabels: set<Label>, told: bool) returns (r: Try<Apply.Result>)
    modifies d
    ensures d.Did(r, Gates.ReviewGate(d.c, old(d.View()), currentLabels, told))
  {
    hide Items.Read, Items.Log, Gates.HandReviewToRework, Apply.ApplyEvent, Gates.AnyUnfinished, Gates.AnyFailed;
    if d.pending.Some? && d.pending.value.run == ReviewLoop {
      var _ :- d.Log();
      return Done(Apply.NoEvent);
    }
    var answer :- d.Read();
    var facts := answer.facts;
    if facts.checks == [] || Gates.AnyUnfinished(facts) {
      return Done(Apply.NoEvent);
    }
    if Gates.AnyFailed(facts) {
      r := HandReviewToRework(d, currentLabels, told);
      return;
    }
    r := ApplyEvent(d, ReviewCiPassed, currentLabels, told);
  }

  method TakeFindings(d: Deps, currentLabels: set<Label>, told: bool) returns (r: Try<Apply.Result>)
    modifies d
    ensures d.Did(r, Gates.TakeFindings(d.c, old(d.View()), currentLabels, told))
  {
    hide Apply.ApplyEvent, Items.Comment, Gates.CapRework;
    var rounds := (if d.rounds.Some? then d.rounds.value.botRounds else 0) + 1;
    if rounds > d.c.caps.botReviewReworks {
      r := CapRework(d, currentLabels, told);
      return;
    }
    var result :- ApplyEvent(d, Event.ReviewFindings, currentLabels, told);
    if result.Applied? {
      d.SetReviewLoop(Some(Rounds(rounds, true)));
      var _ :- d.Comment(d.c.Enforced(Event.ReviewFindings));
    }
    r := Done(result);
  }
}
