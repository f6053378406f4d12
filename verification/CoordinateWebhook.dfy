// A delivery's handlers as they are written (worker/src/coordinate/stages.ts,
// release.ts, outcome-dedupe.ts, webhook.ts).

module CoordinateStages {
  import opened Wrappers
  import opened Graph
  import opened Labels
  import opened Items
  import opened Storage
  import opened CoordinateApply
  import Apply
  import Stages

  method ForwardEach(d: Deps, to: seq<int>) returns (r: Try<()>)
    modifies d
    ensures d.Did(r, Stages.ForwardEach(d.c, old(d.View()), to))
  {
    hide Items.Say;
    for i := 0 to |to|
      invariant Stages.ForwardEach(d.c, old(d.View()), to) == Stages.ForwardEach(d.c, d.View(), to[i..])
    {
      assert to[i..][1..] == to[i + 1..];
      var _ :- d.Say(true, Forwarded);
    }
    r := Done(());
  }

  /** A PR merged: pr_merged to each issue its description closes. */
  method HandOffMerged(d: Deps, merged: bool, hasCommit: bool, closes: seq<int>) returns (r: Try<()>)
    modifies d
    ensures d.Did(r, Stages.HandOffMerged(d.c, old(d.View()), merged, hasCommit, closes))
  {
    hide Deps.View;
    if !merged || !hasCommit {
      return Done(());
    }
    r := ForwardEach(d, closes);
  }

  method HandOffReview(d: Deps, pr: int) returns (r: Try<()>)
    modifies d
    ensures d.Did(r, Stages.HandOffReview(d.c, old(d.View()), pr))
  {
    hide Items.Say, Deps.View;
    if pr == d.c.number {
      return Done(());
    }
    r := d.Say(true, Forwarded);
  }

  method HandOffRelease(d: Deps) returns (r: Try<()>)
    modifies d
    ensures d.Did(r, Stages.HandOffRelease(d.c, old(d.View())))
  {
    hide Items.Read, Stages.ForwardEach, Deps.View;
    var waiting :- d.Read();
    r := ForwardEach(d, waiting.numbers);
  }

  /** A merged PR's work log; its own failures are only logged. */
  method ExportWorkLog(d: Deps, merged: bool, closes: seq<int>)
    modifies d
    ensures d.View() == Stages.ExportWorkLog(d.c, old(d.View()), merged, closes)
  {
    hide Items.Read, Items.Comment, Deps.View;
    if !merged {
      return;
    }
    var entries := d.Read();
    if entries.Failed? {
      return;
    }
    var body := entries.value.yes;
    if !body && closes != [] {
      var built := d.Read();
      if built.Failed? {
        return;
      }
      body := built.value.yes;
    }
    if body {
      var said := d.Comment(d.c.Enforced(Merged));
    }
  }

  method PrMergedStage(d: Deps, currentLabels: set<Label>, shipped: Option<Shipped>, told: bool) returns (r: Try<Apply.Result>)
    modifies d
    ensures d.Did(r, Stages.PrMergedStage(d.c, old(d.View()), currentLabels, shipped, told))
  {
    hide Apply.ApplyEvent, Deps.View;
    var result :- ApplyEvent(d, Event.PrMerged, currentLabels, told);
    if result.Applied? && shipped.Some? {
      d.SetShipped(shipped);
    }
    r := Done(result);
  }

  method ReleasedStage(d: Deps, currentLabels: set<Label>, tag: string, told: bool) returns (r: Try<Apply.Result>)
    modifies d
    ensures d.Did(r, Stages.ReleasedStage(d.c, old(d.View()), currentLabels, tag, told))
  {
    hide Apply.ApplyEvent, Items.Read, Stages.StateOf;
    var contained := false;
    if tag != "" && d.shipped.Some? {
      var answer :- d.Read();
      contained := answer.yes;
    }
    if !contained {
      return Done(Apply.Ignored(Stages.StateOf(currentLabels), Event.Released));
    }
    r := ApplyEvent(d, Event.Released, currentLabels, told);
  }

  // --- the release split ---

  method TrustedAuthor(d: Deps, signal: bool, m: Remark) returns (r: Try<bool>)
    modifies d
    ensures d.Did(r, Stages.TrustedAuthor(d.c, old(d.View()), signal, m))
  {
    hide Items.BotLogin, Deps.View;
    if signal {
      return Done(true);
    }
    var _ :- d.BotLogin();
    if d.c.app && m.own {
      return Done(true);
    }
    r := Done(m.trusted);
  }

  /** Merged at the reviewed commit, before or here; a lost answer is looked at
      again. */
  method MergeReviewed(d: Deps, sha: Sha) returns (r: Try<bool>)
    modifies d
    ensures d.Did(r, Stages.MergeReviewed(d.c, old(d.View()), sha))
  {
    hide Items.Read, Items.Say, Deps.View;
    var pr :- d.Read();
    if pr.pull.merged {
      return Done(pr.pull.headSha == sha);
    }
    var merged := d.Say(d.c.Enforced(ReleaseApproved), MergeWrite);
    if merged.Done? {
      return Done(true);
    }
    var again := d.Read();
    r := Done(again.Done? && again.value.pull.merged && again.value.pull.headSha == sha);
  }

  method Refuse(d: Deps, currentLabels: set<Label>, told: bool, result: Apply.Result) returns (r: Try<Apply.Result>)
    modifies d
    ensures d.Did(r, Stages.RefuseRelease(d.c, old(d.View()), currentLabels, told, result))
  {
    hide Apply.ApplyEvent, Items.Comment, Deps.View;
    var _ :- ApplyEvent(d, ReleaseBlocked, currentLabels, told);
    var _ :- d.Comment(d.c.Enforced(ReleaseApproved));
    r := Done(result);
  }

  /** Recorded before the after part fires. */
  method AfterMerge(d: Deps, currentLabels: set<Label>, pr: int, sha: Sha, told: bool) returns (r: Try<Apply.Result>)
    modifies d
    ensures d.Did(r, Stages.AfterMerge(d.c, old(d.View()), currentLabels, pr, sha, told))
  {
    hide Apply.ApplyEvent, Items.Comment, Deps.View;
    if d.c.Enforced(ReleaseApproved) {
      d.SetReleaseMerged(Some(Shipped(pr, sha)));
    }
    var merged :- ApplyEvent(d, ReleaseMerged, currentLabels, told);
    var _ :- d.Comment(d.c.Enforced(ReleaseApproved));
    r := Done(merged);
  }

  method Approved(d: Deps, currentLabels: set<Label>, signal: bool, m: Remark, told: bool) returns (r: Try<Apply.Result>)
    modifies d
    ensures d.Did(r, Stages.ReleaseApprovedStage(d.c, old(d.View()), currentLabels, signal, m, told))
  {
    hide Apply.ApplyEvent, Stages.TrustedAuthor, Stages.MergeReviewed, Stages.AfterMerge, Stages.RefuseRelease, Deps.View;
    if !(m.outcome.Some? && m.outcome.value.ReleaseReady?) {
      return Done(Apply.NoEvent);
    }
    var outcome := m.outcome.value;
    var trusted :- TrustedAuthor(d, signal, m);
    if !trusted {
      return Done(Apply.NoEvent);
    }
    var result :- ApplyEvent(d, ReleaseApproved, currentLabels, told);
    if !result.Applied? {
      return Done(result);
    }
    var merged :- MergeReviewed(d, outcome.sha);
    if !merged {
      r := Refuse(d, currentLabels, told, result);
      return;
    }
    r := AfterMerge(d, currentLabels, outcome.pr, outcome.sha, told);
  }

  method RetryReleasePublish(d: Deps, currentLabels: set<Label>, told: bool) returns (r: Try<Apply.Result>)
    modifies d
    ensures d.Did(r, Stages.RetryReleasePublish(d.c, old(d.View()), currentLabels, told))
  {
    hide Apply.ApplyEvent, WriteLabel, Deps.View;
    var now := currentLabels - {AiStuck};
    var _ :- d.RemoveLabel(AiStuck in currentLabels && d.c.Enforced(ReleaseMerged), AiStuck);
    r := ApplyEvent(d, ReleaseMerged, now, told);
  }

  method Published(d: Deps, currentLabels: set<Label>, signal: bool, m: Remark, told: bool) returns (r: Try<Apply.Result>)
    modifies d
    ensures d.Did(r, Stages.PublishedStage(d.c, old(d.View()), currentLabels, signal, m, told))
  {
    hide Apply.ApplyEvent, Stages.TrustedAuthor, Stages.HandOffRelease, Deps.View;
    var trusted :- TrustedAuthor(d, signal, m);
    if !trusted {
      return Done(Apply.NoEvent);
    }
    var result :- ApplyEvent(d, ReleasePublished, currentLabels, told);
    if result.Applied? && m.outcome.Some? && m.outcome.value.ReleaseOut? {
      d.SetReleaseMerged(None);
      var _ :- HandOffRelease(d);
    }
    r := Done(result);
  }

  method Built(d: Deps, currentLabels: set<Label>, signal: bool, m: Remark, told: bool) returns (r: Try<Apply.Result>)
    modifies d
    ensures d.Did(r, Stages.BuiltStage(d.c, old(d.View()), currentLabels, signal, m, told))
  {
    hide Apply.ApplyEvent, Stages.TrustedAuthor, Stages.HandOffReview, Deps.View;
    var result :- ApplyEvent(d, BuildSucceeded, currentLabels, told);
    if result.Applied? && m.outcome.Some? && m.outcome.value.BuildDone? {
      var trusted :- TrustedAuthor(d, signal, m);
      if trusted {
        var _ :- HandOffReview(d, m.outcome.value.pr);
      }
    }
    r := Done(result);
  }
}

module CoordinateDelivery {
  import opened Wrappers
  import opened Graph
  import opened Labels
  import opened Items
  import opened Deliveries
  import opened Storage
  import opened CoordinateApply
  import opened CoordinateGates
  import opened CoordinateStages
  import Apply
  import Gates
  import Stages
  import Webhook
  import O = Outcomes

  // --- one outcome, two carriers ---

  method AlreadyApplied(d: Deps, run: Routine, name: O.Name) returns (already: bool)
    ensures already == Webhook.AlreadyApplied(d.View(), run, name)
  {
    ghost var s := d.View();
    assert s.outcomes == d.outcomes && s.pending == d.pending;
    hide Deps.View;
    if run !in d.outcomes || d.outcomes[run].name != name {
      return false;
    }
    var newer := d.pending.Some? && d.pending.value.run == run && d.pending.value.firedAt != d.outcomes[run].firedAt;
    already := !newer;
  }

  method RememberApplied(d: Deps, before: Option<Fire>, run: Routine, name: O.Name)
    modifies d
    ensures d.View() == Webhook.Remember(old(d.View()), before, run, name)
  {
    ghost var s := d.View();
    assert s.pending == d.pending;
    if before.None? || before.value.run != run || before.value.deferUntil.Some? {
      assert Webhook.Remember(s, before, run, name) == s;
      return;
    }
    var now := d.pending;
    if now.Some? && now.value.run == run && now.value.firedAt != before.value.firedAt {
      assert Webhook.Remember(s, before, run, name) == s;
      return;
    }
    assert Webhook.Remember(s, before, run, name) == s.(outcomes := s.outcomes[run := Ended(before.value.firedAt, name)]);
    d.SetAppliedOutcome(run, Ended(before.value.firedAt, name));
  }

  method LogDeduped(d: Deps) returns (r: Try<Apply.Result>)
    modifies d
    ensures d.Did(r, Webhook.LogDeduped(d.c, old(d.View())))
  {
    hide Items.GetLabels, Items.Log, Deps.View;
    var _ :- d.GetLabels();
    var _ :- d.Log();
    r := Done(Apply.Deduped);
  }

  // --- a push, and a plain event ---

  /** Whose rework a push ends decides what it is, and clears its pending flag:
      from ai-stuck only later, once the label is off. */
  method EndRework(d: Deps, e: Event, currentLabels: set<Label>) returns (event: Event, wasPending: bool, later: Webhook.Later)
    modifies d
    ensures Webhook.ReworkEnd(d.View(), event, wasPending, later) == Webhook.EndRework(old(d.View()), e, currentLabels)
  {
    hide DeriveState;
    event, wasPending, later := e, false, Webhook.NOTHING_LATER;
    var reworkState := DeriveState(currentLabels);
    if !Webhook.EndsRework(e, reworkState) {
      return;
    }
    var lateFromStuck := e.ReworkPushed? && reworkState == Clear(At(AiStuck));
    var inRework := e.ReworkPushed? && reworkState == Clear(At(AutoReworking));
    var expired := lateFromStuck && d.reworkExpired;
    later := later.(expired := expired);
    wasPending := expired;
    if d.ciFix.Some? && d.ciFix.value.pending {
      wasPending := true;
      if inRework {
        event := if d.ciFix.value.toReview then ReviewFixPushed else CiFixPushed;
      }
      var cleared := Some(d.ciFix.value.(pending := false));
      if lateFromStuck {
        later := later.(ciFix := cleared);
      } else {
        d.SetCiFix(cleared);
      }
    } else if d.rounds.Some? && d.rounds.value.fixPending {
      wasPending := true;
      if inRework {
        event := ReviewFixPushed;
      }
      var cleared := Some(d.rounds.value.(fixPending := false));
      if lateFromStuck {
        later := later.(rounds := cleared);
      } else {
        d.SetReviewLoop(cleared);
      }
    }
  }

  method ClearAfterApply(d: Deps, later: Webhook.Later)
    modifies d
    ensures d.View() == Webhook.ClearLater(old(d.View()), later)
  {
    hide Deps.View;
    if later.ciFix.Some? {
      d.SetCiFix(later.ciFix);
    }
    if later.rounds.Some? {
      d.SetReviewLoop(later.rounds);
    }
    if later.expired {
      d.SetReworkExpired(false);
    }
  }

  method LogManualOverride(d: Deps, known: bool) returns (r: Try<Apply.Result>)
    modifies d
    ensures d.Did(r, Webhook.NoteOverride(d.c, old(d.View()), known))
  {
    hide Items.GetLabels, Items.Log, Deps.View;
    if !known {
      var _ :- d.GetLabels();
    }
    var _ :- d.Log();
    r := Done(Apply.ManualOverride);
  }

  method Settle(d: Deps, currentLabels: set<Label>, result: Apply.Result, later: Webhook.Later, restartReview: bool)
    modifies d
    ensures d.View() == Webhook.Settle(d.c, old(d.View()), currentLabels, result, later, restartReview)
  {
    hide Items.Comment, DeriveState, Webhook.ClearLater, Deps.View;
    if !result.Applied? {
      return;
    }
    ClearAfterApply(d, later);
    if DeriveState(currentLabels) == Clear(At(AiStuck)) && !result.rule.to.Noop? {
      d.SetReworkExpired(false);
    }
    if restartReview {
      var said := d.Comment(d.c.Enforced(LabelledAutoReworking));
    }
  }

  method Plain(d: Deps, i: Input, event: Event, currentLabels: set<Label>, later: Webhook.Later, restartReview: bool)
    returns (r: Try<Apply.Result>)
    modifies d
    ensures d.Did(r, Webhook.Plain(d.c, old(d.View()), i, event, currentLabels, later, restartReview))
  {
    hide Apply.ApplyEvent, Webhook.Settle, Webhook.NoteOverride, Human, Deps.View;
    var result :- ApplyEvent(d, event, currentLabels, Told(i));
    Settle(d, currentLabels, result, later, restartReview);
    if result.Ignored? && Human(d.c, i.payload) {
      r := LogManualOverride(d, true);
      return;
    }
    r := Done(result);
  }

  // --- a person's labels ---

  method OnReworkLabel(d: Deps, i: Input, currentLabels: set<Label>) returns (r: Try<Apply.Result>)
    modifies d
    ensures d.Did(r, Webhook.OnReworkLabel(d.c, old(d.View()), i, currentLabels))
  {
    hide DeriveState, Gates.CapRework, Webhook.Plain;
    var before := DeriveState(currentLabels - {AutoReworking});
    var stuck := before == Clear(At(AiStuck));
    var stuckInReview := stuck && (d.rounds.Some? || (d.ciFix.Some? && d.ciFix.value.toReview));
    var inReview := before == Clear(At(ReadyForReview)) || stuckInReview;
    if before == Clear(Untracked) || stuck {
      var rounds := if stuck then 1 else d.reviewReworks + 1;
      if rounds > d.c.caps.reviewReworks {
        r := CapRework(d, currentLabels, Told(i));
        return;
      }
      d.SetReviewReworks(rounds);
      if stuck {
        d.SetReviewLoop(None);
        d.SetReworkExpired(false);
      }
    }
    var restartReview := inReview && !(d.ciFix.Some? && d.ciFix.value.pending);
    if restartReview {
      d.SetReviewLoop(Some(Rounds(0, true)));
      d.SetCiFix(None);
    }
    r := Plain(d, i, LabelledAutoReworking, currentLabels, Webhook.NOTHING_LATER, restartReview);
  }

  method ReviewLabelOn(d: Deps, currentLabels: set<Label>, told: bool) returns (r: Try<Apply.Result>)
    modifies d
    ensures d.Did(r, Webhook.ReviewLabelOn(d.c, old(d.View()), currentLabels, told))
  {
    hide DeriveState, Apply.ApplyEvent, Gates.ReviewGate;
    if AiReviewing !in currentLabels || (d.pending.Some? && d.pending.value.run == ReviewLoop) {
      return Done(Apply.StaleLabel(LabelledAiReviewing));
    }
    if DeriveState(currentLabels - {AiReviewing}) == Clear(At(AiStuck)) {
      d.ClearCounts();
    }
    var result :- ApplyEvent(d, LabelledAiReviewing, currentLabels, told);
    if !result.Applied? {
      return Done(result);
    }
    var gate :- ReviewGate(d, currentLabels - {AiStuck, AiBlocked, ReadyForReview}, told);
    r := Done(if gate.NoEvent? then result else gate);
  }

  method Dropped(d: Deps, result: Apply.Result) returns (r: Try<Apply.Result>)
    modifies d
    ensures d.Did(r, Webhook.Drop(d.c, old(d.View()), result))
  {
    hide Items.Log, Deps.View;
    var _ :- d.Log();
    r := Done(result);
  }

  method AcceptReview(d: Deps, currentLabels: set<Label>, told: bool) returns (r: Try<Apply.Result>)
    modifies d
    ensures d.Did(r, Webhook.AcceptReview(d.c, old(d.View()), currentLabels, told))
  {
    hide DeriveState, Apply.ApplyEvent, WriteLabel, Webhook.ReviewLabelOn, Webhook.Drop;
    var missing := d.c.world(d.calls).verdict.Throws? && d.c.world(d.calls).verdict.missing;
    var target := d.Read();
    if target.Failed? && !missing {
      return Failed;
    }
    if target.Failed? || !target.value.pull.open {
      r := Dropped(d, Apply.StaleLabel(LabelledAiReviewing));
      return;
    }
    var reading := DeriveState(currentLabels);
    if reading.Ambiguous? {
      r := ApplyEvent(d, LabelledAiReviewing, currentLabels, told);
      return;
    }
    if reading.state.At? {
      r := Dropped(d, Apply.DroppedNoRule(reading.state, LabelledAiReviewing));
      return;
    }
    var _ :- d.AddLabel(d.c.Enforced(LabelledAiReviewing), AiReviewing);
    r := ReviewLabelOn(d, currentLabels + {AiReviewing}, told);
  }

  method OnReviewLabel(d: Deps, i: Input, currentLabels: set<Label>) returns (r: Try<Apply.Result>)
    modifies d
    ensures d.Did(r, Webhook.OnReviewLabel(d.c, old(d.View()), i, currentLabels))
  {
    hide DeriveState, Webhook.AcceptReview, Webhook.ReviewLabelOn, Deps.View;
    if i.payload.ReviewRequested? {
      if AiReviewing !in currentLabels {
        r := AcceptReview(d, currentLabels, Told(i));
        return;
      }
      if DeriveState(currentLabels - {AiReviewing}) != Clear(Untracked) {
        return Done(Apply.StaleLabel(LabelledAiReviewing));
      }
    }
    r := ReviewLabelOn(d, currentLabels, Told(i));
  }

  method OnReviewPassed(d: Deps, currentLabels: set<Label>, told: bool) returns (r: Try<Apply.Result>)
    modifies d
    ensures d.Did(r, Webhook.OnReviewPassed(d.c, old(d.View()), currentLabels, told))
  {
    hide Apply.ApplyEvent, Deps.View;
    var result :- ApplyEvent(d, ReviewPassed, currentLabels, told);
    if result.Applied? {
      d.ClearCounts();
    }
    r := Done(result);
  }

  method OnMergeLabel(d: Deps, i: Input, currentLabels: set<Label>) returns (r: Try<Apply.Result>)
    modifies d
    ensures d.Did(r, Webhook.OnMergeLabel(d.c, old(d.View()), i, currentLabels))
  {
    hide Gates.SettledFacts, Gates.BlockMerge, Gates.HandToRework, Webhook.Plain, Gates.HardBlock, Gates.DeriveGate, Deps.View;
    if AutoMerging !in currentLabels {
      return Done(Apply.StaleLabel(LabelledAutoMerging));
    }
    if MergeBlocked in currentLabels {
      d.SetCiFix(None);
    }
    var facts :- SettledGateFacts(d);
    if Gates.HardBlock(facts) {
      r := BlockMerge(d, currentLabels, MergeGateFailedHard, Told(i));
      return;
    }
    if Gates.DeriveGate(facts) == Gates.Soft {
      r := HandToRework(d, currentLabels, Told(i));
      return;
    }
    r := Plain(d, i, LabelledAutoMerging, currentLabels, Webhook.NOTHING_LATER, false);
  }

  // --- CI ---

  method OnMergeChecks(d: Deps, currentLabels: set<Label>, told: bool) returns (r: Try<Apply.Result>)
    modifies d
    ensures d.Did(r, Webhook.OnMergeChecks(d.c, old(d.View()), currentLabels, told))
  {
    hide Gates.SettledFacts, Gates.BlockMerge, Gates.HandToRework, Apply.ApplyEvent, Gates.HardBlock, Gates.AnyUnfinished,
      Gates.AnyFailed;
    var facts :- SettledGateFacts(d);
    if Gates.AnyUnfinished(facts) {
      return Done(Apply.NoEvent);
    }
    if Gates.HardBlock(facts) {
      r := BlockMerge(d, currentLabels, MergeGateFailedHard, told);
      return;
    }
    if Gates.AnyFailed(facts) {
      r := HandToRework(d, currentLabels, told);
      return;
    }
    if facts.checks == [] || facts.headSha.None? || d.mergeFiredFor == facts.headSha {
      return Done(Apply.NoEvent);
    }
    var result :- ApplyEvent(d, MergeGatePassed, currentLabels, told);
    if result.Applied? {
      d.SetMergeFiredFor(facts.headSha);
    }
    r := Done(result);
  }

  method HandleCheckSuite(d: Deps, completed: bool, told: bool) returns (r: Try<Apply.Result>)
    modifies d
    ensures d.Did(r, Webhook.OnCheckSuite(d.c, old(d.View()), completed, told))
  {
    hide Items.GetLabels, DeriveState, Gates.ReviewGate, Webhook.OnMergeChecks, Deps.View;
    if !completed {
      return Done(Apply.NoEvent);
    }
    var currentLabels :- d.GetLabels();
    if DeriveState(currentLabels) == Clear(At(AiReviewing)) {
      r := ReviewGate(d, currentLabels, told);
      return;
    }
    if AutoMerging !in currentLabels {
      return Done(Apply.NoEvent);
    }
    r := OnMergeChecks(d, currentLabels, told);
  }

  // --- reports, and the route of an event ---

  method OnReport(d: Deps, i: Input, e: Event, currentLabels: set<Label>, m: Remark) returns (r: Try<Apply.Result>)
    modifies d
    ensures d.Did(r, Webhook.OnReport(d.c, old(d.View()), i, e, currentLabels, m))
  {
    hide Stages.ReleaseApprovedStage, Stages.PublishedStage, Gates.BlockMerge, Stages.BuiltStage, Gates.TakeFindings,
      Webhook.OnReviewPassed, Webhook.Plain, DeriveState, Deps.Did, Deps.View;
    var signal := i.actor.SignalActor?;
    match e
    case ReleaseApproved => r := Approved(d, currentLabels, signal, m, Told(i));
    case ReleasePublished => r := Published(d, currentLabels, signal, m, Told(i));
    case MergeBlockReported => r := BlockMerge(d, currentLabels, MergeBlockReported, Told(i));
    case BuildSucceeded => r := Built(d, currentLabels, signal, m, Told(i));
    case ReviewFindings =>
      if DeriveState(currentLabels) == Clear(At(AiReviewing)) {
        r := TakeFindings(d, currentLabels, Told(i));
      } else {
        r := Plain(d, i, e, currentLabels, Webhook.NOTHING_LATER, false);
      }
    case ReviewPassed => r := OnReviewPassed(d, currentLabels, Told(i));
    case _ => r := Plain(d, i, e, currentLabels, Webhook.NOTHING_LATER, false);
  }

  method Route(d: Deps, i: Input, e: Event, currentLabels: set<Label>, later: Webhook.Later) returns (r: Try<Apply.Result>)
    modifies d
    ensures d.Did(r, Webhook.Route(d.c, old(d.View()), i, e, currentLabels, later))
  {
    hide Webhook.OnReport, Webhook.OnReworkLabel, Webhook.OnReviewLabel, Webhook.OnMergeLabel, Stages.RetryReleasePublish,
      Stages.PrMergedStage, Stages.ReleasedStage, Webhook.Plain, Webhook.ReportEvent;
    var p := i.payload;
    if p.Commented? && Webhook.ReportEvent(e) {
      r := OnReport(d, i, e, currentLabels, p.remark);
    } else if e.LabelledAutoReworking? {
      r := OnReworkLabel(d, i, currentLabels);
    } else if e.LabelledAiReviewing? {
      r := OnReviewLabel(d, i, currentLabels);
    } else if e.LabelledAutoMerging? {
      r := OnMergeLabel(d, i, currentLabels);
    } else if e.LabelledAutoReleasing? && d.releaseMerged.Some? {
      if AutoReleasing !in currentLabels {
        return Done(Apply.StaleLabel(e));
      }
      r := RetryReleasePublish(d, currentLabels, Told(i));
    } else if p.PrMergedHere? && e.PrMerged? {
      r := PrMergedStage(d, currentLabels, p.shipped, Told(i));
    } else if p.ReleasedHere? && p.tag.Some? && e.Released? {
      r := ReleasedStage(d, currentLabels, p.tag.value, Told(i));
    } else {
      r := Plain(d, i, e, currentLabels, later, false);
    }
  }

  method OnEvent(d: Deps, i: Input, e: Event, currentLabels: set<Label>) returns (r: Try<Apply.Result>)
    modifies d
    ensures d.Did(r, Webhook.OnEvent(d.c, old(d.View()), i, e, currentLabels))
  {
    hide Webhook.EndRework, Webhook.Route, Webhook.Drop, DeriveState, Deps.View;
    var event, wasPending, later := EndRework(d, e, currentLabels);
    if event.ReworkPushed? && !wasPending && DeriveState(currentLabels) == Clear(At(AiStuck)) {
      r := Dropped(d, Apply.DroppedNoRule(At(AiStuck), event));
      return;
    }
    r := Route(d, i, event, currentLabels, later);
  }

  // --- the delivery ---

  method TakeEvent(d: Deps, i: Input, e: Event) returns (r: Try<Apply.Result>)
    modifies d
    ensures d.Did(r, Webhook.TakeEvent(d.c, old(d.View()), i, e))
  {
    hide Stages.TrustedAuthor, Items.GetLabels, Webhook.OnEvent, Deps.View;
    if i.payload.Commented? && (e.ReworkNoChange? || e.MergeBlockReported? || e.DiscussionCapped?) {
      var trusted :- TrustedAuthor(d, i.actor.SignalActor?, i.payload.remark);
      if !trusted {
        return Done(Apply.NoEvent);
      }
    }
    var currentLabels :- d.GetLabels();
    r := OnEvent(d, i, e, currentLabels);
  }

  method ProcessEvent(d: Deps, i: Input) returns (r: Try<Apply.Result>)
    modifies d
    ensures d.Did(r, Webhook.ProcessEvent(d.c, old(d.View()), i))
  {
    hide Items.BotLogin, Webhook.OnCheckSuite, Webhook.NoteOverride, Webhook.TakeEvent, Translate, Human, Webhook.HasSnapshot,
      Webhook.OnClosedIssue, Deps.View;
    if i.payload.CheckSuite? {
      r := HandleCheckSuite(d, i.payload.completed, Told(i));
      return;
    }
    var _ :- d.BotLogin();
    var event := Translate(i.payload);
    if event.None? {
      if Human(d.c, i.payload) {
        r := LogManualOverride(d, Webhook.HasSnapshot(i.payload));
        return;
      }
      return Done(Apply.NoEvent);
    }
    if Webhook.OnClosedIssue(i.payload) {
      return Done(Apply.ClosedItem(event.value));
    }
    r := TakeEvent(d, i, event.value);
  }

  method AfterClose(d: Deps, p: Payload) returns (r: Try<()>)
    modifies d
    ensures d.Did(r, Webhook.AfterClose(d.c, old(d.View()), p))
  {
    hide Stages.HandOffMerged, Stages.ExportWorkLog;
    if p.PrClosed? {
      var _ :- HandOffMerged(d, p.merged, p.hasCommit, p.closes);
      ExportWorkLog(d, p.merged, p.closes);
    }
    if (p.PrClosed? || p.IssueClosedNow?) && d.pending.Some? && d.pending.value.deferUntil.Some? {
      d.ClearPendingFire();
    }
    r := Done(());
  }

  method ProcessWebhook(d: Deps, i: Input) returns (r: Try<Apply.Result>)
    modifies d
    ensures d.Did(r, Webhook.ProcessWebhook(d.c, old(d.View()), i))
  {
    hide Webhook.ProcessEvent, Webhook.LogDeduped, Webhook.AfterClose, Webhook.AlreadyApplied, Webhook.Remember;
    var p := i.payload;
    if Reports(p) {
      var already := AlreadyApplied(d, p.remark.routine.value, O.NameOf(p.remark.outcome.value));
      if already {
        r := LogDeduped(d);
        return;
      }
    }
    var before := d.pending;
    var result :- ProcessEvent(d, i);
    if Reports(p) && result.Applied? {
      RememberApplied(d, before, p.remark.routine.value, O.NameOf(p.remark.outcome.value));
    }
    var _ :- AfterClose(d, p);
    r := Done(result);
  }

  /** Claimed before it is processed; the claim released if that throws. */
  method CoordinateWebhook(d: Deps, i: Input) returns (r: Try<Apply.Result>)
    modifies d
    ensures d.Did(r, Webhook.CoordinateWebhook(d.c, old(d.View()), i))
  {
    hide Webhook.ProcessWebhook;
    if i.id == NoId {
      r := ProcessWebhook(d, i);
      return;
    }
    if i.id in d.seen {
      return Done(Apply.Deduped);
    }
    d.seen := d.seen + {i.id};
    r := ProcessWebhook(d, i);
    if r.Failed? {
      d.seen := d.seen - {i.id};
    }
  }
}
