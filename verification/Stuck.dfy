// Leaving ai-stuck by a push (worker/src/coordinate/webhook.ts,
// watchdog.ts): only a rework's own late result takes the label off.

module Stuck {
  import opened Wrappers
  import opened Graph
  import opened Labels
  import opened Items
  import opened Apply
  import opened Deliveries
  import opened Webhook
  import opened Runs
  import opened Kinds
  import opened WebhookKeeps
  import opened RunKeeps

  /** The claim of an expiry on the next push is never stale: while the item
      reads ai-stuck and the claim stands, the latest entry into ai-stuck was an
      expiry of rework-loop. */
  predicate ClaimHolds(c: Ctx, s: Item) {
    StuckIsIdle(s) && (AiStuck in s.labels && s.reworkExpired ==> ByReworkExpiry(LastEntry(c, s.trace)))
  }

  /** Nobody adds or takes off ai-stuck by hand between handlers (StuckFree: nor
      while one runs); every other label edit is free. */
  predicate StuckAlone(acts: seq<Act>) {
    forall a | a in acts && a.People? :: AiStuck !in a.came + a.gone
  }

  lemma StuckActsFit(acts: seq<Act>)
    requires StuckAlone(acts)
    ensures forall a | a in acts :: ActFits(StuckBy, a)
  {
  }

  /** It holds in every state of an enforced run without failed calls. */
  lemma ExpiryClaimIsNeverStale(c: Ctx, s: Item, acts: seq<Act>)
    requires c.mode && StuckFree(c) && NoFailures(c) && ClaimHolds(c, s) && StuckAlone(acts)
    ensures ClaimHolds(c, Run(c, s, acts))
  {
    hide Run, ActFits, StuckAlone, StuckFree, NoFailures, LastEntry;
    StuckActsFit(acts);
    KeepRun(c, StuckBy, s, acts);
  }

  /** What a push can be the late result of. */
  predicate LateResult(s: Item) {
    CiFixPending(s) || FixPending(s) || s.reworkExpired
  }

  lemma EndOfNothing(s: Item, cl: set<Label>)
    requires !LateResult(s)
    ensures var p := EndRework(s, ReworkPushed, cl); p.s == s && p.e == ReworkPushed && !p.wasPending
  {
    hide DeriveState;
  }

  lemma PushOnStuck(cl: set<Label>)
    requires AiStuck in cl
    ensures DeriveState(cl) == Clear(At(AiStuck)) || RuleFor(cl, ReworkPushed).None?
  {
    hide Decide;
    ReadingMeans(cl);
  }

  lemma StuckSteady(c: Ctx, s: Item, t: Item)
    requires StuckFree(c) && Steady(c, s, t)
    ensures AiStuck in t.labels <==> AiStuck in s.labels
  {
    hide StuckFree, NoEdits;
  }

  lemma UnmatchedPush(c: Ctx, s: Item, i: Input, cl: set<Label>, later: Later)
    requires StuckFree(c) && i.payload.Pushed? && AiStuck in s.labels && RuleFor(cl, ReworkPushed).None?
    ensures AiStuck in Plain(c, s, i, ReworkPushed, cl, later, false).s.labels
  {
    hide RuleFor, StuckFree, Say, Ready, Steady;
    KeepLog(c, Loose, s) by {
      LooseIsReady(c, s);
    }
    StuckSteady(c, s, Log(c, s).s);
  }

  lemma PushStays(c: Ctx, s: Item, i: Input)
    requires StuckFree(c) && i.payload.Pushed? && AiStuck in s.labels && !LateResult(s)
    ensures AiStuck in OnEvent(c, s, i, ReworkPushed, s.labels).s.labels
  {
    hide EndRework, Plain, DeriveState, RuleFor, StuckFree, Say, Steady, Ready;
    EndOfNothing(s, s.labels);
    PushOnStuck(s.labels);
    LooseIsReady(c, s);
    KeepLog(c, Loose, s);
    StuckSteady(c, s, Log(c, s).s);
    if DeriveState(s.labels) != Clear(At(AiStuck)) {
      UnmatchedPush(c, s, i, s.labels, EndRework(s, ReworkPushed, s.labels).later);
    }
  }

  lemma GlancedLate(c: Ctx, s: Item, t: Item)
    requires StuckFree(c) && Glanced(c, s, t)
    ensures (AiStuck in t.labels <==> AiStuck in s.labels) && (LateResult(t) <==> LateResult(s))
  {
    hide StuckFree, NoEdits;
  }

  /** A push with no rework of the Worker's behind it leaves ai-stuck on. */
  lemma PersonsPushStaysStuck(c: Ctx, s: Item, push: Input)
    requires StuckFree(c) && push.payload.Pushed? && AiStuck in s.labels && !LateResult(s)
    ensures AiStuck in CoordinateWebhook(c, s, push).s.labels
  {
    hide OnEvent, BotLogin, GetLabels, StuckFree;
    var s0 := if push.id == NoId then s else s.(seen := s.seen + {push.id});
    BotGlances(c, s0);
    var s1 := BotLogin(c, s0).s;
    GlancedLate(c, s0, s1);
    LabelsGlance(c, s1);
    var g := GetLabels(c, s1);
    GlancedLate(c, s1, g.s);
    if g.Ret? {
      PushStays(c, g.s, push);
    }
  }

  /** So in such a run a push takes ai-stuck off only as the late result of a
      rework handed out and still pending, or of one whose expiry was the latest
      entry into ai-stuck. */
  lemma PushUnsticksOnlyLateResults(c: Ctx, s: Item, acts: seq<Act>, push: Input)
    requires c.mode && StuckFree(c) && NoFailures(c) && ClaimHolds(c, s) && StuckAlone(acts)
    requires push.payload.Pushed? && AiStuck in Run(c, s, acts).labels
    requires AiStuck !in CoordinateWebhook(c, Run(c, s, acts), push).s.labels
    ensures var u := Run(c, s, acts);
      CiFixPending(u) || FixPending(u) || ByReworkExpiry(LastEntry(c, u.trace))
  {
    hide Run, CoordinateWebhook, StuckAlone, StuckFree, NoFailures, LastEntry;
    ExpiryClaimIsNeverStale(c, s, acts);
    if !LateResult(Run(c, s, acts)) {
      PersonsPushStaysStuck(c, Run(c, s, acts), push);
    }
  }

  lemma NewItemHasNoClaim(c: Ctx, now: int)
    ensures ClaimHolds(c, NewItem(now))
  {
  }
}
