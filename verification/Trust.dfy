// Whose report counts (worker/src/coordinate/release.ts's trustedAuthor,
// webhook.ts): an outcome that merges code, closes an issue or takes a label
// off is acted on only for someone with write access.

module Trust {
  import opened Wrappers
  import opened Graph
  import opened Labels
  import opened Items
  import opened Apply
  import opened Deliveries
  import opened Stages
  import opened Webhook
  import opened Kinds
  import opened Carriers
  import O = Outcomes

  /** The outcomes that need a trusted author. */
  predicate Guarded(name: O.Name) {
    name.NReleaseApproved? || name.NReleasePublished? || name.NReworkNoChange? || name.NMergeBlocked? || name.NDiscussionCapped?
  }

  /** A comment whose author may not write, reporting one of them. */
  predicate Untrusted(c: Ctx, i: Input) {
    && i.payload.Commented? && i.payload.remark.outcome.Some? && Guarded(O.NameOf(i.payload.remark.outcome.value))
    && !i.actor.SignalActor? && !i.payload.remark.trusted && !(c.app && i.payload.remark.own)
  }

  /** Nothing moved, and nothing applied. */
  predicate Idle(c: Ctx, s: Item, st: Step<Result>) {
    Unmoved(c, s, st.s) && (st.Ret? ==> st.v.NoEvent? || st.v.Deduped?)
  }

  lemma UntrustedAuthor(c: Ctx, s: Item, i: Input)
    requires Untrusted(c, i)
    ensures var st := TrustedAuthor(c, s, false, i.payload.remark);
      Unmoved(c, s, st.s) && (st.Ret? ==> !st.v)
  {
  }

  /** The release reports: read against the labels, and refused there. */
  lemma RefusedReport(c: Ctx, s: Item, i: Input, e: Event, cl: set<Label>)
    requires Untrusted(c, i) && e == OutcomeEvent(i.payload.remark.outcome.value) && (e.ReleaseApproved? || e.ReleasePublished?)
    ensures Idle(c, s, OnEvent(c, s, i, e, cl))
  {
    hide TrustedAuthor, DeriveState, ApplyEvent, MergeRelease, Unmoved;
    UntrustedAuthor(c, s, i);
    Same(c, s);
  }

  lemma Same(c: Ctx, s: Item)
    ensures Unmoved(c, s, s)
  {
  }

  lemma RefusedEvent(c: Ctx, s: Item, i: Input, e: Event)
    requires Untrusted(c, i) && e == OutcomeEvent(i.payload.remark.outcome.value)
    ensures Idle(c, s, TakeEvent(c, s, i, e))
  {
    hide TrustedAuthor, OnEvent, GetLabels, Unmoved;
    UntrustedAuthor(c, s, i);
    LabelsUnmoved(c, s);
    var g := GetLabels(c, s);
    if e.ReleaseApproved? || e.ReleasePublished? {
      if g.Ret? {
        RefusedReport(c, g.s, i, e, g.v);
        UnmovedOnward(c, s, g.s, OnEvent(c, g.s, i, e, g.v).s);
      }
    }
  }

  /** A comment by someone without write access that reports a release, a merge
      block, a rework with nothing to push or a full discussion moves nothing:
      not the labels, the counters, the record of a release or the pending
      fire, and it writes, merges and fires nothing. */
  lemma UntrustedReportMovesNothing(c: Ctx, s: Item, i: Input)
    requires Untrusted(c, i)
    ensures Idle(c, s, ProcessWebhook(c, s, i))
  {
    hide LogDeduped, SecondCarrier, BotLogin, TakeEvent, Unmoved;
    DedupedIsUnmoved(c, s);
    LabelsUnmoved(c, s);
    var s1 := BotLogin(c, s).s;
    RefusedEvent(c, s1, i, OutcomeEvent(i.payload.remark.outcome.value));
    UnmovedOnward(c, s, s1, TakeEvent(c, s1, i, OutcomeEvent(i.payload.remark.outcome.value)).s);
  }
}
