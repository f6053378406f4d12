// The transition table of the orchestrator (graph/graph.ts): tracked labels,
// events, routines, the rules as data, the first-match reducer over them, and
// the label calls a matched rule asks for (graph/github/to-github.ts).

module Wrappers {
  datatype Option<+T> = None | Some(value: T)

  type Byte = n: nat | n < 256 witness 0
}

module Graph {
  import opened Wrappers

  datatype Label =
    | AiReady | PrOpen | AiBlocked | AutoReleasing | AiDiscussing | AutoReworking
    | AutoMerging | AiStuck | MergeBlocked | AiReviewing | ReadyForRelease | ReadyForReview

  datatype Event =
    // issue lifecycle
    | LabelledAiReady | BuildSucceeded | BuildBlocked | LabelledAutoReleasing | ReleaseBlocked
    | ReleasePublished | ReleaseApproved | ReleaseMerged | LabelledAiDiscussing | DiscussionReply
    | UnlabelledAiReady | UnlabelledAutoReleasing | IssueClosed
    // PR lifecycle
    | LabelledAutoReworking | ReworkPushed | CiFixPushed | UnlabelledAutoReworking | ReworkCapReached
    | LabelledAutoMerging | MergeGateFailedSoft | MergeGateFailedHard | MergeGatePassed
    | UnlabelledAutoMerging | Merged
    // the review
    | LabelledAiReviewing | UnlabelledAiReviewing | ReviewCiPassed | ReviewCiFailed | ReviewFixPushed
    | ReviewPassed | ReviewFindings | ReviewBlocked
    // outcomes that replace a session's own last label write
    | ReworkNoChange | MergeBlockReported | DiscussionCapped
    // the watchdog, and the issue's stages after its PR
    | WatchdogExpired | PrMerged | Released

  datatype Routine =
    | IssueBuildLoop | AutoReleaseLoop | IssueDiscussLoop | ReworkLoop | MergeFlow | ReviewLoop | ReleasePublish

  /** "none", or the one tracked label an item carries. */
  datatype State = Untracked | At(lane: Label)

  datatype Effect = ToLabel(value: Label) | Unlabel | Close | Noop

  datatype Rule = Rule(from: State, on: Event, to: Effect, run: Option<Routine>)

  const ISSUE_RULES: seq<Rule> := [
    Rule(Untracked, LabelledAiReady, ToLabel(AiReady), Some(IssueBuildLoop)),
    Rule(At(PrOpen), BuildSucceeded, Noop, None),
    Rule(At(AiBlocked), BuildBlocked, Noop, None),
    Rule(At(AiReady), BuildSucceeded, ToLabel(PrOpen), None),
    Rule(At(AiReady), BuildBlocked, ToLabel(AiBlocked), None),
    Rule(At(AutoReleasing), ReleaseBlocked, Unlabel, None),
    Rule(Untracked, LabelledAutoReleasing, ToLabel(AutoReleasing), Some(AutoReleaseLoop)),
    Rule(Untracked, ReleaseBlocked, Noop, None),
    Rule(At(AutoReleasing), ReleasePublished, Close, None),
    Rule(At(AutoReleasing), ReleaseApproved, Noop, None),
    Rule(At(AutoReleasing), ReleaseMerged, Noop, Some(ReleasePublish)),
    Rule(Untracked, LabelledAiDiscussing, ToLabel(AiDiscussing), Some(IssueDiscussLoop)),
    Rule(At(AiDiscussing), DiscussionReply, Noop, Some(IssueDiscussLoop)),
    Rule(At(AutoReleasing), IssueClosed, Noop, None)
  ]

  const PR_RULES: seq<Rule> := [
    Rule(Untracked, LabelledAutoReworking, ToLabel(AutoReworking), Some(ReworkLoop)),
    Rule(At(AutoReworking), ReworkPushed, Unlabel, None),
    Rule(At(AutoReworking), ReworkCapReached, ToLabel(AiStuck), None),
    Rule(Untracked, LabelledAutoMerging, ToLabel(AutoMerging), Some(MergeFlow)),
    Rule(At(AutoMerging), MergeGateFailedSoft, ToLabel(AutoReworking), Some(ReworkLoop)),
    Rule(At(AutoReworking), CiFixPushed, ToLabel(AutoMerging), Some(MergeFlow)),
    Rule(At(AutoMerging), MergeGatePassed, Noop, Some(MergeFlow)),
    Rule(At(AutoMerging), MergeGateFailedHard, ToLabel(MergeBlocked), None),
    Rule(At(MergeBlocked), LabelledAutoMerging, ToLabel(AutoMerging), Some(MergeFlow)),
    Rule(At(AutoMerging), Merged, Close, None)
  ]

  const REVIEW_RULES: seq<Rule> := [
    Rule(Untracked, LabelledAiReviewing, ToLabel(AiReviewing), None),
    Rule(At(AiBlocked), LabelledAiReviewing, ToLabel(AiReviewing), None),
    Rule(At(AiReviewing), ReviewCiPassed, Noop, Some(ReviewLoop)),
    Rule(At(AiReviewing), ReviewCiFailed, ToLabel(AutoReworking), Some(ReworkLoop)),
    Rule(At(AutoReworking), ReviewFixPushed, ToLabel(AiReviewing), None),
    Rule(At(AiReviewing), ReviewPassed, ToLabel(ReadyForReview), None)
  ]

  // A person's move on a PR the review passed, and the review's other verdicts.
  const VERDICT_RULES: seq<Rule> := [
    Rule(At(ReadyForReview), LabelledAutoMerging, ToLabel(AutoMerging), Some(MergeFlow)),
    Rule(At(ReadyForReview), LabelledAutoReworking, ToLabel(AutoReworking), Some(ReworkLoop)),
    Rule(At(ReadyForReview), LabelledAiReviewing, ToLabel(AiReviewing), None),
    Rule(At(ReadyForReview), Merged, Close, None),
    Rule(At(AiReviewing), ReviewFindings, ToLabel(AutoReworking), Some(ReworkLoop)),
    Rule(At(AiReviewing), ReviewBlocked, ToLabel(AiBlocked), None),
    Rule(At(AiReviewing), ReworkCapReached, ToLabel(AiStuck), None)
  ]

  // Outcomes that replace a session's last label write, and the issue's
  // stages after its PR.
  const STAGE_RULES: seq<Rule> := [
    Rule(At(AutoReworking), ReworkNoChange, Unlabel, None),
    Rule(At(AiStuck), ReworkNoChange, Unlabel, None),
    Rule(At(AutoMerging), MergeBlockReported, ToLabel(MergeBlocked), None),
    Rule(At(AiDiscussing), DiscussionCapped, Unlabel, None),
    Rule(At(PrOpen), PrMerged, ToLabel(ReadyForRelease), None),
    Rule(Untracked, PrMerged, ToLabel(ReadyForRelease), None),
    Rule(At(ReadyForRelease), Released, Close, None)
  ]

  // A loop taking its own trigger label off.
  const REMOVAL_RULES: seq<Rule> := [
    Rule(Untracked, UnlabelledAiReady, Noop, None),
    Rule(At(PrOpen), UnlabelledAiReady, Noop, None),
    Rule(At(AiBlocked), UnlabelledAiReady, Noop, None),
    Rule(At(AiStuck), UnlabelledAiReady, Noop, None),
    Rule(Untracked, UnlabelledAutoReleasing, Noop, None),
    Rule(At(AiStuck), UnlabelledAutoReleasing, Noop, None),
    Rule(Untracked, UnlabelledAutoReworking, Noop, None),
    Rule(At(AiStuck), UnlabelledAutoReworking, Noop, None),
    Rule(Untracked, UnlabelledAutoMerging, Noop, None),
    Rule(At(AiStuck), UnlabelledAutoMerging, Noop, None),
    Rule(Untracked, UnlabelledAiReviewing, Noop, None),
    Rule(At(AiStuck), UnlabelledAiReviewing, Noop, None)
  ]

  // The watchdog; then leaving ai-stuck: a late outcome, or a person's retry.
  const WATCHDOG_RULES: seq<Rule> := [
    Rule(At(AiReady), WatchdogExpired, ToLabel(AiStuck), None),
    Rule(At(AutoReleasing), WatchdogExpired, ToLabel(AiStuck), None),
    Rule(At(AutoReworking), WatchdogExpired, ToLabel(AiStuck), None),
    Rule(At(AutoMerging), WatchdogExpired, ToLabel(AiStuck), None),
    Rule(At(AiReviewing), WatchdogExpired, ToLabel(AiStuck), None)
  ]

  const LATE_RULES: seq<Rule> := [
    Rule(At(AiStuck), BuildSucceeded, ToLabel(PrOpen), None),
    Rule(At(AiStuck), BuildBlocked, ToLabel(AiBlocked), None),
    Rule(At(AiStuck), ReleaseBlocked, Unlabel, None),
    Rule(At(AiStuck), ReleasePublished, Close, None),
    Rule(At(AiStuck), ReworkPushed, Unlabel, None),
    Rule(At(AiStuck), Merged, Close, None),
    Rule(At(AiStuck), ReviewPassed, ToLabel(ReadyForReview), None),
    Rule(At(AiStuck), ReviewBlocked, ToLabel(AiBlocked), None)
  ]

  const RETRY_RULES: seq<Rule> := [
    Rule(At(AiStuck), LabelledAiReady, ToLabel(AiReady), Some(IssueBuildLoop)),
    Rule(At(AiStuck), LabelledAutoReleasing, ToLabel(AutoReleasing), Some(AutoReleaseLoop)),
    Rule(At(AiStuck), LabelledAutoReworking, ToLabel(AutoReworking), Some(ReworkLoop)),
    Rule(At(AiStuck), LabelledAutoMerging, ToLabel(AutoMerging), Some(MergeFlow)),
    Rule(At(AiStuck), LabelledAiReviewing, ToLabel(AiReviewing), None)
  ]

  /** The table, in the source's order. */
  function Rules(): seq<Rule> {
    ISSUE_RULES + PR_RULES + REVIEW_RULES + VERDICT_RULES + STAGE_RULES + REMOVAL_RULES
    + WATCHDOG_RULES + LATE_RULES + RETRY_RULES
  }

  /** The reducer: the first rule of the table for this state and event. */
  function Reduce(current: State, event: Event): Option<Rule> {
    Find(Rules(), current, event)
  }

  function Find(rules: seq<Rule>, current: State, event: Event): Option<Rule> {
    if rules == [] then None
    else if rules[0].from == current && rules[0].on == event then Some(rules[0])
    else Find(rules[1..], current, event)
  }

  function When(from: State, on: Event, holds: bool, to: Effect, run: Option<Routine>): Option<Rule> {
    if holds then Some(Rule(from, on, to, run)) else None
  }

  /** The same decision keyed by event, which every handler below uses:
      ReduceIsDecide shows the two agree, so no rule of the table is shadowed
      by an earlier one and none is missing here. */
  function Decide(s: State, e: Event): (r: Option<Rule>)
    ensures r.Some? ==> r.value.from == s && r.value.on == e
  {
    var stuck := s == At(AiStuck);
    var idle := s == Untracked || stuck;
    match e
    case LabelledAiReady => When(s, e, idle, ToLabel(AiReady), Some(IssueBuildLoop))
    case BuildSucceeded =>
      if s == At(PrOpen) then Some(Rule(s, e, Noop, None))
      else When(s, e, s == At(AiReady) || stuck, ToLabel(PrOpen), None)
    case BuildBlocked =>
      if s == At(AiBlocked) then Some(Rule(s, e, Noop, None))
      else When(s, e, s == At(AiReady) || stuck, ToLabel(AiBlocked), None)
    case LabelledAutoReleasing => When(s, e, idle, ToLabel(AutoReleasing), Some(AutoReleaseLoop))
    case ReleaseBlocked =>
      if s == Untracked then Some(Rule(s, e, Noop, None)) else When(s, e, s == At(AutoReleasing) || stuck, Unlabel, None)
    case ReleasePublished => When(s, e, s == At(AutoReleasing) || stuck, Close, None)
    case ReleaseApproved => When(s, e, s == At(AutoReleasing), Noop, None)
    case ReleaseMerged => When(s, e, s == At(AutoReleasing), Noop, Some(ReleasePublish))
    case LabelledAiDiscussing => When(s, e, s == Untracked, ToLabel(AiDiscussing), Some(IssueDiscussLoop))
    case DiscussionReply => When(s, e, s == At(AiDiscussing), Noop, Some(IssueDiscussLoop))
    case UnlabelledAiReady => When(s, e, idle || s == At(PrOpen) || s == At(AiBlocked), Noop, None)
    case UnlabelledAutoReleasing => When(s, e, idle, Noop, None)
    case IssueClosed => When(s, e, s == At(AutoReleasing), Noop, None)
    case LabelledAutoReworking => When(s, e, idle || s == At(ReadyForReview), ToLabel(AutoReworking), Some(ReworkLoop))
    case ReworkPushed => When(s, e, s == At(AutoReworking) || stuck, Unlabel, None)
    case CiFixPushed => When(s, e, s == At(AutoReworking), ToLabel(AutoMerging), Some(MergeFlow))
    case UnlabelledAutoReworking => When(s, e, idle, Noop, None)
    case ReworkCapReached => When(s, e, s == At(AutoReworking) || s == At(AiReviewing), ToLabel(AiStuck), None)
    case LabelledAutoMerging =>
      When(s, e, idle || s == At(MergeBlocked) || s == At(ReadyForReview), ToLabel(AutoMerging), Some(MergeFlow))
    case MergeGateFailedSoft => When(s, e, s == At(AutoMerging), ToLabel(AutoReworking), Some(ReworkLoop))
    case MergeGateFailedHard => When(s, e, s == At(AutoMerging), ToLabel(MergeBlocked), None)
    case MergeGatePassed => When(s, e, s == At(AutoMerging), Noop, Some(MergeFlow))
    case UnlabelledAutoMerging => When(s, e, idle, Noop, None)
    case Merged => When(s, e, s == At(AutoMerging) || s == At(ReadyForReview) || stuck, Close, None)
    case LabelledAiReviewing => When(s, e, idle || s == At(AiBlocked) || s == At(ReadyForReview), ToLabel(AiReviewing), None)
    case UnlabelledAiReviewing => When(s, e, idle, Noop, None)
    case ReviewCiPassed => When(s, e, s == At(AiReviewing), Noop, Some(ReviewLoop))
    case ReviewCiFailed => When(s, e, s == At(AiReviewing), ToLabel(AutoReworking), Some(ReworkLoop))
    case ReviewFixPushed => When(s, e, s == At(AutoReworking), ToLabel(AiReviewing), None)
    case ReviewPassed => When(s, e, s == At(AiReviewing) || stuck, ToLabel(ReadyForReview), None)
    case ReviewFindings => When(s, e, s == At(AiReviewing), ToLabel(AutoReworking), Some(ReworkLoop))
    case ReviewBlocked => When(s, e, s == At(AiReviewing) || stuck, ToLabel(AiBlocked), None)
    case ReworkNoChange => When(s, e, s == At(AutoReworking) || stuck, Unlabel, None)
    case MergeBlockReported => When(s, e, s == At(AutoMerging), ToLabel(MergeBlocked), None)
    case DiscussionCapped => When(s, e, s == At(AiDiscussing), Unlabel, None)
    case WatchdogExpired =>
      When(s, e, s == At(AiReady) || s == At(AutoReleasing) || s == At(AutoReworking) || s == At(AutoMerging) || s == At(AiReviewing),
           ToLabel(AiStuck), None)
    case PrMerged => When(s, e, s == At(PrOpen) || s == Untracked, ToLabel(ReadyForRelease), None)
    case Released => When(s, e, s == At(ReadyForRelease), Close, None)
  }

  lemma {:induction false} FindInTable(rules: seq<Rule>, current: State, event: Event)
    ensures match Find(rules, current, event)
      case Some(r) => r in rules && r.from == current && r.on == event
      case None => forall r | r in rules :: !(r.from == current && r.on == event)
  {
    if rules != [] && !(rules[0].from == current && rules[0].on == event) {
      FindInTable(rules[1..], current, event);
      assert rules == [rules[0]] + rules[1..];
    }
  }

  lemma RowsAreDecisions(r: Rule)
    requires r in Rules()
    ensures Decide(r.from, r.on) == Some(r)
  {
    hide Decide, When;
    if r in ISSUE_RULES {
      IssueRowsAreDecisions(r);
    } else if r in PR_RULES {
      PrRowsAreDecisions(r);
    } else if r in REVIEW_RULES {
      ReviewRowsAreDecisions(r);
    } else if r in VERDICT_RULES {
      VerdictRowsAreDecisions(r);
    } else if r in STAGE_RULES {
      StageRowsAreDecisions(r);
    } else if r in REMOVAL_RULES {
      RemovalRowsAreDecisions(r);
    } else if r in WATCHDOG_RULES {
      WatchdogRowsAreDecisions(r);
    } else if r in LATE_RULES {
      LateRowsAreDecisions(r);
    } else {
      RetryRowsAreDecisions(r);
    }
  }

  lemma IssueRowsAreDecisions(r: Rule)
    requires r in ISSUE_RULES
    ensures Decide(r.from, r.on) == Some(r)
  {
  }

  lemma PrRowsAreDecisions(r: Rule)
    requires r in PR_RULES
    ensures Decide(r.from, r.on) == Some(r)
  {
  }

  lemma ReviewRowsAreDecisions(r: Rule)
    requires r in REVIEW_RULES
    ensures Decide(r.from, r.on) == Some(r)
  {
  }

  lemma VerdictRowsAreDecisions(r: Rule)
    requires r in VERDICT_RULES
    ensures Decide(r.from, r.on) == Some(r)
  {
  }

  lemma StageRowsAreDecisions(r: Rule)
    requires r in STAGE_RULES
    ensures Decide(r.from, r.on) == Some(r)
  {
  }

  lemma RemovalRowsAreDecisions(r: Rule)
    requires r in REMOVAL_RULES
    ensures Decide(r.from, r.on) == Some(r)
  {
  }

  lemma WatchdogRowsAreDecisions(r: Rule)
    requires r in WATCHDOG_RULES
    ensures Decide(r.from, r.on) == Some(r)
  {
  }

  lemma LateRowsAreDecisions(r: Rule)
    requires r in LATE_RULES
    ensures Decide(r.from, r.on) == Some(r)
  {
  }

  lemma RetryRowsAreDecisions(r: Rule)
    requires r in RETRY_RULES
    ensures Decide(r.from, r.on) == Some(r)
  {
  }

  /** The issue's own events, and the PR's: which half a row is looked up in. */
  predicate OfIssue(e: Event) {
    e in {LabelledAiReady, BuildSucceeded, BuildBlocked, LabelledAutoReleasing, ReleaseBlocked, ReleasePublished, ReleaseApproved,
          ReleaseMerged, LabelledAiDiscussing, DiscussionReply, IssueClosed}
  }

  predicate OfPush(e: Event) {
    e in {LabelledAutoReworking, ReworkPushed, CiFixPushed, ReworkCapReached, LabelledAutoMerging, MergeGateFailedSoft,
          MergeGateFailedHard, MergeGatePassed, Merged}
  }

  predicate OfReview(e: Event) {
    e in {LabelledAiReviewing, ReviewCiPassed, ReviewCiFailed, ReviewFixPushed, ReviewPassed, ReviewFindings, ReviewBlocked}
  }

  lemma IssueDecisionsAreRows(s: State, e: Event)
    requires OfIssue(e) && Decide(s, e).Some?
    ensures Decide(s, e).value in ISSUE_RULES || Decide(s, e).value in LATE_RULES || Decide(s, e).value in RETRY_RULES
  {
  }

  lemma PushDecisionsAreRows(s: State, e: Event)
    requires OfPush(e) && Decide(s, e).Some?
    ensures var r := Decide(s, e).value; r in PR_RULES || r in VERDICT_RULES || r in LATE_RULES || r in RETRY_RULES
  {
  }

  lemma ReviewDecisionsAreRows(s: State, e: Event)
    requires OfReview(e) && Decide(s, e).Some?
    ensures var r := Decide(s, e).value; r in REVIEW_RULES || r in VERDICT_RULES || r in LATE_RULES || r in RETRY_RULES
  {
  }

  lemma OtherDecisionsAreRows(s: State, e: Event)
    requires !OfIssue(e) && !OfPush(e) && !OfReview(e) && Decide(s, e).Some?
    ensures var r := Decide(s, e).value; r in STAGE_RULES || r in REMOVAL_RULES || r in WATCHDOG_RULES
  {
  }

  lemma DecisionsAreRows(s: State, e: Event)
    requires Decide(s, e).Some?
    ensures Decide(s, e).value in Rules()
  {
    hide Decide, OfIssue, OfPush, OfReview;
    if OfIssue(e) {
      IssueDecisionsAreRows(s, e);
    } else if OfPush(e) {
      PushDecisionsAreRows(s, e);
    } else if OfReview(e) {
      ReviewDecisionsAreRows(s, e);
    } else {
      OtherDecisionsAreRows(s, e);
    }
  }

  lemma DecisionNames(s: State, e: Event)
    ensures Decide(s, e).Some? ==> Decide(s, e).value.from == s && Decide(s, e).value.on == e
  {
  }

  /** The table and the decision agree on every state and event. */
  lemma ReduceIsDecide(s: State, e: Event)
    ensures Reduce(s, e) == Decide(s, e)
  {
    hide Find, Rules, Decide, When;
    FindInTable(Rules(), s, e);
    if Reduce(s, e).Some? {
      RowsAreDecisions(Reduce(s, e).value);
    } else if Decide(s, e).Some? {
      DecisionNames(s, e);
      DecisionsAreRows(s, e);
    }
  }
}

/** Reading labels, and the calls a matched rule asks for. */
module Labels {
  import opened Wrappers
  import opened Graph

  /** What the tracked labels on an item say: one state, or too many to tell. */
  datatype Reading = Clear(state: State) | Ambiguous

  function TheOne(labels: set<Label>): (l: Label)
    requires |labels| == 1
    ensures labels == {l}
  {
    OnlyMember(labels);
    var l :| l in labels;
    l
  }

  lemma OnlyMember(labels: set<Label>)
    requires |labels| == 1
    ensures forall a, b | a in labels && b in labels :: a == b
    ensures forall a | a in labels :: labels == {a}
  {
    forall a | a in labels
      ensures labels == {a}
    {
      assert |labels - {a}| == 0;
    }
  }

  /** The live labels as one state. Two tracked labels read as one state in
      exactly two pairings: ai-stuck with a late routine's own label, and
      auto-merging re-added to a merge-blocked PR. */
  function DeriveState(labels: set<Label>): Reading {
    if |labels| == 0 then Clear(Untracked)
    else if |labels| == 1 then Clear(At(TheOne(labels)))
    else if |labels| == 2 && AiStuck in labels then Clear(At(AiStuck))
    else if |labels| == 2 && MergeBlocked in labels && AutoMerging in labels then Clear(At(AutoMerging))
    else Ambiguous
  }

  lemma PairIs(labels: set<Label>, a: Label, b: Label)
    requires |labels| == 2 && a in labels && b in labels && a != b
    ensures labels == {a, b}
  {
    assert |labels - {a}| == 1;
    OnlyMember(labels - {a});
    assert labels - {a} == {b};
    assert labels == {a} + (labels - {a});
  }

  /** What a reading says about the labels behind it. */
  lemma ReadingMeans(labels: set<Label>)
    ensures DeriveState(labels) == Clear(Untracked) <==> labels == {}
    ensures forall l | DeriveState(labels) == Clear(At(l)) :: l in labels
    ensures forall l | DeriveState(labels) == Clear(At(l)) && l != AiStuck && l != AutoMerging :: labels == {l}
    ensures DeriveState(labels) == Clear(At(AutoMerging)) ==> labels == {AutoMerging} || labels == {AutoMerging, MergeBlocked}
    ensures AiStuck in labels && DeriveState(labels).Clear? ==> DeriveState(labels) == Clear(At(AiStuck))
    ensures forall l | labels == {l} :: DeriveState(labels) == Clear(At(l))
    ensures |labels| <= 1 ==> DeriveState(labels).Clear?
  {
    if |labels| == 2 && AiStuck !in labels && MergeBlocked in labels && AutoMerging in labels {
      PairIs(labels, AutoMerging, MergeBlocked);
    }
  }

  /** A pair of tracked labels is ambiguous but for the two expected pairings. */
  lemma PairReading(a: Label, b: Label)
    requires a != b
    ensures DeriveState({a, b}) ==
      if a == AiStuck || b == AiStuck then Clear(At(AiStuck))
      else if {a, b} == {MergeBlocked, AutoMerging} then Clear(At(AutoMerging))
      else Ambiguous
  {
    assert |{a, b}| == 2;
    if MergeBlocked in {a, b} && AutoMerging in {a, b} {
      assert {a, b} == {MergeBlocked, AutoMerging};
    }
  }

  datatype LabelOp = AddOp(lane: Label) | RemoveOp(lane: Label) | CloseOp

  /** The GitHub calls a rule asks for, given the labels really present. */
  function LabelOps(labels: set<Label>, rule: Rule): seq<LabelOp> {
    match rule.to
    case Noop => []
    case Close => [CloseOp]
    case Unlabel => if rule.from.At? && rule.from.lane in labels then [RemoveOp(rule.from.lane)] else []
    case ToLabel(to) =>
      var stays := rule.from == At(to);
      (if rule.from.At? && !stays && rule.from.lane in labels then [RemoveOp(rule.from.lane)] else [])
      + (if !stays && to !in labels then [AddOp(to)] else [])
  }

  function Do(labels: set<Label>, op: LabelOp): set<Label> {
    match op
    case AddOp(l) => labels + {l}
    case RemoveOp(l) => labels - {l}
    case CloseOp => labels
  }

  function DoAll(labels: set<Label>, ops: seq<LabelOp>): set<Label>
    decreases |ops|
  {
    if ops == [] then labels else DoAll(Do(labels, ops[0]), ops[1..])
  }

  /** The labels a rule leaves, stated without its calls. */
  function After(labels: set<Label>, rule: Rule): set<Label> {
    match rule.to
    case Noop => labels
    case Close => labels
    case Unlabel => if rule.from.At? then labels - {rule.from.lane} else labels
    case ToLabel(to) =>
      if rule.from == At(to) then labels
      else (if rule.from.At? then labels - {rule.from.lane} else labels) + {to}
  }

  lemma OpsReachAfter(labels: set<Label>, rule: Rule)
    ensures |LabelOps(labels, rule)| <= 2
    ensures DoAll(labels, LabelOps(labels, rule)) == After(labels, rule)
  {
    var ops := LabelOps(labels, rule);
    if |ops| == 2 {
      assert ops == [ops[0], ops[1]];
      assert ops[1..] == [ops[1]] && ops[1..][1..] == [];
      var rest := Do(labels, ops[0]);
      assert DoAll(rest, ops[1..]) == DoAll(Do(rest, ops[1]), []);
      assert DoAll(labels, ops) == Do(rest, ops[1]);
    } else if |ops| == 1 {
      assert ops[1..] == [];
      assert DoAll(labels, ops) == Do(labels, ops[0]);
    } else {
      assert ops == [];
    }
  }

  /** The label an event's own webhook added: it is already on when the rule,
      keyed on the state before it, is looked up. */
  function JustAdded(e: Event): Option<Label> {
    match e
    case LabelledAiReady => Some(AiReady)
    case LabelledAutoReleasing => Some(AutoReleasing)
    case LabelledAiDiscussing => Some(AiDiscussing)
    case LabelledAutoReworking => Some(AutoReworking)
    case LabelledAutoMerging => Some(AutoMerging)
    case LabelledAiReviewing => Some(AiReviewing)
    case _ => None
  }

  function Before(labels: set<Label>, e: Event): set<Label> {
    match JustAdded(e)
    case Some(l) => labels - {l}
    case None => labels
  }

  /** A matched rule on an item with at most one tracked label, besides the one
      its event added, leaves exactly the rule's target: nothing for unlabel,
      the labels as they were for noop and close. */
  lemma MatchedRuleLeavesItsTarget(labels: set<Label>, e: Event)
    requires |Before(labels, e)| <= 1
    requires DeriveState(Before(labels, e)).Clear?
    requires Decide(DeriveState(Before(labels, e)).state, e).Some?
    ensures var rule := Decide(DeriveState(Before(labels, e)).state, e).value;
      DoAll(labels, LabelOps(labels, rule)) ==
        match rule.to
        case ToLabel(to) => {to}
        case Unlabel => {}
        case _ => labels
  {
    hide Decide, DeriveState, LabelOps, DoAll;
    var before := Before(labels, e);
    var s := DeriveState(before).state;
    var rule := Decide(s, e).value;
    SmallReading(before);
    DecisionNames(s, e);
    OpsReachAfter(labels, rule);
    DecisionTargets(s, e);
  }

  lemma SmallReading(labels: set<Label>)
    requires |labels| <= 1
    ensures DeriveState(labels).Clear?
    ensures labels == match DeriveState(labels).state
      case Untracked => {}
      case At(l) => {l}
  {
  }

  /** Regularities of the table that no one row says: where an event's rules
      lead, and what they run. */
  predicate Regular(r: Rule) {
    && (JustAdded(r.on).Some? ==> r.to == ToLabel(JustAdded(r.on).value))
    && (r.to == Unlabel ==> r.from.At?)
    && (r.run == Some(AutoReleaseLoop) ==> r.on == LabelledAutoReleasing)
    && (r.run.Some? ==> r.to.ToLabel? || r.to.Noop?)
    && (r.from == At(ReadyForReview) && JustAdded(r.on).None? ==> r.to == Close)
    && (r.to == ToLabel(MergeBlocked) ==> r.from == At(AutoMerging))
    && (r.to == ToLabel(AutoMerging) ==> r.from == At(AutoReworking) || JustAdded(r.on) == Some(AutoMerging))
    && (r.to == ToLabel(AiStuck) ==> (r.on.WatchdogExpired? || r.on.ReworkCapReached?) && r.run.None? && r.from != At(AiStuck))
    && (r.from == At(AiStuck) && (r.to.Noop? || r.to.Close?) ==> r.run.None?)
  }

  lemma IssueIsRegular(s: State, e: Event)
    requires OfIssue(e) && Decide(s, e).Some?
    ensures Regular(Decide(s, e).value)
  {
  }

  lemma PushIsRegular(s: State, e: Event)
    requires OfPush(e) && Decide(s, e).Some?
    ensures Regular(Decide(s, e).value)
  {
  }

  lemma ReviewIsRegular(s: State, e: Event)
    requires OfReview(e) && Decide(s, e).Some?
    ensures Regular(Decide(s, e).value)
  {
  }

  lemma OtherIsRegular(s: State, e: Event)
    requires !OfIssue(e) && !OfPush(e) && !OfReview(e) && Decide(s, e).Some?
    ensures Regular(Decide(s, e).value)
  {
  }

  lemma DecisionsAreRegular(s: State, e: Event)
    requires Decide(s, e).Some?
    ensures Regular(Decide(s, e).value) && Decide(s, e).value.from == s && Decide(s, e).value.on == e
  {
    hide Decide, Regular, OfIssue, OfPush, OfReview;
    DecisionNames(s, e);
    if OfIssue(e) {
      IssueIsRegular(s, e);
    } else if OfPush(e) {
      PushIsRegular(s, e);
    } else if OfReview(e) {
      ReviewIsRegular(s, e);
    } else {
      OtherIsRegular(s, e);
    }
  }

  /** A label event's rules lead to the label it added, and only a tracked
      state's rule takes a label off. */
  lemma DecisionTargets(s: State, e: Event)
    requires Decide(s, e).Some?
    ensures JustAdded(e).Some? ==> Decide(s, e).value.to == ToLabel(JustAdded(e).value)
    ensures Decide(s, e).value.to == Unlabel ==> s.At?
  {
    hide Decide;
    DecisionsAreRegular(s, e);
  }

  /** Whether a routine fired into `state` is watched: exactly when the table
      says what its expiry means. */
  predicate IsWatched(state: State) {
    Decide(state, WatchdogExpired).Some?
  }

  predicate Contextual(e: Event) {
    e in {ReworkPushed, CiFixPushed, Merged, DiscussionReply, IssueClosed, UnlabelledAiReady, UnlabelledAutoReleasing,
          UnlabelledAutoReworking, UnlabelledAutoMerging, UnlabelledAiReviewing, PrMerged, Released}
  }
}
