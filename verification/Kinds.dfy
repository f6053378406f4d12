// What every handler keeps. Each kind of fact below is kept by every handler
// of an item, whatever the world answers (within the kind's own assumptions
// about the world). A handler is proved once, for all kinds together.

module Kinds {
  import opened Wrappers
  import opened Graph
  import opened Labels
  import opened Items
  import opened Apply

  // --- counting marks ---

  datatype Tag =
    | Matches | Starts(run: Routine) | HandOuts | Verdicts | Writes | Fires | LateReleases | Alerts

  predicate HandOut(e: Event) {
    e.MergeGateFailedSoft? || e.ReviewCiFailed? || e.ReviewFindings?
  }

  predicate IsWrite(m: Mark) {
    m.LabelWrite? || m.CloseWrite? || m.CommentWrite? || m.MergeWrite? || m.FireTried?
  }

  /** Whether a mark counts under a tag: a matched rule, a start of a run, an
      applied hand-out to rework-loop, an applied review_passed, a real write
      or fire, any real fire, a fire of auto-release-loop after its release was
      merged, an expiry's alert. */
  predicate Is(m: Mark, tag: Tag) {
    match tag
    case Matches => m.Matched?
    case Starts(run) => m == Started(run)
    case HandOuts => m.AppliedMark? && HandOut(m.on)
    case Verdicts => m.AppliedMark? && m.on.ReviewPassed?
    case Fires => m.FireTried?
    case Alerts => m == CommentWrite(true)
    case Writes => IsWrite(m)
    case LateReleases => m.FireTried? && m.run == AutoReleaseLoop && m.afterMerge
  }

  function Tally(trace: seq<Mark>, tag: Tag): nat {
    if trace == [] then 0
    else Tally(trace[..|trace| - 1], tag) + if Is(trace[|trace| - 1], tag) then 1 else 0
  }

  lemma TallyGrows(trace: seq<Mark>, m: Mark, tag: Tag)
    ensures Tally(trace + [m], tag) == Tally(trace, tag) + if Is(m, tag) then 1 else 0
  {
    assert (trace + [m])[..|trace|] == trace;
  }

  /** The last applied hand-out: its event, and how many calls had been made. */
  function LastOut(trace: seq<Mark>): Option<Mark> {
    if trace == [] then None
    else
      var m := trace[|trace| - 1];
      if Is(m, HandOuts) then Some(m) else LastOut(trace[..|trace| - 1])
  }

  lemma LastOutIs(trace: seq<Mark>, m: Mark)
    ensures LastOut(trace + [m]) == if Is(m, HandOuts) then Some(m) else LastOut(trace)
  {
    assert (trace + [m])[..|trace|] == trace;
  }

  /** A fire the routines API was asked for, and its answer. */
  datatype Attempt = Attempt(run: Routine, verdict: Verdict)

  /** Every fire the item has tried, in order. */
  function Fired(trace: seq<Mark>): seq<Attempt> {
    if trace == [] then []
    else
      var m := trace[|trace| - 1];
      Fired(trace[..|trace| - 1]) + if m.FireTried? then [Attempt(m.run, m.verdict)] else []
  }

  lemma FiredGrows(trace: seq<Mark>, m: Mark)
    ensures Fired(trace + [m]) == Fired(trace) + if m.FireTried? then [Attempt(m.run, m.verdict)] else []
  {
    assert (trace + [m])[..|trace|] == trace;
  }

  /** How the item last came to carry ai-stuck: the event, and the run that was
      pending when its rule matched. */
  function LastEntry(c: Ctx, trace: seq<Mark>): Option<Mark> {
    if trace == [] then None
    else
      var m := trace[|trace| - 1];
      if m.Matched? && m.rule.to == ToLabel(AiStuck) && c.Enforced(m.rule.on) then Some(m)
      else LastEntry(c, trace[..|trace| - 1])
  }

  predicate ByReworkExpiry(m: Option<Mark>) {
    m.Some? && m.value.Matched? && m.value.rule.on == WatchdogExpired && m.value.running == Some(ReworkLoop)
  }

  // --- the kinds ---

  /** The pending fire's alarm is set for when it is due; no fire, no alarm. */
  predicate Agree(s: Item) {
    s.alarm == if s.pending.Some? then Some(s.pending.value.dueAt) else None
  }

  /** Where the PR goes back to on its rework's push. */
  function AddressOf(s: Item): Option<Label> {
    if CiFixPending(s) then Some(if s.ciFix.value.toReview then AiReviewing else AutoMerging)
    else if FixPending(s) then Some(AiReviewing)
    else None
  }

  /** The hand-outs the counters still allow. */
  function Left(c: Ctx, s: Item): nat {
    (if Attempts(s) < c.caps.ciFixAttempts then c.caps.ciFixAttempts - Attempts(s) else 0)
    + (if BotRounds(s) < c.caps.botReviewReworks then c.caps.botReviewReworks - BotRounds(s) else 0)
  }

  /** Passed by the review, or unreadable since: only a person moves it on. */
  predicate Passed(labels: set<Label>) {
    ReadyForReview in labels && (DeriveState(labels) == Clear(At(ReadyForReview)) || DeriveState(labels) == Ambiguous)
  }

  datatype Kind =
    | Armed(fire: Option<Fire>, ring: Option<int>)
    | Dry(n: nat)
    | Released(n: nat)
    | Remembers(run: Routine, ended: Ended, n: nat)
    | Quiet(n: nat, fire: Option<Fire>, ring: Option<int>, fired: seq<Attempt>)
    | Still(n: nat, labels: set<Label>)
    | Address(n: nat, home: Label)
    | AtLeast(n: nat)
    | Ever(tag: Tag, n: nat)
    | Unmatched(n: nat)
    | Budget(b: int)
    | Spent(b: int)
    | Finished(n: nat)
    | Lone
    | StuckBy
    | StuckOwed
    | Verdict(n: nat)
    | NotBefore(at: int)
    | Seen(id: DeliveryId)
    | Unseen(id: DeliveryId)
    | Counted(tag: Tag, n: nat)
    | Handless(n: nat, last: Option<Mark>)
    | EntryIs(entry: Option<Mark>)
    | Loose

  predicate StuckIsIdle(s: Item) {
    AiStuck in s.labels ==> s.pending.None?
  }

  /** A fact that stands until the first mark with this tag after the n-th. */
  predicate Since(s: Item, tag: Tag, n: nat, fact: bool) {
    n <= Tally(s.trace, tag) && (Tally(s.trace, tag) > n || fact)
  }

  predicate Holds(c: Ctx, k: Kind, s: Item) {
    match k
    case Armed(fire, ring) => Agree(s) || (s.pending == fire && s.alarm == ring)
    case Dry(n) => Tally(s.trace, Writes) == n && !Deferred(s)
    case Released(n) => Tally(s.trace, LateReleases) == n && (s.releaseMerged.Some? ==> !Running(s, AutoReleaseLoop))
    case Remembers(run, ended, n) =>
      Since(s, Starts(run), n, run in s.outcomes && s.outcomes[run] == ended && !Running(s, run))
    case Quiet(n, fire, ring, fired) =>
      Since(s, Matches, n, s.pending == fire && s.alarm == ring && Fired(s.trace) == fired)
    case Still(n, labels) => Since(s, Matches, n, s.labels == labels)
    case Address(n, home) =>
      Since(s, Matches, n, s.labels == {AutoReworking} && AddressOf(s) == Some(home))
    case AtLeast(n) => n <= Tally(s.trace, Matches)
    case Ever(tag, n) => Tally(s.trace, tag) > n
    case Unmatched(n) => Tally(s.trace, Matches) <= n
    case Budget(b) =>
      s.labels != {MergeBlocked, AutoMerging}
      && Tally(s.trace, HandOuts) + (if Passed(s.labels) then 0 else Left(c, s)) <= b
    case Spent(b) => Passed(s.labels) && Tally(s.trace, HandOuts) <= b
    case Finished(n) => Passed(s.labels) && Tally(s.trace, HandOuts) == n
    case Lone => |s.labels| <= 1
    case StuckBy =>
      StuckIsIdle(s) && (AiStuck in s.labels && s.reworkExpired ==> ByReworkExpiry(LastEntry(c, s.trace)))
    case StuckOwed => StuckIsIdle(s)
    case Verdict(n) => s.labels != {MergeBlocked, AutoMerging} && (Tally(s.trace, Verdicts) > n ==> Passed(s.labels))
    case NotBefore(at) => at <= s.now
    case Seen(id) => id in s.seen
    case Unseen(id) => id !in s.seen
    case Counted(tag, n) => Tally(s.trace, tag) == n
    case Handless(n, last) => Tally(s.trace, HandOuts) == n && LastOut(s.trace) == last
    case EntryIs(entry) => LastEntry(c, s.trace) == entry
    case Loose => true
  }

  // --- the worlds a kind speaks of ---

  /** Nobody else edits the labels while a handler runs. */
  ghost predicate NoEdits(c: Ctx) {
    forall n :: c.world(n).came == {} && c.world(n).gone == {}
  }

  /** Nobody else adds or takes off ai-stuck while a handler runs. */
  ghost predicate StuckFree(c: Ctx) {
    forall n :: AiStuck !in c.world(n).came && AiStuck !in c.world(n).gone
  }

  /** The labels stay where nobody else edits any; ai-stuck stays where nobody
      else touches that. */
  ghost predicate Steady(c: Ctx, s: Item, t: Item) {
    && (NoEdits(c) ==> t.labels == s.labels)
    && (StuckFree(c) ==> (AiStuck in t.labels <==> AiStuck in s.labels))
  }

  ghost predicate NoFailures(c: Ctx) {
    forall n :: !c.world(n).verdict.Throws?
  }

  /** Kinds of a run in which only the Worker moves labels. */
  predicate Hands(k: Kind) {
    k.Budget? || k.Spent? || k.Finished? || k.Verdict? || k.Lone?
  }

  predicate OfStuck(k: Kind) {
    k.StuckBy? || k.StuckOwed?
  }

  /** Kinds that a matched rule ends. */
  predicate UntilMatch(k: Kind) {
    k.Quiet? || k.Still? || k.Address? || k.AtLeast?
  }

  ghost predicate WorldOk(c: Ctx, k: Kind) {
    && (k.Dry? ==> !c.mode)
    && (k.Counted? ==> k.tag.HandOuts? || k.tag.Verdicts?)
    && (k.Still? || k.Address? || Hands(k) ==> NoEdits(c))
    && (OfStuck(k) ==> StuckFree(c))
    && (Hands(k) || OfStuck(k) ==> c.mode)
    && (OfStuck(k) ==> NoFailures(c))
  }

  ghost predicate Ready(c: Ctx, k: Kind, s: Item) {
    WorldOk(c, k) && Holds(c, k, s)
  }

  lemma LooseIsReady(c: Ctx, s: Item)
    ensures Ready(c, Loose, s)
  {
  }

  // --- what a call does ---

  /** Only time, the call count and other people's label edits. */
  ghost predicate Glanced(c: Ctx, s: Item, t: Item) {
    && t == s.(now := t.now, calls := t.calls, labels := t.labels)
    && s.now <= t.now
    && Steady(c, s, t)
  }

  lemma KeepGlanced(c: Ctx, k: Kind, s: Item, t: Item)
    requires Ready(c, k, s) && Glanced(c, s, t)
    ensures Ready(c, k, t)
  {
  }

  /** What a mark may not be for each kind. */
  predicate MarkOk(k: Kind, m: Mark) {
    && (k.Dry? ==> !IsWrite(m))
    && (k.Released? ==> !Is(m, LateReleases))
    && (Hands(k) ==> !Is(m, HandOuts) && !Is(m, Verdicts))
    && (k.Counted? ==> !Is(m, k.tag))
    && (k.Handless? ==> !Is(m, HandOuts))
    && (k.Quiet? ==> !m.FireTried?)
    && (OfStuck(k) || k.Unmatched? || k.EntryIs? ==> !m.Matched?)
  }

  lemma MarkHands(c: Ctx, k: Kind, s: Item, m: Mark)
    requires Ready(c, k, s) && MarkOk(k, m) && Hands(k)
    ensures Ready(c, k, Marked(s, m))
  {
    hide Tally, Passed, NoEdits, StuckFree, NoFailures;
    TallyGrows(s.trace, m, HandOuts);
    TallyGrows(s.trace, m, Verdicts);
  }

  lemma MarkUntilMatch(c: Ctx, k: Kind, s: Item, m: Mark)
    requires Ready(c, k, s) && MarkOk(k, m) && (UntilMatch(k) || k.Unmatched?)
    ensures Ready(c, k, Marked(s, m))
  {
    hide Tally, NoEdits, StuckFree, NoFailures;
    TallyGrows(s.trace, m, Matches);
    if k.Quiet? {
      FiredGrows(s.trace, m);
    }
  }

  lemma MarkCounts(c: Ctx, k: Kind, s: Item, m: Mark)
    requires Ready(c, k, s) && MarkOk(k, m) && (k.Dry? || k.Released? || k.Remembers? || k.Ever? || k.Counted? || k.Handless?)
    ensures Ready(c, k, Marked(s, m))
  {
    hide Tally, NoEdits, StuckFree, NoFailures;
    if k.Dry? {
      TallyGrows(s.trace, m, Writes);
    } else if k.Released? {
      TallyGrows(s.trace, m, LateReleases);
    } else if k.Remembers? {
      TallyGrows(s.trace, m, Starts(k.run));
    } else if k.Handless? {
      TallyGrows(s.trace, m, HandOuts);
      LastOutIs(s.trace, m);
    } else {
      TallyGrows(s.trace, m, k.tag);
    }
  }

  lemma MarkPasses(c: Ctx, k: Kind, s: Item, m: Mark)
    requires Ready(c, k, s) && MarkOk(k, m) && !Hands(k) && !UntilMatch(k) && !k.Unmatched?
    requires !k.Dry? && !k.Released? && !k.Remembers? && !k.Ever? && !k.Counted? && !k.Handless?
    ensures Ready(c, k, Marked(s, m))
  {
    hide Tally, LastEntry, NoEdits, StuckFree, NoFailures;
    EntrySkips(c, s.trace, m);
  }

  lemma KeepMark(c: Ctx, k: Kind, s: Item, m: Mark)
    requires Ready(c, k, s) && MarkOk(k, m)
    ensures Ready(c, k, Marked(s, m))
  {
    hide Ready, IsWrite, Is;
    if Hands(k) {
      MarkHands(c, k, s, m);
    } else if UntilMatch(k) || k.Unmatched? {
      MarkUntilMatch(c, k, s, m);
    } else if k.Dry? || k.Released? || k.Remembers? || k.Ever? || k.Counted? || k.Handless? {
      MarkCounts(c, k, s, m);
    } else {
      MarkPasses(c, k, s, m);
    }
  }

  lemma EntrySkips(c: Ctx, trace: seq<Mark>, m: Mark)
    ensures !m.Matched? ==> LastEntry(c, trace + [m]) == LastEntry(c, trace)
  {
    assert (trace + [m])[..|trace|] == trace;
  }

  lemma SayReturns(c: Ctx, s: Item, io: bool, m: Mark)
    ensures Steady(c, s, Say(c, s, io, m).s)
    ensures NoFailures(c) ==> Say(c, s, io, m).Ret?
  {
  }

  lemma SaidIsOk(k: Kind, m: Mark)
    requires k.Dry? ==> !IsWrite(m)
    requires m.Row? || m.CommentWrite? || m.MergeWrite? || m.CloseWrite? || m.Forwarded?
    requires k.Counted? ==> k.tag.HandOuts? || k.tag.Verdicts?
    ensures MarkOk(k, m)
  {
  }

  /** A call with nothing but a mark to show for it. */
  lemma KeepSay(c: Ctx, k: Kind, s: Item, io: bool, m: Mark)
    requires Ready(c, k, s)
    requires io && k.Dry? ==> !IsWrite(m)
    requires m.Row? || m.CommentWrite? || m.MergeWrite? || m.CloseWrite? || m.Forwarded?
    ensures Ready(c, k, Say(c, s, io, m).s)
    ensures Steady(c, s, Say(c, s, io, m).s)
    ensures NoFailures(c) ==> Say(c, s, io, m).Ret?
  {
    hide Ready, NoEdits, StuckFree, NoFailures, MarkOk;
    SayReturns(c, s, io, m);
    if io {
      AskGlances(c, s);
      KeepGlanced(c, k, s, Asked(c, s));
      OnlyHandOuts(c, k, s);
      SaidIsOk(k, m);
      KeepMark(c, k, Asked(c, s), m);
    }
  }

  lemma AskGlances(c: Ctx, s: Item)
    ensures Glanced(c, s, Asked(c, s))
  {
  }

  lemma OnlyHandOuts(c: Ctx, k: Kind, s: Item)
    requires Ready(c, k, s)
    ensures k.Counted? ==> k.tag.HandOuts? || k.tag.Verdicts?
  {
  }

  lemma KeepLog(c: Ctx, k: Kind, s: Item)
    requires Ready(c, k, s)
    ensures Ready(c, k, Log(c, s).s)
    ensures Steady(c, s, Log(c, s).s)
    ensures NoFailures(c) ==> Log(c, s).Ret?
  {
    hide Ready, Say;
    KeepSay(c, k, s, true, Row);
  }

  lemma KeepComment(c: Ctx, k: Kind, s: Item, io: bool)
    requires Ready(c, k, s)
    requires k.Dry? ==> !io
    ensures Ready(c, k, Comment(c, s, io).s)
    ensures Steady(c, s, Comment(c, s, io).s)
    ensures NoFailures(c) ==> Comment(c, s, io).Ret?
  {
    hide Holds, Say;
    KeepSay(c, k, s, io, CommentWrite(false));
  }

  lemma ReadGlances(c: Ctx, s: Item)
    ensures Glanced(c, s, Read(c, s).s)
    ensures NoFailures(c) ==> Read(c, s).Ret?
  {
  }

  lemma LabelsGlance(c: Ctx, s: Item)
    ensures Glanced(c, s, GetLabels(c, s).s)
    ensures GetLabels(c, s).Ret? ==> GetLabels(c, s).v == GetLabels(c, s).s.labels
    ensures NoFailures(c) ==> GetLabels(c, s).Ret?
  {
  }

  lemma BotGlances(c: Ctx, s: Item)
    ensures Glanced(c, s, BotLogin(c, s).s)
    ensures NoFailures(c) ==> BotLogin(c, s).Ret?
  {
  }

  /** Kinds that say nothing about the labels beyond ai-stuck. */
  predicate LabelFree(k: Kind) {
    !(k.Dry? || k.Still? || k.Address? || Hands(k))
  }

  lemma KeepWriteLabel(c: Ctx, k: Kind, s: Item, io: bool, add: bool, l: Label)
    requires Ready(c, k, s)
    requires io ==> LabelFree(k)
    requires io && OfStuck(k) ==> !(add && l == AiStuck)
    ensures Ready(c, k, WriteLabel(c, s, io, add, l).s)
    ensures NoFailures(c) ==> WriteLabel(c, s, io, add, l).Ret?
  {
    hide Ready, NoEdits, StuckFree;
    if io {
      AskGlances(c, s);
      KeepGlanced(c, k, s, Asked(c, s));
      var s1 := Asked(c, s);
      KeepLabels(c, k, s1, add, l);
      OnlyHandOuts(c, k, s);
      KeepMark(c, k, s1.(labels := if add then s1.labels + {l} else s1.labels - {l}), LabelWrite(add, l));
    }
  }

  lemma KeepLabels(c: Ctx, k: Kind, s: Item, add: bool, l: Label)
    requires Ready(c, k, s) && LabelFree(k)
    requires OfStuck(k) ==> !(add && l == AiStuck)
    ensures Ready(c, k, s.(labels := if add then s.labels + {l} else s.labels - {l}))
  {
    hide Tally, LastEntry;
  }

  lemma KeepClose(c: Ctx, k: Kind, s: Item, io: bool)
    requires Ready(c, k, s)
    requires k.Dry? ==> !io
    ensures Ready(c, k, CloseIssue(c, s, io).s)
    ensures Steady(c, s, CloseIssue(c, s, io).s)
    ensures NoFailures(c) ==> CloseIssue(c, s, io).Ret?
  {
    hide Ready, Say;
    var s1 := if io && Lands(c, s) then s.(open := false) else s;
    KeepSame(c, k, s, s1);
    KeepSay(c, k, s1, io, CloseWrite);
  }

  // --- storage ---

  predicate ArmOk(k: Kind, s: Item, f: Fire) {
    && (k.Dry? ==> f.deferUntil.None?)
    && (k.Released? && f.run == AutoReleaseLoop ==> s.releaseMerged.None? || Running(s, AutoReleaseLoop))
    && (k.Remembers? && f.run == k.run ==> Running(s, k.run) || Tally(s.trace, Starts(k.run)) > k.n)
    && (k.Quiet? ==> Tally(s.trace, Matches) > k.n)
    && (OfStuck(k) ==> AiStuck !in s.labels)
  }

  lemma KeepArm(c: Ctx, k: Kind, s: Item, f: Fire)
    requires Ready(c, k, s) && ArmOk(k, s, f)
    ensures Ready(c, k, Arm(c, s, f))
  {
  }

  lemma KeepDisarm(c: Ctx, k: Kind, s: Item)
    requires Ready(c, k, s)
    requires k.Quiet? ==> Tally(s.trace, Matches) > k.n
    ensures Ready(c, k, Disarm(s))
  {
  }

  lemma KeepForget(c: Ctx, k: Kind, s: Item, run: Routine)
    requires Ready(c, k, s)
    ensures Ready(c, k, Forget(s, run))
    ensures Tally(Forget(s, run).trace, Starts(run)) == Tally(s.trace, Starts(run)) + 1
    ensures Tally(Forget(s, run).trace, Matches) == Tally(s.trace, Matches)
  {
    hide Ready, Tally;
    TallyGrows(s.trace, Started(run), Matches);
    TallyGrows(s.trace, Started(run), Starts(run));
    if k.Remembers? {
      ForgetRemembers(c, k, s, run);
    } else {
      KeepForgotten(c, k, s, run);
      OnlyHandOuts(c, k, s);
      KeepMark(c, k, s.(outcomes := s.outcomes - {run}), Started(run));
    }
  }

  lemma ForgetRemembers(c: Ctx, k: Kind, s: Item, run: Routine)
    requires Ready(c, k, s) && k.Remembers?
    ensures Ready(c, k, Forget(s, run))
  {
    hide Tally, LastEntry, Passed, NoEdits, StuckFree, NoFailures;
    TallyGrows(s.trace, Started(run), Starts(k.run));
  }

  lemma KeepForgotten(c: Ctx, k: Kind, s: Item, run: Routine)
    requires Ready(c, k, s) && !k.Remembers?
    ensures Ready(c, k, s.(outcomes := s.outcomes - {run}))
  {
    hide Tally, LastEntry, NoEdits, StuckFree;
  }

  /** Two items that differ in nothing any kind speaks of. */
  predicate SameForKinds(s: Item, t: Item) {
    && s.labels == t.labels && s.pending == t.pending && s.alarm == t.alarm && s.ciFix == t.ciFix && s.rounds == t.rounds
    && s.reworkExpired == t.reworkExpired && s.releaseMerged == t.releaseMerged && s.outcomes == t.outcomes
    && s.trace == t.trace && s.now == t.now && s.seen == t.seen
  }

  lemma KeepSame(c: Ctx, k: Kind, s: Item, t: Item)
    requires Ready(c, k, s) && SameForKinds(s, t)
    ensures Ready(c, k, t)
  {
  }

  // --- fires ---

  /** What a fire of `run` must find for each kind. */
  predicate FireOk(k: Kind, s: Item, io: bool, run: Routine) {
    && (k.Dry? ==> !io)
    && (k.Released? && run == AutoReleaseLoop ==> s.releaseMerged.None?)
    && (k.Quiet? ==> Tally(s.trace, Matches) > k.n)
    && (OfStuck(k) ==> AiStuck !in s.labels)
  }

  /** A kind once a fire of `run` has begun. */
  function Begun(k: Kind, run: Routine): Kind {
    if k.Remembers? && k.run == run then Ever(Starts(run), k.n) else if k.Quiet? then Ever(Matches, k.n) else k
  }

  lemma BegunIsEnough(c: Ctx, k: Kind, run: Routine, s: Item)
    requires Ready(c, Begun(k, run), s) && WorldOk(c, k)
    ensures Ready(c, k, s)
  {
  }

  lemma TriedIsOk(k: Kind, s: Item, run: Routine, v: Verdict)
    requires !k.Quiet? && !k.Dry? && (k.Released? && run == AutoReleaseLoop ==> s.releaseMerged.None?)
    requires k.Counted? ==> k.tag.HandOuts? || k.tag.Verdicts?
    ensures MarkOk(k, FireTried(run, v, s.releaseMerged.Some?))
  {
  }

  lemma KeepFireRoutine(c: Ctx, k: Kind, s: Item, io: bool, run: Routine)
    requires Ready(c, k, s) && !k.Quiet?
    requires k.Dry? ==> !io
    requires k.Released? && run == AutoReleaseLoop ==> s.releaseMerged.None?
    ensures var t := FireRoutine(c, s, io, run).s;
      Ready(c, k, t) && t.pending == s.pending && t.releaseMerged == s.releaseMerged
      && Steady(c, s, t)
    ensures NoFailures(c) ==> !FireRoutine(c, s, io, run).Refused?
    ensures !io ==> FireRoutine(c, s, io, run).Sent?
  {
    hide Ready, NoEdits, StuckFree, MarkOk;
    if io {
      AskGlances(c, s);
      OnlyHandOuts(c, k, s);
      KeepGlanced(c, k, s, Asked(c, s));
      TriedIsOk(k, s, run, Next(c, s).verdict);
      KeepMark(c, k, Asked(c, s), FireTried(run, Next(c, s).verdict, s.releaseMerged.Some?));
    }
  }

  lemma KeepDeferFire(c: Ctx, k: Kind, s: Item, io: bool, run: Routine, retried: bool, unwatched: bool, at: int, again: bool)
    requires Ready(c, k, s) && FireOk(k, s, io, run) && !k.Dry?
    requires k.Remembers? ==> k.run != run
    ensures var t := DeferFire(c, s, io, run, retried, unwatched, at, again);
      Ready(c, k, t) && Steady(c, s, t)
  {
    hide Ready, Comment;
    var f := NewFire(s, run, retried, unwatched, Some(at + (c.number % 30) * 1000));
    KeepArm(c, k, s, f);
    KeepComment(c, k, Arm(c, s, f), io);
  }

  lemma FireOkStays(c: Ctx, k: Kind, s: Item, t: Item, io: bool, run: Routine)
    requires WorldOk(c, k) && FireOk(k, s, io, run) && !k.Quiet? && t.releaseMerged == s.releaseMerged
    requires Steady(c, s, t)
    ensures FireOk(k, t, io, run)
  {
    hide NoEdits, StuckFree, NoFailures;
  }

  /** A watched fire, armed and about to be sent. */
  lemma WatchedBegins(c: Ctx, k: Kind, s: Item, io: bool, run: Routine, retried: bool)
    requires Ready(c, k, s) && FireOk(k, s, io, run)
    ensures var s1 := Forget(s, run); var s2 := Arm(c, s1, NewFire(s1, run, retried, false, None)); var k1 := Begun(k, run);
      && Ready(c, k1, s2) && WorldOk(c, k) && WorldOk(c, k1) && FireOk(k1, s2, io, run) && !k1.Quiet?
      && (k1.Remembers? ==> k1.run != run)
      && s2.labels == s.labels && (k1.Dry? ==> !io) && (k1.Released? && run == AutoReleaseLoop ==> s2.releaseMerged.None?)
  {
    hide Holds, WorldOk, Tally;
    var s1 := Forget(s, run);
    KeepForget(c, k, s, run);
    StartBegins(c, k, s, run);
    KeepArm(c, Begun(k, run), s1, NewFire(s1, run, retried, false, None));
  }

  lemma KeepFireWatched(c: Ctx, k: Kind, s: Item, io: bool, run: Routine, retried: bool, again: bool)
    requires Ready(c, k, s) && FireOk(k, s, io, run)
    ensures var t := FireWatched(c, s, io, run, retried, again);
      Ready(c, k, t.s) && Steady(c, s, t.s) && (NoFailures(c) ==> t.Ret?)
  {
    hide Ready, FireRoutine, DeferFire, Arm, Forget, FireOk, WorldOk, NoEdits, StuckFree, NoFailures;
    var k1 := Begun(k, run);
    var s1 := Forget(s, run);
    var s2 := Arm(c, s1, NewFire(s1, run, retried, false, None));
    WatchedBegins(c, k, s, io, run, retried);
    KeepFireRoutine(c, k1, s2, io, run);
    match FireRoutine(c, s2, io, run) {
      case Sent(_) =>
      case Limited(s3, at) =>
        FireOkStays(c, k1, s2, s3, io, run);
        KeepDeferFire(c, k1, s3, io, run, retried, false, at, again || (Running(s1, run) && Deferred(s1)));
      case Refused(s3) => KeepDisarm(c, k1, s3);
    }
    BegunIsEnough(c, k, run, FireWatched(c, s, io, run, retried, again).s);
  }

  lemma StartBegins(c: Ctx, k: Kind, s: Item, run: Routine)
    requires Ready(c, k, s)
    requires k.Quiet? ==> Tally(s.trace, Matches) > k.n
    ensures Ready(c, Begun(k, run), Forget(s, run))
  {
    KeepForget(c, k, s, run);
  }

  /** An unwatched one, disarmed and about to be sent. */
  lemma UnwatchedBegins(c: Ctx, k: Kind, s: Item, io: bool, run: Routine)
    requires Ready(c, k, s) && FireOk(k, s, io, run)
    ensures var s2 := Disarm(Forget(s, run)); var k1 := Begun(k, run);
      && Ready(c, k1, s2) && WorldOk(c, k) && WorldOk(c, k1) && FireOk(k1, s2, io, run) && !k1.Quiet?
      && (k1.Remembers? ==> k1.run != run)
      && s2.labels == s.labels && (k1.Dry? ==> !io) && (k1.Released? && run == AutoReleaseLoop ==> s2.releaseMerged.None?)
  {
    hide Holds, WorldOk, Tally;
    KeepForget(c, k, s, run);
    StartBegins(c, k, s, run);
    KeepDisarm(c, Begun(k, run), Forget(s, run));
  }

  lemma KeepFireUnwatched(c: Ctx, k: Kind, s: Item, io: bool, run: Routine, again: bool)
    requires Ready(c, k, s) && FireOk(k, s, io, run)
    ensures var t := FireUnwatched(c, s, io, run, again);
      Ready(c, k, t.s) && Steady(c, s, t.s) && (NoFailures(c) ==> t.Ret?)
  {
    hide Ready, FireRoutine, DeferFire, Disarm, Forget, FireOk, WorldOk, NoEdits, StuckFree, NoFailures;
    var k1 := Begun(k, run);
    var s1 := Forget(s, run);
    var s2 := Disarm(s1);
    UnwatchedBegins(c, k, s, io, run);
    KeepFireRoutine(c, k1, s2, io, run);
    match FireRoutine(c, s2, io, run) {
      case Limited(s3, at) =>
        FireOkStays(c, k1, s2, s3, io, run);
        KeepDeferFire(c, k1, s3, io, run, false, true, at, again || (Running(s1, run) && Deferred(s1)));
      case _ =>
    }
    BegunIsEnough(c, k, run, FireUnwatched(c, s, io, run, again).s);
  }

  // --- what a rule leaves alone ---

  /** The counters and records no rule's own calls touch. */
  predicate Framed(s: Item, t: Item) {
    && s.ciFix == t.ciFix && s.rounds == t.rounds && s.reviewReworks == t.reviewReworks && s.reworkExpired == t.reworkExpired
    && s.mergeFiredFor == t.mergeFiredFor && s.shipped == t.shipped && s.releaseMerged == t.releaseMerged
    && s.seen == t.seen && s.reported == t.reported
  }

  lemma SayFrames(c: Ctx, s: Item, io: bool, m: Mark)
    ensures Framed(s, Say(c, s, io, m).s) && Say(c, s, io, m).s.pending == s.pending
  {
  }

  lemma WriteOpFrames(c: Ctx, s: Item, io: bool, op: LabelOp)
    ensures Framed(s, WriteOp(c, s, io, op).s) && WriteOp(c, s, io, op).s.pending == s.pending
  {
    hide Say;
    match op
    case AddOp(l) => WriteLabelFrames(c, s, io, true, l);
    case RemoveOp(l) => WriteLabelFrames(c, s, io, false, l);
    case CloseOp => SayFrames(c, if io && Lands(c, s) then s.(open := false) else s, io, CloseWrite);
  }

  lemma WriteLabelFrames(c: Ctx, s: Item, io: bool, add: bool, l: Label)
    ensures Framed(s, WriteLabel(c, s, io, add, l).s) && WriteLabel(c, s, io, add, l).s.pending == s.pending
  {
  }

  lemma WriteOpsFrame(c: Ctx, s: Item, io: bool, ops: seq<LabelOp>)
    ensures Framed(s, WriteOps(c, s, io, ops).s) && WriteOps(c, s, io, ops).s.pending == s.pending
    decreases |ops|
  {
    hide WriteOp;
    if ops != [] {
      WriteOpFrames(c, s, io, ops[0]);
      if WriteOp(c, s, io, ops[0]).Ret? {
        WriteOpsFrame(c, WriteOp(c, s, io, ops[0]).s, io, ops[1..]);
      }
    }
  }

  lemma FireRoutineFrames(c: Ctx, s: Item, io: bool, run: Routine)
    ensures Framed(s, FireRoutine(c, s, io, run).s)
  {
  }

  lemma DeferFrames(c: Ctx, s: Item, io: bool, run: Routine, retried: bool, unwatched: bool, at: int, again: bool)
    ensures Framed(s, DeferFire(c, s, io, run, retried, unwatched, at, again))
  {
    hide Say;
    SayFrames(c, Arm(c, s, NewFire(s, run, retried, unwatched, Some(at + (c.number % 30) * 1000))), io, CommentWrite(false));
  }

  lemma WatchedFrames(c: Ctx, s: Item, io: bool, run: Routine, retried: bool, again: bool)
    ensures Framed(s, FireWatched(c, s, io, run, retried, again).s)
  {
    hide FireRoutine, DeferFire;
    var s1 := Forget(s, run);
    var s2 := Arm(c, s1, NewFire(s1, run, retried, false, None));
    FireRoutineFrames(c, s2, io, run);
    var f := FireRoutine(c, s2, io, run);
    if f.Limited? {
      DeferFrames(c, f.s, io, run, retried, false, f.retryAt, again || (Running(s1, run) && Deferred(s1)));
    }
  }

  lemma UnwatchedFrames(c: Ctx, s: Item, io: bool, run: Routine, again: bool)
    ensures Framed(s, FireUnwatched(c, s, io, run, again).s)
  {
    hide FireRoutine, DeferFire;
    var s1 := Forget(s, run);
    FireRoutineFrames(c, Disarm(s1), io, run);
    var f := FireRoutine(c, Disarm(s1), io, run);
    if f.Limited? {
      DeferFrames(c, f.s, io, run, false, true, f.retryAt, again || (Running(s1, run) && Deferred(s1)));
    }
  }

  lemma FireOrClearFrames(c: Ctx, s: Item, io: bool, rule: Rule, told: bool)
    ensures Framed(s, FireOrClear(c, s, io, rule, told).s)
  {
    hide FireWatched, FireUnwatched, Say;
    if rule.run.Some? {
      WatchedFrames(c, s, io, rule.run.value, false, false);
      UnwatchedFrames(c, s, io, rule.run.value, false);
      var t := FireRule(c, s, io, rule, rule.run.value).s;
      SayFrames(c, t, true, Row);
      SayFrames(c, Log(c, t).s, io, CommentWrite(false));
    }
  }

  lemma RuleCallsFrame(c: Ctx, s: Item, rule: Rule, cl: set<Label>, told: bool)
    ensures Framed(s, RuleCalls(c, s, rule, cl, told).s)
  {
    hide WriteOps, FireOrClear, Say, LabelOps;
    var io := c.Enforced(rule.on);
    WriteOpsFrame(c, s, io, LabelOps(cl, rule));
    var s1 := WriteOps(c, s, io, LabelOps(cl, rule)).s;
    FireOrClearFrames(c, s1, io, rule, told);
    SayFrames(c, FireOrClear(c, s1, io, rule, told).s, true, Row);
  }

  lemma ApplyFrames(c: Ctx, s: Item, e: Event, cl: set<Label>, told: bool)
    ensures Framed(s, ApplyEvent(c, s, e, cl, told).s)
  {
    hide RuleCalls, Say, RuleFor, NotApplied;
    SayFrames(c, s, true, Row);
    if RuleFor(cl, e).Some? {
      var rule := RuleFor(cl, e).value;
      RuleCallsFrame(c, Marked(s, Matched(rule, PendingRun(s))), rule, cl, told);
    }
  }
}
