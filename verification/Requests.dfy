// One request at a time, and one completed attempt for each delivery id
// (worker/src/issue-coordinator.ts's serial, worker/src/coordinate/webhook.ts).

module Attempts {
  import opened Graph
  import opened Items
  import opened Deliveries
  import opened Webhook
  import opened Runs
  import opened Kinds
  import opened WebhookKeeps
  import opened WatchdogKeeps
  import opened RunKeeps

  /** A delivery with this id that is processed, and whose processing returns. */
  predicate Completes(c: Ctx, s: Item, a: Act, id: DeliveryId) {
    a.Delivery? && a.input.id == id && id !in s.seen && CoordinateWebhook(c, s, a.input).Ret?
  }

  function Completions(c: Ctx, s: Item, acts: seq<Act>, id: DeliveryId): nat
    decreases |acts|
  {
    if acts == [] then 0
    else (if Completes(c, s, acts[0], id) then 1 else 0) + Completions(c, Handle(c, s, acts[0]), acts[1..], id)
  }

  lemma SeenFits(id: DeliveryId, a: Act)
    ensures ActFits(Seen(id), a) && Lasting(Seen(id))
  {
  }

  lemma StaysSeen(c: Ctx, s: Item, id: DeliveryId, a: Act)
    requires id in s.seen
    ensures id in Handle(c, s, a).seen
  {
    hide Handle, ActFits, Lasting;
    assert Ready(c, Seen(id), s);
    SeenFits(id, a);
    KeepHandle(c, Seen(id), s, a);
    SeenSays(c, Seen(id), Handle(c, s, a));
  }

  /** A delivery processed to completion is claimed for good. */
  lemma CompletionClaims(c: Ctx, s: Item, i: Input)
    requires i.id != NoId && i.id !in s.seen
    ensures var st := CoordinateWebhook(c, s, i);
      if st.Ret? then i.id in st.s.seen else i.id !in st.s.seen
  {
    hide ProcessWebhook, NoFailures;
    var s1 := s.(seen := s.seen + {i.id});
    var k := Seen(i.id);
    assert Ready(c, k, s1);
    KeepProcessWebhook(c, k, s1, i);
    OpenStays(c, k, s1, ProcessWebhook(c, s1, i));
    SeenSays(c, k, ProcessWebhook(c, s1, i).s);
  }

  /** Over any run, each non-empty delivery id has at most one attempt that
      processes to completion, and none once it is claimed. */
  lemma {:induction false} OneCompletion(c: Ctx, s: Item, acts: seq<Act>, id: DeliveryId)
    requires id != NoId
    ensures Completions(c, s, acts, id) <= if id in s.seen then 0 else 1
    decreases |acts|
  {
    hide Handle, CoordinateWebhook;
    if acts != [] {
      var t := Handle(c, s, acts[0]);
      OneCompletion(c, t, acts[1..], id);
      if id in s.seen {
        StaysSeen(c, s, id, acts[0]);
      } else if Completes(c, s, acts[0], id) {
        CompletionClaims(c, s, acts[0].input);
        HandleIs(c, s, acts[0]);
      }
    }
  }

  lemma HandleIs(c: Ctx, s: Item, a: Act)
    requires a.Delivery?
    ensures Handle(c, s, a) == CoordinateWebhook(c, s, a.input).s
  {
  }

  lemma UnseenSays(c: Ctx, k: Kind, s: Item)
    requires Ready(c, k, s) && k.Unseen?
    ensures k.id !in s.seen
  {
  }

  lemma UnseenFits(id: DeliveryId, acts: seq<Act>)
    requires forall a | a in acts && a.Delivery? :: a.input.id != id
    ensures forall a | a in acts :: ActFits(Unseen(id), a)
  {
  }

  /** An attempt that fails gives its claim back, and nothing else takes it: the
      redelivery, whenever it comes, is processed and not taken for a duplicate. */
  lemma FailedAttemptIsRetried(c: Ctx, s: Item, i: Input, acts: seq<Act>)
    requires i.id.Github? && i.id !in s.seen && CoordinateWebhook(c, s, i).Thr?
    requires forall a | a in acts && a.Delivery? :: a.input.id != i.id
    ensures var u := Run(c, CoordinateWebhook(c, s, i).s, acts);
      && i.id !in u.seen
      && (CoordinateWebhook(c, u, i).Ret? ==>
            CoordinateWebhook(c, u, i) == ProcessWebhook(c, u.(seen := u.seen + {i.id}), i))
  {
    hide Run, ActFits, ProcessWebhook;
    CompletionClaims(c, s, i);
    var t := CoordinateWebhook(c, s, i).s;
    var k := Unseen(i.id);
    assert Ready(c, k, t);
    UnseenFits(i.id, acts);
    KeepRun(c, k, t, acts);
    UnseenSays(c, k, Run(c, t, acts));
  }
}

module Serial {
  /** A request's own work, cut at its awaits, and whether it ends well, as the
      state it leaves decides. */
  datatype Work<!S> = Work(segments: seq<S -> S>, ok: S -> bool)

  datatype Phase = Waiting | Working(next: nat) | Fulfilled | Rejected

  /** The item's state; the requests in order of arrival, each with its phase;
      and which of their promises' catches have run: what the next one waits
      for. */
  datatype Chain<!S> = Chain(state: S, works: seq<Work<S>>, phases: seq<Phase>, caught: set<nat>)

  predicate Settled(p: Phase) {
    p.Fulfilled? || p.Rejected?
  }

  /** One thing that happens: a request arrives, starts (its turn has come),
      runs to its next await, or settles; or a settled one is caught. */
  datatype Event<!S> = Arrive(work: Work<S>) | Start(k: nat) | Continue(k: nat) | Settle(k: nat) | Catch(k: nat)

  ghost predicate Enabled<S(!new)>(ch: Chain<S>, e: Event<S>) {
    match e
    case Arrive(_) => true
    case Start(k) => k < |ch.phases| && ch.phases[k].Waiting? && (k == 0 || k - 1 in ch.caught)
    case Continue(k) =>
      k < |ch.phases| && k < |ch.works| && ch.phases[k].Working? && ch.phases[k].next < |ch.works[k].segments|
    case Settle(k) =>
      k < |ch.phases| && k < |ch.works| && ch.phases[k].Working? && ch.phases[k].next == |ch.works[k].segments|
    case Catch(k) => k < |ch.phases| && Settled(ch.phases[k])
  }

  ghost function Step<S(!new)>(ch: Chain<S>, e: Event<S>): Chain<S>
    requires Enabled(ch, e)
  {
    match e
    case Arrive(w) => ch.(works := ch.works + [w], phases := ch.phases + [Waiting])
    case Start(k) => ch.(phases := ch.phases[k := Working(0)])
    case Continue(k) =>
      ch.(state := ch.works[k].segments[ch.phases[k].next](ch.state), phases := ch.phases[k := Working(ch.phases[k].next + 1)])
    case Settle(k) => ch.(phases := ch.phases[k := if ch.works[k].ok(ch.state) then Fulfilled else Rejected])
    case Catch(k) => ch.(caught := ch.caught + {k})
  }

  /** Segments run one after another. */
  ghost function RunAll<S(!new)>(s: S, segments: seq<S -> S>): S {
    if segments == [] then s else segments[|segments| - 1](RunAll(s, segments[..|segments| - 1]))
  }

  /** The first k works, each from its start to its end, in order of arrival. */
  ghost function InOrder<S(!new)>(s: S, works: seq<Work<S>>, k: nat): S
    requires k <= |works|
  {
    if k == 0 then s else RunAll(InOrder(s, works, k - 1), works[k - 1].segments)
  }

  /** Settled up to `cut`, waiting after it, and the state what the settled
      works and the one at work have made of it. */
  ghost predicate Orderly<S(!new)>(start: S, ch: Chain<S>, cut: nat) {
    && |ch.works| == |ch.phases| && cut <= |ch.works|
    && (forall j | 0 <= j < cut :: Settled(ch.phases[j]))
    && (forall j | cut < j < |ch.phases| :: ch.phases[j].Waiting?)
    && (cut < |ch.phases| ==> !Settled(ch.phases[cut]))
    && (forall k | k in ch.caught :: k < cut)
    && (cut < |ch.phases| && ch.phases[cut].Working? ==> ch.phases[cut].next <= |ch.works[cut].segments|)
    && ch.state == (if cut < |ch.phases| && ch.phases[cut].Working?
                    then RunAll(InOrder(start, ch.works, cut), ch.works[cut].segments[..ch.phases[cut].next])
                    else InOrder(start, ch.works, cut))
  }

  ghost function NextCut<S(!new)>(e: Event<S>, cut: nat): nat {
    if e.Settle? then cut + 1 else cut
  }

  lemma {:induction false} InOrderOfMore<S(!new)>(s: S, works: seq<Work<S>>, w: Work<S>, k: nat)
    requires k <= |works|
    ensures InOrder(s, works + [w], k) == InOrder(s, works, k)
  {
    if k > 0 {
      InOrderOfMore(s, works, w, k - 1);
    }
  }

  lemma ArriveStaysOrderly<S(!new)>(start: S, ch: Chain<S>, cut: nat, w: Work<S>)
    requires Orderly(start, ch, cut)
    ensures Orderly(start, Step(ch, Arrive(w)), cut)
  {
    hide RunAll;
    InOrderOfMore(start, ch.works, w, cut);
  }

  lemma ContinueStaysOrderly<S(!new)>(start: S, ch: Chain<S>, cut: nat, k: nat)
    requires Orderly(start, ch, cut) && Enabled(ch, Continue(k))
    ensures Orderly(start, Step(ch, Continue(k)), cut)
  {
    hide InOrder;
    assert k == cut;
    var n := ch.phases[k].next;
    var done := ch.works[k].segments[..n + 1];
    assert done[..|done| - 1] == ch.works[k].segments[..n];
  }

  /** Whatever interleaving of arrivals and resumptions comes, the works are run
      one at a time, whole, in order of arrival. */
  lemma StepsStayOrderly<S(!new)>(start: S, ch: Chain<S>, cut: nat, e: Event<S>)
    requires Orderly(start, ch, cut) && Enabled(ch, e)
    ensures Orderly(start, Step(ch, e), NextCut(e, cut))
  {
    match e
    case Arrive(w) => ArriveStaysOrderly(start, ch, cut, w);
    case Continue(k) => ContinueStaysOrderly(start, ch, cut, k);
    case Start(k) =>
      assert k == cut;
      assert ch.works[k].segments[..0] == [];
    case Settle(k) =>
      assert k == cut;
      assert ch.works[k].segments[..ch.phases[k].next] == ch.works[k].segments;
    case Catch(k) =>
  }

  ghost predicate Follows<S(!new)>(ch: Chain<S>, events: seq<Event<S>>)
    decreases |events|
  {
    events == [] || (Enabled(ch, events[0]) && Follows(Step(ch, events[0]), events[1..]))
  }

  ghost function Last<S(!new)>(ch: Chain<S>, events: seq<Event<S>>): Chain<S>
    requires Follows(ch, events)
    decreases |events|
  {
    if events == [] then ch else Last(Step(ch, events[0]), events[1..])
  }

  ghost function Cut<S(!new)>(events: seq<Event<S>>, cut: nat): nat
    decreases |events|
  {
    if events == [] then cut else Cut(events[1..], NextCut(events[0], cut))
  }

  /** Over any schedule: once every request has settled, the item is as if each
      had run alone, in order of arrival. */
  lemma {:induction false} ScheduleIsSerial<S(!new)>(start: S, ch: Chain<S>, cut: nat, events: seq<Event<S>>)
    requires Orderly(start, ch, cut) && Follows(ch, events)
    ensures Orderly(start, Last(ch, events), Cut(events, cut))
    ensures var t := Last(ch, events);
      (forall p | p in t.phases :: Settled(p)) ==> t.state == InOrder(start, t.works, |t.works|)
    decreases |events|
  {
    if events != [] {
      StepsStayOrderly(start, ch, cut, events[0]);
      ScheduleIsSerial(start, Step(ch, events[0]), NextCut(events[0], cut), events[1..]);
    }
  }

  /** What lets the request at the cut go on. */
  ghost function Onward<S(!new)>(ch: Chain<S>, cut: nat): Event<S>
    requires cut < |ch.phases| && cut < |ch.works|
  {
    if ch.phases[cut].Working? then
      if ch.phases[cut].next < |ch.works[cut].segments| then Continue(cut) else Settle(cut)
    else if cut == 0 || cut - 1 in ch.caught then Start(cut)
    else Catch(cut - 1)
  }

  /** A request that failed never blocks the next: while any is unsettled, the
      first of them can go on, at most one catch away from its start, whether
      the one before it was fulfilled or rejected. */
  lemma NeverBlocked<S(!new)>(start: S, ch: Chain<S>, cut: nat)
    requires Orderly(start, ch, cut) && cut < |ch.phases|
    ensures Enabled(ch, Onward(ch, cut))
    ensures Onward(ch, cut).Catch? ==> Enabled(Step(ch, Onward(ch, cut)), Start(cut))
  {
  }

  /** At most one request is at work. */
  lemma OneAtATime<S(!new)>(start: S, ch: Chain<S>, cut: nat, a: nat, b: nat)
    requires Orderly(start, ch, cut)
    requires a < |ch.phases| && b < |ch.phases| && ch.phases[a].Working? && ch.phases[b].Working?
    ensures a == b
  {
  }

  /** The coordinator's own queue: each request chained on the one before. */
  class Queue<S(!new)> {
    var state: S
    var works: seq<Work<S>>
    var phases: seq<Phase>
    var caught: set<nat>
    /** The state at the start, and how many requests have settled. */
    ghost const start: S
    ghost var cut: nat

    ghost function View(): Chain<S>
      reads this
    {
      Chain(state, works, phases, caught)
    }

    ghost predicate Valid()
      reads this
    {
      Orderly(start, View(), cut)
    }

    constructor (initial: S)
      ensures Valid() && start == initial && View() == Chain(initial, [], [], {})
    {
      state, works, phases, caught := initial, [], [], {};
      start, cut := initial, 0;
    }

    /** serial(): a request joins the chain. */
    method Serial(work: Work<S>)
      requires Valid()
      modifies this
      ensures Valid() && View() == Step(old(View()), Arrive(work))
    {
      StepsStayOrderly(start, View(), cut, Arrive(work));
      works := works + [work];
      phases := phases + [Waiting];
    }

    /** The one before has settled, either way: its turn. */
    method Begin(k: nat)
      requires Valid() && Enabled(View(), Start(k))
      modifies this
      ensures Valid() && View() == Step(old(View()), Start(k))
    {
      StepsStayOrderly(start, View(), cut, Start(k));
      phases := phases[k := Working(0)];
    }

    /** It runs to its next await. */
    method Resume(k: nat)
      requires Valid() && Enabled(View(), Continue(k))
      modifies this
      ensures Valid() && View() == Step(old(View()), Continue(k))
    {
      StepsStayOrderly(start, View(), cut, Continue(k));
      var next := phases[k].next;
      state := works[k].segments[next](state);
      phases := phases[k := Working(next + 1)];
    }

    /** It settles, well or not. */
    method Finish(k: nat)
      requires Valid() && Enabled(View(), Settle(k))
      modifies this
      ensures Valid() && View() == Step(old(View()), Settle(k))
      ensures cut == old(cut) + 1
    {
      StepsStayOrderly(start, View(), cut, Settle(k));
      phases := phases[k := if works[k].ok(state) then Fulfilled else Rejected];
      cut := cut + 1;
    }

    /** Its failure, if it failed, is swallowed: what the next one waits for. */
    method Swallow(k: nat)
      requires Valid() && Enabled(View(), Catch(k))
      modifies this
      ensures Valid() && View() == Step(old(View()), Catch(k))
    {
      StepsStayOrderly(start, View(), cut, Catch(k));
      caught := caught + {k};
    }
  }
}
