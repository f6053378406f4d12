// Whole runs of an item: any handlers in any order, people between them, time
// passing, and the facts every run keeps.

module Runs {
  import opened Wrappers
  import opened Graph
  import opened Items
  import opened Deliveries
  import opened Webhook
  import opened Watchdog
  import opened Signals
  import opened Sweeping

  /** One thing that happens to an item: a delivery, the alarm going off, an
      alarm invocation's turn, a signal, the sweep's question, people editing
      labels between them, or time passing. */
  datatype Act =
    | Delivery(input: Input)
    | Ring
    | AlarmRun
    | SignalIn(signal: Signal)
    | Sweep(enforced: bool, budget: bool, updatedAt: Option<int>)
    | People(came: set<Label>, gone: set<Label>)
    | Wait(ms: nat)

  /** An alarm goes off when its time is reached, or a little before: within
      the margin that its fire is not early by. It is gone from that moment,
      before its invocation's turn comes. */
  predicate Due(c: Ctx, s: Item) {
    s.alarm.Some? && (s.alarm.value <= s.now || (s.pending.Some? && !Early(c, s, s.pending.value)))
  }

  function Handle(c: Ctx, s: Item, a: Act): Item {
    match a
    case Delivery(i) => CoordinateWebhook(c, s, i).s
    case Ring => if Due(c, s) then s.(alarm := None) else s
    case AlarmRun => OnAlarm(c, s).s
    case SignalIn(sig) => OnSignal(c, s, sig).s
    case Sweep(enforced, budget, at) => Reconcile(c, s, enforced, budget, at).s
    case People(came, gone) => s.(labels := s.labels - gone + came)
    case Wait(ms) => s.(now := s.now + ms)
  }

  function Run(c: Ctx, s: Item, acts: seq<Act>): Item
    decreases |acts|
  {
    if acts == [] then s else Run(c, Handle(c, s, acts[0]), acts[1..])
  }

  /** An item nothing has happened to yet. */
  function NewItem(now: int): Item {
    Item({}, true, None, None, None, None, 0, false, None, None, None, map[], {}, None, None, now, 0, [])
  }
}

module RunKeeps {
  import opened Wrappers
  import opened Graph
  import opened Labels
  import opened Items
  import opened Deliveries
  import opened Webhook
  import opened Watchdog
  import opened Signals
  import opened Sweeping
  import opened Runs
  import opened Kinds
  import opened WebhookKeeps
  import opened WatchdogKeeps
  import opened SignalKeeps
  import opened SweepKeeps

  /** What each kind asks of an act. */
  predicate ActFits(k: Kind, a: Act) {
    match a
    case Delivery(i) => Fits(k, i.payload) && (k.Unseen? ==> i.id != k.id)
    case Ring => !k.Armed?
    case People(came, gone) => !Hands(k) && !k.Still? && !k.Address? && (OfStuck(k) ==> AiStuck !in came + gone)
    case _ => true
  }

  lemma KeepPeople(c: Ctx, k: Kind, s: Item, came: set<Label>, gone: set<Label>)
    requires Ready(c, k, s) && Lasting(k) && ActFits(k, People(came, gone))
    ensures Ready(c, k, s.(labels := s.labels - gone + came))
  {
    hide Tally, LastEntry;
  }

  lemma KeepTime(c: Ctx, k: Kind, s: Item, ms: nat)
    requires Ready(c, k, s) && Lasting(k)
    ensures Ready(c, k, s.(now := s.now + ms))
    ensures !k.Armed? ==> Ready(c, k, s.(alarm := None))
  {
    hide Tally, LastEntry, Passed;
  }

  /** Every handler keeps every kind its act fits. */
  lemma KeepHandle(c: Ctx, k: Kind, s: Item, a: Act)
    requires Ready(c, k, s) && Lasting(k) && ActFits(k, a)
    ensures Ready(c, k, Handle(c, s, a))
  {
    hide Ready, CoordinateWebhook, OnAlarm, OnSignal, Reconcile, Fits, NoFailures;
    match a
    case Delivery(i) =>
      KeepDelivery(c, k, s, i);
      OpenStays(c, k, s, CoordinateWebhook(c, s, i));
    case Ring => KeepTime(c, k, s, 0);
    case AlarmRun => KeepAlarm(c, k, s);
    case SignalIn(sig) => KeepSignal(c, k, s, sig);
    case Sweep(enforced, budget, at) => KeepReconcile(c, k, s, enforced, budget, at);
    case People(came, gone) => KeepPeople(c, k, s, came, gone);
    case Wait(ms) => KeepTime(c, k, s, ms);
  }

  /** So does every run of acts it fits. */
  lemma {:induction false} KeepRun(c: Ctx, k: Kind, s: Item, acts: seq<Act>)
    requires Ready(c, k, s) && Lasting(k) && forall a | a in acts :: ActFits(k, a)
    ensures Ready(c, k, Run(c, s, acts))
    decreases |acts|
  {
    hide Ready, Handle, ActFits;
    if acts != [] {
      KeepHandle(c, k, s, acts[0]);
      KeepRun(c, k, Handle(c, s, acts[0]), acts[1..]);
    }
  }
}
