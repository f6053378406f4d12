// The sweep scheduler (worker/src/scheduler.ts): its pace, whatever /ensure
// calls come while a sweep runs, and the sweep's budget of re-fires.

module Pace {
  import opened Wrappers

  const MINUTE_MS: nat := 60_000
  const DEFAULT_SWEEP_MINUTES: nat := 15
  const DEFAULT_IDLE_MINUTES: nat := 60

  /** A setting in minutes; absent, or not positive, it is the default. */
  function Minutes(setting: Option<int>, otherwise: nat): nat {
    (if setting.Some? && setting.value > 0 then setting.value else otherwise) * MINUTE_MS
  }

  /** The normal and the idle interval; a quiet repo never sweeps faster. */
  datatype Config = Config(sweepMinutes: Option<int>, idleMinutes: Option<int>) {
    function Interval(): nat {
      Minutes(sweepMinutes, DEFAULT_SWEEP_MINUTES)
    }
    function Idle(): nat {
      var idle := Minutes(idleMinutes, DEFAULT_IDLE_MINUTES);
      if idle < Interval() then Interval() else idle
    }
  }

  /** alarm(): not running; gone off and not yet begun; or its sweep running. */
  datatype Running = Resting | Rung | Sweeping(started: int)

  /** An /ensure between reading the alarm and acting on it. */
  datatype Call = Call(began: int, found: Option<int>)

  /** The scheduler's object, the calls in flight, and (for what is said of
      them) when the last sweep began and whether an /ensure has come since. */
  datatype State = State(
    now: int, armed: Option<int>, lastEnsure: int, alarm: Running, waiting: seq<Call>,
    epoch: int, called: bool)

  /** What happens between awaits. A sweep ends well, saying whether anything is
      live, or throws. */
  datatype Event =
    | Pass(ms: nat)
    | GoOff
    | BeginAlarm
    | EndSweep(threw: bool, quiet: bool)
    | BeginEnsure
    | EndEnsure(k: nat)

  predicate Enabled(s: State, e: Event) {
    match e
    case Pass(_) => true
    case GoOff => s.alarm.Resting? && s.armed.Some? && s.armed.value <= s.now
    case BeginAlarm => s.alarm.Rung?
    case EndSweep(_, _) => s.alarm.Sweeping?
    case BeginEnsure => true
    case EndEnsure(k) => k < |s.waiting|
  }

  function Act(c: Config, s: State, e: Event): State
    requires Enabled(s, e)
  {
    match e
    case Pass(ms) => s.(now := s.now + ms)
    case GoOff => s.(armed := None, alarm := Rung)
    case BeginAlarm =>
      s.(armed := Some(s.now + c.Interval()), alarm := Sweeping(s.now), epoch := s.now, called := false)
    case EndSweep(threw, quiet) =>
      var slow := !threw && quiet && s.lastEnsure < s.alarm.started;
      s.(armed := if slow then Some(s.alarm.started + c.Idle()) else s.armed, alarm := Resting)
    case BeginEnsure =>
      s.(lastEnsure := s.now, waiting := s.waiting + [Call(s.now, s.armed)], called := true)
    case EndEnsure(k) =>
      var f := s.waiting[k];
      var next := f.began + c.Interval();
      s.(armed := if f.found.None? || f.found.value > next then Some(next) else s.armed,
         waiting := s.waiting[..k] + s.waiting[k + 1..])
  }

  /** An /ensure that will yet arm the alarm. */
  predicate WillArm(c: Config, f: Call) {
    f.found.None? || f.found.value > f.began + c.Interval()
  }

  predicate InTime(c: Config, s: State) {
    s.armed.Some? && s.armed.value <= s.lastEnsure + c.Interval()
  }

  /** Armed, but between an alarm going off and its beginning; and once an
      /ensure has come since the last sweep began, no later than the normal
      interval after the last /ensure, or about to be by one still in flight. */
  predicate Kept(c: Config, s: State) {
    && (!s.alarm.Rung? ==> s.armed.Some?)
    && s.lastEnsure <= s.now && s.epoch <= s.now
    && (s.alarm.Sweeping? ==> s.alarm.started == s.epoch)
    && (s.called ==> s.epoch <= s.lastEnsure)
    && (forall f | f in s.waiting :: f.began <= s.lastEnsure)
    && (s.called && !s.alarm.Rung? ==> InTime(c, s) || exists f :: f in s.waiting && WillArm(c, f))
  }

  lemma RestIn(fs: seq<Call>, k: nat, f: Call)
    requires k < |fs| && f in fs && f != fs[k]
    ensures f in fs[..k] + fs[k + 1..]
  {
    var j :| 0 <= j < |fs| && fs[j] == f;
    if j < k {
      assert fs[..k][j] == f;
    } else {
      assert fs[k + 1..][j - k - 1] == f;
    }
  }

  lemma RestWas(fs: seq<Call>, k: nat, f: Call)
    requires k < |fs| && f in fs[..k] + fs[k + 1..]
    ensures f in fs
  {
  }

  lemma EndEnsureKeeps(c: Config, s: State, k: nat)
    requires Kept(c, s) && k < |s.waiting|
    ensures Kept(c, Act(c, s, EndEnsure(k)))
  {
    var t := Act(c, s, EndEnsure(k));
    var f := s.waiting[k];
    forall g | g in t.waiting
      ensures g.began <= t.lastEnsure
    {
      RestWas(s.waiting, k, g);
    }
    if s.called && !s.alarm.Rung? && !WillArm(c, f) && !InTime(c, s) {
      var g :| g in s.waiting && WillArm(c, g);
      RestIn(s.waiting, k, g);
    }
  }

  lemma BeginEnsureKeeps(c: Config, s: State)
    requires Kept(c, s)
    ensures Kept(c, Act(c, s, BeginEnsure))
  {
    var t := Act(c, s, BeginEnsure);
    var f := Call(s.now, s.armed);
    assert t.waiting[|s.waiting|] == f;
    if !s.alarm.Rung? && !WillArm(c, f) {
      assert InTime(c, t);
    }
  }

  lemma StepKeeps(c: Config, s: State, e: Event)
    requires Kept(c, s) && Enabled(s, e)
    ensures Kept(c, Act(c, s, e))
  {
    match e
    case EndEnsure(k) => EndEnsureKeeps(c, s, k);
    case BeginEnsure => BeginEnsureKeeps(c, s);
    case Pass(ms) =>
      if s.called && !s.alarm.Rung? && !InTime(c, s) {
        var f :| f in s.waiting && WillArm(c, f);
        assert f in Act(c, s, e).waiting;
      }
    case EndSweep(threw, quiet) =>
      if s.called && !InTime(c, s) {
        var f :| f in s.waiting && WillArm(c, f);
        assert f in Act(c, s, e).waiting;
      }
    case _ =>
  }

  predicate Follows(c: Config, s: State, events: seq<Event>)
    decreases |events|
  {
    events == [] || (Enabled(s, events[0]) && Follows(c, Act(c, s, events[0]), events[1..]))
  }

  function Last(c: Config, s: State, events: seq<Event>): State
    requires Follows(c, s, events)
    decreases |events|
  {
    if events == [] then s else Last(c, Act(c, s, events[0]), events[1..])
  }

  /** For every interleaving at awaits of alarm() and any number of /ensure
      calls, sweeps that throw among them: an alarm stays armed, but for the
      moment between one going off and beginning; and an /ensure that began
      after the sweep did is never left at the idle pace: once the calls are
      done, the alarm is set no later than the normal interval after it. */
  lemma {:induction false} NeverLeftIdle(c: Config, s: State, events: seq<Event>)
    requires Kept(c, s) && Follows(c, s, events)
    ensures var t := Last(c, s, events);
      && Kept(c, t)
      && (!t.alarm.Rung? ==> t.armed.Some?)
      && (t.called && t.waiting == [] && t.alarm.Resting? ==> InTime(c, t))
    decreases |events|
  {
    if events != [] {
      StepKeeps(c, s, events[0]);
      NeverLeftIdle(c, Act(c, s, events[0]), events[1..]);
    }
  }

  // --- one call's own bound ---

  /** Armed within the interval of a call that began at `began`. */
  predicate Own(c: Config, began: int, s: State) {
    s.armed.Some? && s.armed.value <= began + c.Interval()
  }

  /** Where the call at k in the queue of calls is once the call at j is done. */
  function Moved(k: nat, j: nat): nat {
    if j < k then k - 1 else k
  }

  /** The call in flight at k is done by the end of these events. */
  predicate Ended(events: seq<Event>, k: nat)
    decreases |events|
  {
    events != [] &&
      if events[0].EndEnsure? then events[0].k == k || Ended(events[1..], Moved(k, events[0].k)) else Ended(events[1..], k)
  }

  /** No other /ensure begins before it is. */
  predicate Alone(events: seq<Event>, k: nat)
    decreases |events|
  {
    events == [] ||
      if events[0].EndEnsure? then events[0].k == k || Alone(events[1..], Moved(k, events[0].k))
      else !events[0].BeginEnsure? && Alone(events[1..], k)
  }

  /** Since an /ensure began at `began`, with no alarm gone off: nothing still
      in flight will arm later than its interval. */
  predicate Since(c: Config, began: int, s: State) {
    && !s.alarm.Rung? && s.armed.Some? && began <= s.lastEnsure && began <= s.now
    && (s.alarm.Sweeping? ==> s.alarm.started <= began)
    && (forall f | f in s.waiting :: WillArm(c, f) ==> f.began <= began)
  }

  /** That /ensure, still in flight at k: what it found is in time, or it arms
      in time itself. `near`: what is armed is at most a millisecond late. */
  predicate Flight(c: Config, began: int, s: State, k: nat, near: bool) {
    && Since(c, began, s) && k < |s.waiting| && s.waiting[k].began == began
    && (Own(c, began, s) || WillArm(c, s.waiting[k]))
    && (near ==> s.armed.value <= began + c.Interval() + 1)
  }

  lemma SinceAfterEnd(c: Config, began: int, s: State, j: nat)
    requires Since(c, began, s) && j < |s.waiting|
    ensures var t := Act(c, s, EndEnsure(j));
      Since(c, began, t) && (t.armed == s.armed || Own(c, began, t)) && (WillArm(c, s.waiting[j]) ==> Own(c, began, t))
  {
    var t := Act(c, s, EndEnsure(j));
    forall f | f in t.waiting && WillArm(c, f)
      ensures f.began <= began
    {
      RestWas(s.waiting, j, f);
    }
  }

  lemma SinceAfterBegin(c: Config, began: int, s: State)
    requires Since(c, began, s) && s.armed.value <= began + c.Interval() + 1
    ensures var t := Act(c, s, BeginEnsure); Since(c, began, t) && t.armed == s.armed
  {
  }

  /** A step while it is in flight, and the one that ends it. */
  lemma FlightStep(c: Config, began: int, s: State, k: nat, near: bool, e: Event)
    requires Flight(c, began, s, k, near) && Enabled(s, e) && e != GoOff && (e.BeginEnsure? ==> near)
    ensures var t := Act(c, s, e);
      if e == EndEnsure(k) then Since(c, began, t) && Own(c, began, t)
      else Flight(c, began, t, if e.EndEnsure? then Moved(k, e.k) else k, near)
  {
    hide Since;
    match e
    case EndEnsure(j) =>
      SinceAfterEnd(c, began, s, j);
      SinceSays(c, began, s);
      if j != k {
        var rest := s.waiting[..j] + s.waiting[j + 1..];
        assert rest[Moved(k, j)] == s.waiting[k];
      }
    case BeginEnsure =>
      SinceSays(c, began, s);
      SinceAfterBegin(c, began, s);
    case Pass(_) => SinceIdle(c, began, s, e);
    case EndSweep(_, _) => SinceIdle(c, began, s, e);
    case BeginAlarm => SinceSays(c, began, s);
  }

  lemma SinceSays(c: Config, began: int, s: State)
    requires Since(c, began, s)
    ensures s.armed.Some? && !s.alarm.Rung?
  {
  }

  lemma SinceIdle(c: Config, began: int, s: State, e: Event)
    requires Since(c, began, s) && Enabled(s, e) && (e.Pass? || e.EndSweep?)
    ensures var t := Act(c, s, e); Since(c, began, t) && t.armed == s.armed && t.waiting == s.waiting
  {
  }

  lemma LandedStep(c: Config, began: int, s: State, e: Event)
    requires Since(c, began, s) && Own(c, began, s) && Enabled(s, e) && e != GoOff
    ensures var t := Act(c, s, e); Since(c, began, t) && Own(c, began, t)
  {
    match e
    case EndEnsure(j) => SinceAfterEnd(c, began, s, j);
    case BeginEnsure => SinceAfterBegin(c, began, s);
    case BeginAlarm =>
    case _ => SinceIdle(c, began, s, e);
  }

  lemma {:induction false} LandedStands(c: Config, began: int, s: State, events: seq<Event>)
    requires Since(c, began, s) && Own(c, began, s) && Follows(c, s, events) && GoOff !in events
    ensures Own(c, began, Last(c, s, events))
    decreases |events|
  {
    hide Since, Own;
    if events != [] {
      LandedStep(c, began, s, events[0]);
      LandedStands(c, began, Act(c, s, events[0]), events[1..]);
    }
  }

  lemma {:induction false} FlightLands(c: Config, began: int, s: State, k: nat, near: bool, events: seq<Event>)
    requires Flight(c, began, s, k, near) && Follows(c, s, events) && GoOff !in events
    requires Ended(events, k) && (near || Alone(events, k))
    ensures Own(c, began, Last(c, s, events))
    decreases |events|
  {
    hide Flight, Since, Own;
    var e := events[0];
    FlightStep(c, began, s, k, near, e);
    var t := Act(c, s, e);
    if e == EndEnsure(k) {
      LandedStands(c, began, t, events[1..]);
    } else {
      FlightLands(c, began, t, if e.EndEnsure? then Moved(k, e.k) else k, near, events[1..]);
    }
  }

  lemma KeptArmed(c: Config, s: State)
    requires Kept(c, s) && !s.alarm.Rung?
    ensures s.armed.Some?
  {
  }

  lemma TakesOff(c: Config, s: State)
    requires Kept(c, s) && !s.alarm.Rung?
    ensures Flight(c, s.now, Act(c, s, BeginEnsure), |s.waiting|, s.armed.value <= s.now + c.Interval() + 1)
  {
  }

  /** An /ensure during which no other begins keeps its own bound: from its end
      until the next alarm goes off, whatever else is in flight or comes after
      it, the alarm is set no later than the normal interval after it. */
  lemma AloneKeepsItsBound(c: Config, s: State, events: seq<Event>)
    requires Kept(c, s) && !s.alarm.Rung?
    requires Follows(c, Act(c, s, BeginEnsure), events) && GoOff !in events
    requires Ended(events, |s.waiting|) && Alone(events, |s.waiting|)
    ensures Own(c, s.now, Last(c, Act(c, s, BeginEnsure), events))
  {
    hide Kept, Own, Flight;
    TakesOff(c, s);
    KeptArmed(c, s);
    FlightLands(c, s.now, Act(c, s, BeginEnsure), |s.waiting|, s.armed.value <= s.now + c.Interval() + 1, events);
  }

  /** However calls overlap: from its end until the next alarm goes off, an
      /ensure beginning now finds the alarm within its own interval. */
  ghost predicate AlwaysOwn(c: Config, s: State) {
    var s1 := Act(c, s, BeginEnsure);
    forall events | Follows(c, s1, events) :: GoOff !in events && Ended(events, |s.waiting|) ==> Own(c, s.now, Last(c, s1, events))
  }

  lemma OverlapActs(c: Config, s: State)
    requires s.armed.Some? && s.armed.value > s.now + c.Interval() + 1
    ensures var k := |s.waiting|; var s3 := Act(c, Act(c, Act(c, s, BeginEnsure), Pass(1)), BeginEnsure);
      && Enabled(s3, EndEnsure(k)) && Enabled(Act(c, s3, EndEnsure(k)), EndEnsure(k))
      && Act(c, Act(c, s3, EndEnsure(k)), EndEnsure(k)).armed == Some(s.now + 1 + c.Interval())
  {
    var k := |s.waiting|;
    var s3 := Act(c, Act(c, Act(c, s, BeginEnsure), Pass(1)), BeginEnsure);
    var f := Call(s.now + 1, s.armed);
    assert s3.waiting[k] == Call(s.now, s.armed) && s3.waiting[k + 1] == f;
    var s4 := Act(c, s3, EndEnsure(k));
    assert s4.waiting[k] == f;
  }

  /** Two overlapping /ensure calls may each set the alarm, the later one last:
      an earlier call's own bound is passed whenever the alarm it found leaves
      both of them room to. */
  lemma OverlapUsesTheLast(c: Config, s: State)
    requires s.armed.Some? && s.armed.value > s.now + c.Interval() + 1
    ensures var k := |s.waiting|; var s1 := Act(c, s, BeginEnsure);
      var events := [Pass(1), BeginEnsure, EndEnsure(k), EndEnsure(k)];
      Follows(c, s1, events) && GoOff !in events && Ended(events, k) && Last(c, s1, events).armed == Some(s.now + 1 + c.Interval())
  {
    hide Follows, Last, Ended, Act;
    var k := |s.waiting|;
    var s1 := Act(c, s, BeginEnsure);
    var s2 := Act(c, s1, Pass(1));
    var s3 := Act(c, s2, BeginEnsure);
    OverlapActs(c, s);
    var last := EndEnsure(k);
    var s4 := Act(c, s3, last);
    assert [last] + [] == [last] && [last] + [last] == [last, last];
    assert [BeginEnsure] + [last, last] == [BeginEnsure, last, last];
    assert [Pass(1)] + [BeginEnsure, last, last] == [Pass(1), BeginEnsure, last, last];
    NoSteps(c, Act(c, s4, last));
    Steps(c, s4, last, []);
    Steps(c, s3, last, [last]);
    Steps(c, s2, BeginEnsure, [last, last]);
    Steps(c, s1, Pass(1), [BeginEnsure, last, last]);
    EndsAtOnce(k, [last]);
    Waits(k, BeginEnsure, [last, last]);
    Waits(k, Pass(1), [BeginEnsure, last, last]);
  }

  lemma EndsAtOnce(k: nat, rest: seq<Event>)
    ensures Ended([EndEnsure(k)] + rest, k)
  {
  }

  lemma NoSteps(c: Config, s: State)
    ensures Follows(c, s, []) && Last(c, s, []) == s
  {
  }

  lemma Waits(k: nat, e: Event, rest: seq<Event>)
    requires !e.EndEnsure?
    ensures Ended([e] + rest, k) == Ended(rest, k)
  {
    assert ([e] + rest)[1..] == rest;
  }

  lemma Steps(c: Config, s: State, e: Event, rest: seq<Event>)
    requires Enabled(s, e) && Follows(c, Act(c, s, e), rest)
    ensures Follows(c, s, [e] + rest) && Last(c, s, [e] + rest) == Last(c, Act(c, s, e), rest)
  {
    assert ([e] + rest)[1..] == rest;
  }

  lemma RungActs(c: Config, s: State)
    requires s.alarm.Rung?
    ensures var k := |s.waiting|; var s1 := Act(c, s, BeginEnsure);
      Enabled(s1, EndEnsure(k)) && Enabled(Act(c, Act(c, s1, EndEnsure(k)), Pass(1)), BeginAlarm)
    ensures var s3 := Act(c, Act(c, Act(c, s, BeginEnsure), EndEnsure(|s.waiting|)), Pass(1));
      Act(c, s3, BeginAlarm).armed == Some(s.now + 1 + c.Interval())
  {
  }

  /** While an alarm that went off has not yet begun, it begins later than the
      call, and arms its own interval from then. */
  lemma RungPasses(c: Config, s: State)
    requires s.alarm.Rung?
    ensures var k := |s.waiting|; var s1 := Act(c, s, BeginEnsure);
      var events := [EndEnsure(k), Pass(1), BeginAlarm];
      Follows(c, s1, events) && GoOff !in events && Ended(events, k) && Last(c, s1, events).armed == Some(s.now + 1 + c.Interval())
  {
    hide Follows, Last, Ended, Act;
    var k := |s.waiting|;
    RungActs(c, s);
    var s1 := Act(c, s, BeginEnsure);
    var s2 := Act(c, s1, EndEnsure(k));
    var s3 := Act(c, s2, Pass(1));
    assert [BeginAlarm] + [] == [BeginAlarm] && [Pass(1)] + [BeginAlarm] == [Pass(1), BeginAlarm];
    assert [EndEnsure(k)] + [Pass(1), BeginAlarm] == [EndEnsure(k), Pass(1), BeginAlarm];
    NoSteps(c, Act(c, s3, BeginAlarm));
    EndsAtOnce(k, [Pass(1), BeginAlarm]);
    Steps(c, s3, BeginAlarm, []);
    Steps(c, s2, Pass(1), [BeginAlarm]);
    Steps(c, s1, EndEnsure(k), [Pass(1), BeginAlarm]);
  }

  /** When an /ensure's own bound holds whatever overlaps it: exactly when no
      alarm has gone off and not yet begun, and the one armed is no more than a
      millisecond past it. */
  lemma OwnBoundIsExact(c: Config, s: State)
    requires Kept(c, s)
    ensures AlwaysOwn(c, s) <==> !s.alarm.Rung? && s.armed.value <= s.now + c.Interval() + 1
  {
    hide Kept, Flight, Since, Follows, Last, Ended;
    var s1 := Act(c, s, BeginEnsure);
    var k := |s.waiting|;
    if s.alarm.Rung? {
      RungPasses(c, s);
      assert !Own(c, s.now, Last(c, s1, [EndEnsure(k), Pass(1), BeginAlarm]));
    } else {
      TakesOff(c, s);
      KeptArmed(c, s);
      if s.armed.value <= s.now + c.Interval() + 1 {
        forall events | Follows(c, s1, events) && GoOff !in events && Ended(events, k)
          ensures Own(c, s.now, Last(c, s1, events))
        {
          FlightLands(c, s.now, s1, k, true, events);
        }
      } else {
        OverlapUsesTheLast(c, s);
        assert !Own(c, s.now, Last(c, s1, [Pass(1), BeginEnsure, EndEnsure(k), EndEnsure(k)]));
      }
    }
  }
}

/** What one sweep reports. */
module Sweeps {
  import opened Wrappers
  import opened Graph
  import opened Labels
  import opened Items
  import opened Apply
  import opened Gates
  import opened Sweeping
  import opened Kinds
  import opened Fires
  import opened GateKeeps
  import opened Shadow
  import opened Agreement

  // --- one item's answer ---

  predicate Acted(r: Swept) {
    r.Refired? || (r.Gated? && r.result.Applied?)
  }

  /** Nothing written, nothing fired, nothing moved but the shadow's own mark. */
  predicate OnlyReported(c: Ctx, s: Item, t: Item) {
    && Tally(t.trace, Writes) == Tally(s.trace, Writes)
    && t == s.(now := t.now, calls := t.calls, labels := t.labels, reported := t.reported, trace := t.trace)
  }

  lemma ReportReports(c: Ctx, s: Item, last: Option<int>)
    ensures OnlyReported(c, s, ReportLeft(c, s, last).s)
  {
    RowIsNoWrite(c, s.(reported := Some(last)));
  }

  /** The sweep's question without budget makes no label write, comment or
      fire, on any item, whatever it finds; and never says it acted. */
  lemma NoBudgetNoAct(c: Ctx, s: Item, enforced: bool, at: Option<int>)
    ensures var st := Reconcile(c, s, enforced, false, at);
      OnlyReported(c, s, st.s) && (st.Ret? ==> !Acted(st.v))
  {
    hide SweepRun, ReportLeft, ReviewGate, SweepMerge, Refire, DeriveState, Latest, IdleTenths, Tally, Watched;
    if !Watched(s) {
      var g := GetLabels(c, s);
      if g.Ret? && SweepRun(g.v, g.s.releaseMerged.Some?).Some? {
        var r := Read(c, g.s);
        if r.Ret? {
          var last := Latest(r.v.at, at);
          ReportReports(c, r.s, last);
          NeverActs(c, r.s, last);
        }
      }
    }
  }

  lemma NeverActs(c: Ctx, s: Item, last: Option<int>)
    ensures var st := ReportLeft(c, s, last); st.Ret? ==> !Acted(st.v)
  {
    hide Log;
  }

  /** No activity then for twice the routine's timeout, to the nearest tenth of a
      minute. */
  predicate LongIdle(c: Ctx, s: Item, run: Routine, activity: Option<int>) {
    activity.Some? ==> s.now - activity.value + 3_000 >= 2 * c.timeout(run)
  }

  /** One fire was made again, of a routine for which the item had long been idle:
      by its last row, and by GitHub's own time of it. */
  predicate ForIdle(c: Ctx, s: Item, t: Item, updatedAt: Option<int>, run: Routine) {
    FiredOnce(s, t, run) && LongIdle(c, s, run, updatedAt) && LongIdle(c, s, run, c.world(s.calls + 1).at)
  }

  /** A re-fire is made only for an item with no pending fire, or one whose
      alarm is gone a quarter of an hour past due, and only where nothing has
      happened for twice its routine's timeout; it is one fire, and leaves it
      pending with the alarm set for when it is due. */
  lemma RefireIsForLostFires(c: Ctx, s: Item, enforced: bool, budget: bool, at: Option<int>)
    requires Reconcile(c, s, enforced, budget, at).Ret? && Reconcile(c, s, enforced, budget, at).v.Refired?
    ensures s.pending.None? || (s.alarm.None? && s.now >= s.pending.value.dueAt + 900_000)
    ensures budget && enforced && c.mode && c.watchdog
    ensures var t := Reconcile(c, s, enforced, budget, at).s; t.pending.Some? && Agree(t) && exists run :: ForIdle(c, s, t, at, run)
  {
    hide SweepRun, ReportLeft, ReviewGate, SweepMerge, FireWatched, DeriveState, Latest, IdleTenths, Fired;
    var g := GetLabels(c, s);
    var run := SweepRun(g.v, g.s.releaseMerged.Some?).value;
    var r := Read(c, g.s);
    var last := Latest(r.v.at, at);
    RefireArms(c, r.s, run);
    MergeRefires(c, r.s, g.v, run);
    ReviewNeverRefires(c, r.s, last);
    LongSince(c, s, run, r.v.at, at);
    assert ForIdle(c, s, Reconcile(c, s, enforced, budget, at).s, at, run);
  }

  lemma LongSince(c: Ctx, s: Item, run: Routine, a: Option<int>, b: Option<int>)
    ensures var last := Latest(a, b);
      !(last.Some? && IdleTenths(s.now - last.value) * 6_000 < 2 * c.timeout(run)) ==> LongIdle(c, s, run, a) && LongIdle(c, s, run, b)
  {
    var last := Latest(a, b);
    if last.Some? {
      Rounded(s.now - last.value);
    }
  }

  lemma Rounded(ms: int)
    ensures IdleTenths(ms) * 6_000 <= ms + 3_000
  {
  }

  lemma ReviewNeverRefires(c: Ctx, s: Item, last: Option<int>)
    ensures var st := ReportLeft(c, s, last); st.Ret? ==> !st.v.Refired?
  {
    hide Log;
  }

  lemma RefireArms(c: Ctx, s: Item, run: Routine)
    ensures var st := Refire(c, s, run); st.Ret? ==> st.s.pending.Some? && Agree(st.s) && FiredOnce(s, st.s, run)
  {
    hide FireWatched, Say, Fired, Quietly;
    var w := FireWatched(c, s, true, run, false, false);
    WatchedArms(c, s, run);
    WatchedFire(c, s, run, false, false);
    SaysUnfired(c, w.s, true, Row);
    SayKeepsAlarm(c, w.s, true, Row);
  }

  lemma WatchedArms(c: Ctx, s: Item, run: Routine)
    ensures var st := FireWatched(c, s, true, run, false, false); st.Ret? ==> st.s.pending.Some? && Agree(st.s)
  {
    hide FireWatched, Fired, Reply, Quietly;
    WatchedFire(c, s, run, false, false);
  }

  lemma MergeRefires(c: Ctx, s: Item, cl: set<Label>, run: Routine)
    ensures var st := SweepMerge(c, s, cl, run);
      st.Ret? && st.v.Refired? ==> st.s.pending.Some? && Agree(st.s) && FiredOnce(s, st.s, run)
  {
    hide SettledFacts, BlockMerge, HandToRework, RetryMerge, Refire, DeriveGate, HardBlock, Fired;
    var s1 := if MergeBlocked in cl then PutCiFix(s, None) else s;
    SettledGlances(c, s1);
    RefireArms(c, SettledFacts(c, s1).s, run);
  }

  // --- the loop ---

  /** An item the sweep asks, as it is when asked. */
  datatype Candidate = Candidate(name: string, c: Ctx, item: Item, updatedAt: Option<int>)

  /** A repo: its sweep switched off, its candidates (none if listing them
      failed), and whether its re-fires are real. */
  datatype Repo = Repo(name: string, off: bool, found: Option<seq<Candidate>>, enforced: bool)

  datatype Summary = Summary(
    paused: seq<string>, checked: nat, live: nat, refired: seq<string>, wouldRefire: seq<string>, errors: seq<string>)

  const EMPTY := Summary([], 0, 0, [], [], [])

  /** One candidate's answer, entered. */
  function Entered(sum: Summary, name: string, st: Step<Swept>): Summary {
    match st
    case Thr(_) => sum.(checked := sum.checked + 1, errors := sum.errors + [name])
    case Ret(_, r) =>
      var asked := sum.(checked := sum.checked + 1);
      if Acted(r) then asked.(refired := sum.refired + [name], live := sum.live + 1)
      else if r == WouldRefire(false) then asked.(wouldRefire := sum.wouldRefire + [name], live := sum.live + 1)
      else if r.BeingWatched? || r.Recent? then asked.(live := sum.live + 1)
      else asked
  }

  function Ask(sum: Summary, k: Candidate, enforced: bool, max: nat): Summary {
    Entered(sum, k.name, Reconcile(k.c, k.item, enforced, |sum.refired| < max, k.updatedAt))
  }

  function AskAll(sum: Summary, ks: seq<Candidate>, enforced: bool, max: nat): Summary {
    if ks == [] then sum else Ask(AskAll(sum, ks[..|ks| - 1], enforced, max), ks[|ks| - 1], enforced, max)
  }

  /** A repo whose sweep is off, or whose switch cannot be read, is passed over. */
  function Visit(sum: Summary, r: Repo, unread: bool, max: nat): Summary {
    if unread || r.off then sum.(paused := sum.paused + [r.name])
    else if r.found.None? then sum.(errors := sum.errors + [r.name])
    else AskAll(sum, r.found.value, r.enforced, max)
  }

  function VisitAll(sum: Summary, rs: seq<Repo>, unread: bool, max: nat): Summary {
    if rs == [] then sum else Visit(VisitAll(sum, rs[..|rs| - 1], unread, max), rs[|rs| - 1], unread, max)
  }

  /** Where a sweep starts: with an error, if the switches could not be read. */
  function Begun(unread: bool): Summary {
    if unread then EMPTY.(errors := ["controls"]) else EMPTY
  }

  lemma AskStaysInBudget(sum: Summary, k: Candidate, enforced: bool, max: nat)
    requires |sum.refired| <= max
    ensures |Ask(sum, k, enforced, max).refired| <= max
  {
    hide Reconcile, Acted;
    if |sum.refired| == max {
      NoBudgetNoAct(k.c, k.item, enforced, k.updatedAt);
    }
  }

  lemma {:induction false} AskAllStaysInBudget(sum: Summary, ks: seq<Candidate>, enforced: bool, max: nat)
    requires |sum.refired| <= max
    ensures |AskAll(sum, ks, enforced, max).refired| <= max
  {
    hide Ask;
    if ks != [] {
      AskAllStaysInBudget(sum, ks[..|ks| - 1], enforced, max);
      AskStaysInBudget(AskAll(sum, ks[..|ks| - 1], enforced, max), ks[|ks| - 1], enforced, max);
    }
  }

  /** Over any repos and candidates, a sweep reports at most its budget of
      re-fires. */
  lemma {:induction false} SweepStaysInBudget(rs: seq<Repo>, unread: bool, max: nat)
    ensures |VisitAll(Begun(unread), rs, unread, max).refired| <= max
    ensures unread ==> VisitAll(Begun(unread), rs, unread, max).checked == 0
  {
    hide AskAll;
    if rs != [] {
      SweepStaysInBudget(rs[..|rs| - 1], unread, max);
      var sum := VisitAll(Begun(unread), rs[..|rs| - 1], unread, max);
      var r := rs[|rs| - 1];
      if r.found.Some? {
        AskAllStaysInBudget(sum, r.found.value, r.enforced, max);
      }
    }
  }

  // --- which re-fires they are ---

  /** A candidate, and whether its repo's re-fires are real. */
  datatype Question = Question(about: Candidate, enforced: bool)

  /** Whether a candidate asked with budget left is acted on. */
  predicate WouldAct(q: Question) {
    var st := Reconcile(q.about.c, q.about.item, q.enforced, true, q.about.updatedAt);
    st.Ret? && Acted(st.v)
  }

  /** The names, in order, of the candidates that would be acted on. */
  function ToRefire(qs: seq<Question>): seq<string> {
    if qs == [] then []
    else
      var q := qs[|qs| - 1];
      ToRefire(qs[..|qs| - 1]) + if WouldAct(q) then [q.about.name] else []
  }

  function Of(ks: seq<Candidate>, enforced: bool): seq<Question> {
    if ks == [] then [] else Of(ks[..|ks| - 1], enforced) + [Question(ks[|ks| - 1], enforced)]
  }

  /** Every candidate a sweep asks: those of each repo not switched off, if they
      could be listed. */
  function Asked(rs: seq<Repo>): seq<Question> {
    if rs == [] then []
    else
      var r := rs[|rs| - 1];
      Asked(rs[..|rs| - 1]) + if r.off || r.found.None? then [] else Of(r.found.value, r.enforced)
  }

  function First(names: seq<string>, n: nat): seq<string> {
    if |names| <= n then names else names[..n]
  }

  lemma ToRefireGrows(qs: seq<Question>, q: Question)
    ensures ToRefire(qs + [q]) == ToRefire(qs) + if WouldAct(q) then [q.about.name] else []
  {
    hide WouldAct;
    assert (qs + [q])[..|qs|] == qs;
  }

  lemma AskRefires(sum: Summary, k: Candidate, enforced: bool, max: nat, qs: seq<Question>)
    requires sum.refired == First(ToRefire(qs), max)
    ensures var t := Ask(sum, k, enforced, max);
      t.refired == First(ToRefire(qs + [Question(k, enforced)]), max) && t.checked == sum.checked + 1
  {
    hide Reconcile, Acted, ToRefire;
    ToRefireGrows(qs, Question(k, enforced));
    if |sum.refired| >= max {
      NoBudgetNoAct(k.c, k.item, enforced, k.updatedAt);
    }
  }

  lemma {:induction false} AskAllRefires(sum: Summary, ks: seq<Candidate>, enforced: bool, max: nat, qs: seq<Question>)
    requires sum.refired == First(ToRefire(qs), max)
    ensures var t := AskAll(sum, ks, enforced, max);
      t.refired == First(ToRefire(qs + Of(ks, enforced)), max) && t.checked == sum.checked + |Of(ks, enforced)|
  {
    hide Ask, ToRefire, First;
    if ks == [] {
      assert qs + Of(ks, enforced) == qs;
    } else {
      var front := ks[..|ks| - 1];
      AskAllRefires(sum, front, enforced, max, qs);
      AskRefires(AskAll(sum, front, enforced, max), ks[|ks| - 1], enforced, max, qs + Of(front, enforced));
      assert qs + Of(front, enforced) + [Question(ks[|ks| - 1], enforced)] == qs + Of(ks, enforced);
    }
  }

  /** Which: of all the candidates of the repos it may sweep, each asked once, the
      first that would be acted on, in order, up to the budget; none at all where
      the switches cannot be read. */
  lemma {:induction false} SweepRefiresTheFirst(rs: seq<Repo>, unread: bool, max: nat)
    ensures var sum := VisitAll(Begun(unread), rs, unread, max);
      && sum.refired == (if unread then [] else First(ToRefire(Asked(rs)), max))
      && sum.checked == if unread then 0 else |Asked(rs)|
  {
    hide AskAll, ToRefire, Of;
    if rs == [] {
      NoneToRefire();
    } else {
      var front := rs[..|rs| - 1];
      var r := rs[|rs| - 1];
      SweepRefiresTheFirst(front, unread, max);
      var sum := VisitAll(Begun(unread), front, unread, max);
      if !unread && !r.off && r.found.Some? {
        AskAllRefires(sum, r.found.value, r.enforced, max, Asked(front));
      } else if !unread {
        assert Asked(rs) == Asked(front);
      }
    }
  }

  lemma NoneToRefire()
    ensures ToRefire([]) == []
  {
  }
}

/** The scheduler's object: its fields, its handlers cut at their awaits, and its
    sweep. */
module SchedulerObject {
  import opened Wrappers
  import P = Pace
  import opened Sweeps
  import opened Sweeping

  class Scheduler {
    const config: P.Config
    const maxRefires: nat
    var lastEnsure: int
    var armed: Option<int>
    /** Every call in flight, for what is said of them. */
    ghost var state: P.State

    ghost predicate Valid()
      reads this
    {
      P.Kept(config, state) && lastEnsure == state.lastEnsure && armed == state.armed
    }

    /** An object whose first alarm is set. */
    constructor (config: P.Config, maxRefires: nat, now: nat, first: int)
      ensures Valid() && this.config == config && this.maxRefires == maxRefires
      ensures state == P.State(now, Some(first), 0, P.Resting, [], now, false)
    {
      this.config, this.maxRefires := config, maxRefires;
      lastEnsure, armed := 0, Some(first);
      state := P.State(now, Some(first), 0, P.Resting, [], now, false);
    }

    /** /ensure up to its first await: it has read the alarm. */
    method BeginEnsure(now: int) returns (found: Option<int>)
      requires Valid() && state.now <= now
      modifies this
      ensures Valid()
      ensures state == P.Act(config, P.Act(config, old(state), P.Pass(now - old(state.now))), P.BeginEnsure)
      ensures found == old(armed) && state.waiting == old(state.waiting) + [P.Call(now, found)]
    {
      ghost var passed := P.Act(config, state, P.Pass(now - state.now));
      P.StepKeeps(config, state, P.Pass(now - state.now));
      P.StepKeeps(config, passed, P.BeginEnsure);
      lastEnsure := now;
      found := armed;
      state := P.Act(config, passed, P.BeginEnsure);
    }

    /** /ensure from there: a missing or slowed alarm is brought back. */
    method EndEnsure(began: int, found: Option<int>, ghost k: nat)
      requires Valid() && k < |state.waiting| && state.waiting[k] == P.Call(began, found)
      modifies this
      ensures Valid() && state == P.Act(config, old(state), P.EndEnsure(k))
    {
      P.StepKeeps(config, state, P.EndEnsure(k));
      var next := began + config.Interval();
      if found.None? || found.value > next {
        armed := Some(next);
      }
      state := P.Act(config, state, P.EndEnsure(k));
    }

    /** alarm() up to its sweep: the next one first. */
    method BeginAlarm(now: int) returns (started: int)
      requires Valid() && state.now <= now && state.alarm.Rung?
      modifies this
      ensures Valid() && started == now && armed == Some(now + config.Interval())
      ensures state == P.Act(config, P.Act(config, old(state), P.Pass(now - old(state.now))), P.BeginAlarm)
    {
      ghost var passed := P.Act(config, state, P.Pass(now - state.now));
      P.StepKeeps(config, state, P.Pass(now - state.now));
      P.StepKeeps(config, passed, P.BeginAlarm);
      started := now;
      armed := Some(started + config.Interval());
      state := P.Act(config, passed, P.BeginAlarm);
    }

    /** alarm() after its sweep: slowed only if nothing is live and no /ensure
        came meanwhile; a sweep that threw changes nothing. */
    method EndAlarm(started: int, threw: bool, sum: Summary)
      requires Valid() && state.alarm == P.Sweeping(started)
      modifies this
      ensures Valid()
      ensures state == P.Act(config, old(state), P.EndSweep(threw, sum.live == 0 && sum.errors == []))
    {
      P.StepKeeps(config, state, P.EndSweep(threw, sum.live == 0 && sum.errors == []));
      if !threw && sum.live == 0 && sum.errors == [] && lastEnsure < started {
        armed := Some(started + config.Idle());
      }
      state := P.Act(config, state, P.EndSweep(threw, sum.live == 0 && sum.errors == []));
    }

    /** A sweep over the repos, each candidate asked with budget while fewer than
        the most re-fires have been made. */
    method Sweep(repos: seq<Repo>, unread: bool) returns (sum: Summary)
      ensures sum == VisitAll(Begun(unread), repos, unread, maxRefires)
      ensures |sum.refired| <= maxRefires
    {
      sum := EMPTY;
      if unread {
        sum := sum.(errors := ["controls"]);
      }
      for i := 0 to |repos|
        invariant sum == VisitAll(Begun(unread), repos[..i], unread, maxRefires)
      {
        assert repos[..i + 1][..i] == repos[..i];
        var r := repos[i];
        if unread || r.off {
          sum := sum.(paused := sum.paused + [r.name]);
        } else if r.found.None? {
          sum := sum.(errors := sum.errors + [r.name]);
        } else {
          sum := SweepRepo(r.found.value, r.enforced, sum);
        }
      }
      assert repos[..|repos|] == repos;
      SweepStaysInBudget(repos, unread, maxRefires);
    }

    method SweepRepo(candidates: seq<Candidate>, enforced: bool, before: Summary) returns (sum: Summary)
      ensures sum == AskAll(before, candidates, enforced, maxRefires)
    {
      hide Reconcile, Acted;
      sum := before;
      for j := 0 to |candidates|
        invariant sum == AskAll(before, candidates[..j], enforced, maxRefires)
      {
        assert candidates[..j + 1][..j] == candidates[..j];
        var k := candidates[j];
        var answer := Reconcile(k.c, k.item, enforced, |sum.refired| < maxRefires, k.updatedAt);
        sum := Entered(sum, k.name, answer);
      }
      assert candidates[..|candidates|] == candidates;
    }
  }
}
