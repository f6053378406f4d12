// The storage-backed Deps of one item (worker/src/issue-coordinator.ts): its
// durable keys and its calls out, each method changing the fields it names.
// Every method is the step of the item that the function of the same name
// describes.

module Storage {
  import opened Wrappers
  import opened Graph
  import opened Labels
  import opened Items

  /** What a call that may throw gives. */
  datatype Try<+T> = Done(value: T) | Failed {
    predicate IsFailure() { Failed? }
    function PropagateFailure<U>(): Try<U>
      requires Failed?
    {
      Failed
    }
    function Extract(): T
      requires Done?
    {
      value
    }
  }

  function AsTry<T>(st: Step<T>): Try<T> {
    if st.Ret? then Done(st.v) else Failed
  }

  class Deps {
    const c: Ctx
    // The item on GitHub and the clock, as the last call found them.
    var labels: set<Label>
    var open: bool
    var now: int
    var calls: nat
    // Durable storage.
    var pending: Option<Fire>
    var alarm: Option<int>
    var ciFix: Option<CiFix>
    var rounds: Option<Rounds>
    var reviewReworks: nat
    var reworkExpired: bool
    var mergeFiredFor: Option<Sha>
    var shipped: Option<Shipped>
    var releaseMerged: Option<Shipped>
    var outcomes: map<Routine, Ended>
    var seen: set<DeliveryId>
    var completed: Option<int>
    var reported: Option<Option<int>>
    ghost var trace: seq<Mark>

    constructor (c: Ctx, now: int)
      ensures this.c == c
      ensures View() == Item({}, true, None, None, None, None, 0, false, None, None, None, map[], {}, None, None, now, 0, [])
    {
      this.c := c;
      labels, open, this.now, calls := {}, true, now, 0;
      pending, alarm, ciFix, rounds, reviewReworks, reworkExpired := None, None, None, None, 0, false;
      mergeFiredFor, shipped, releaseMerged := None, None, None;
      outcomes, seen, completed, reported, trace := map[], {}, None, None, [];
    }

    /** The item these fields are. */
    ghost function View(): Item
      reads this
    {
      Item(labels, open, pending, alarm, ciFix, rounds, reviewReworks, reworkExpired, mergeFiredFor, shipped, releaseMerged,
           outcomes, seen, completed, reported, now, calls, trace)
    }

    /** The result and the fields are what a step leaves. */
    ghost predicate Did<T(!new)>(r: Try<T>, st: Step<T>)
      reads this
    {
      View() == st.s && r == AsTry(st)
    }

    /** A point of the history. */
    ghost method Note(m: Mark)
      modifies this
      ensures View() == Marked(old(View()), m)
    {
      trace := trace + [m];
    }

    // --- calls out ---

    method Ask() returns (a: Answer)
      modifies this
      ensures View() == Asked(c, old(View())) && a == Next(c, old(View()))
    {
      a := c.world(calls);
      calls := calls + 1;
      now := now + a.delay;
      labels := labels - a.gone + a.came;
    }

    method Read() returns (r: Try<Answer>)
      modifies this
      ensures Did(r, Items.Read(c, old(View())))
    {
      var a := Ask();
      r := if a.verdict.Throws? then Failed else Done(a);
    }

    method GetLabels() returns (r: Try<set<Label>>)
      modifies this
      ensures Did(r, Items.GetLabels(c, old(View())))
    {
      var a := Ask();
      r := if a.verdict.Throws? then Failed else Done(labels);
    }

    method AddLabel(io: bool, l: Label) returns (r: Try<()>)
      modifies this
      ensures Did(r, WriteLabel(c, old(View()), io, true, l))
    {
      if !io {
        return Done(());
      }
      var a := Ask();
      if a.verdict.Throws? && !a.verdict.landed {
        return Failed;
      }
      labels := labels + {l};
      trace := trace + [LabelWrite(true, l)];
      r := if a.verdict.Throws? then Failed else Done(());
    }

    method RemoveLabel(io: bool, l: Label) returns (r: Try<()>)
      modifies this
      ensures Did(r, WriteLabel(c, old(View()), io, false, l))
    {
      if !io {
        return Done(());
      }
      var a := Ask();
      if a.verdict.Throws? && !a.verdict.landed {
        return Failed;
      }
      labels := labels - {l};
      trace := trace + [LabelWrite(false, l)];
      r := if a.verdict.Throws? then Failed else Done(());
    }

    method Say(io: bool, ghost m: Mark) returns (r: Try<()>)
      modifies this
      ensures Did(r, Items.Say(c, old(View()), io, m))
    {
      if !io {
        return Done(());
      }
      var a := Ask();
      if a.verdict.Throws? && !a.verdict.landed {
        return Failed;
      }
      trace := trace + [m];
      r := if a.verdict.Throws? then Failed else Done(());
    }

    method CloseIssue(io: bool) returns (r: Try<()>)
      modifies this
      ensures Did(r, Items.CloseIssue(c, old(View()), io))
    {
      if io && (!c.world(calls).verdict.Throws? || c.world(calls).verdict.landed) {
        open := false;
      }
      r := Say(io, CloseWrite);
    }

    method Comment(io: bool) returns (r: Try<()>)
      modifies this
      ensures Did(r, Items.Comment(c, old(View()), io))
    {
      r := Say(io, CommentWrite(false));
    }

    method Log() returns (r: Try<()>)
      modifies this
      ensures Did(r, Items.Log(c, old(View())))
    {
      r := Say(true, Row);
    }

    method BotLogin() returns (r: Try<()>)
      modifies this
      ensures Did(r, Items.BotLogin(c, old(View())))
    {
      if !c.app {
        return Done(());
      }
      var a := Ask();
      r := if a.verdict.Throws? then Failed else Done(());
    }

    /** Sent (or shadow), rate-limited until a time, or refused. */
    method FireRoutine(io: bool, run: Routine) returns (v: Verdict)
      modifies this
      ensures View() == Items.FireRoutine(c, old(View()), io, run).s
      ensures v == match Items.FireRoutine(c, old(View()), io, run)
        case Sent(_) => Accepts
        case Limited(_, at) => RateLimits(at)
        case Refused(_) => Next(c, old(View())).verdict
      ensures v.Throws? <==> Items.FireRoutine(c, old(View()), io, run).Refused?
    {
      if !io {
        return Accepts;
      }
      var a := Ask();
      trace := trace + [FireTried(run, a.verdict, releaseMerged.Some?)];
      v := a.verdict;
    }

    // --- storage ---

    method SetPendingFire(f: Fire)
      modifies this
      ensures View() == Arm(c, old(View()), f)
    {
      completed := None;
      var dueAt := if f.deferUntil.Some? then f.deferUntil.value else now + c.timeout(f.run);
      pending := Some(f.(dueAt := dueAt));
      alarm := Some(dueAt);
    }

    method ClearPendingFire()
      modifies this
      ensures View() == Disarm(old(View()))
    {
      pending := None;
      alarm := None;
    }

    method SetAppliedOutcome(run: Routine, ended: Ended)
      modifies this
      ensures View() == old(View()).(outcomes := old(View()).outcomes[run := ended])
    {
      outcomes := outcomes[run := ended];
    }

    /** The review's state and the CI fixes' cleared, for a fresh count. */
    method ClearCounts()
      modifies this
      ensures View() == PutExpired(PutCiFix(PutRounds(old(View()), None), None), false)
    {
      rounds := None;
      ciFix := None;
      reworkExpired := false;
    }

    method SetCiFix(f: Option<CiFix>)
      modifies this
      ensures View() == PutCiFix(old(View()), f)
    {
      ciFix := f;
    }

    method SetReviewLoop(r: Option<Rounds>)
      modifies this
      ensures View() == PutRounds(old(View()), r)
    {
      rounds := r;
    }

    method SetReworkExpired(expired: bool)
      modifies this
      ensures View() == PutExpired(old(View()), expired)
    {
      reworkExpired := expired;
    }

    method SetReviewReworks(n: nat)
      modifies this
      ensures View() == old(View()).(reviewReworks := n)
    {
      reviewReworks := n;
    }

    method SetReleaseMerged(m: Option<Shipped>)
      modifies this
      ensures View() == PutReleaseMerged(old(View()), m)
    {
      releaseMerged := m;
    }

    method SetShipped(m: Option<Shipped>)
      modifies this
      ensures View() == old(View()).(shipped := m)
    {
      shipped := m;
    }

    method SetMergeFiredFor(sha: Option<Sha>)
      modifies this
      ensures View() == old(View()).(mergeFiredFor := sha)
    {
      mergeFiredFor := sha;
    }

    method SetReconcileReported(at: Option<Option<int>>)
      modifies this
      ensures View() == old(View()).(reported := at)
    {
      reported := at;
    }

    method ForgetAppliedOutcome(run: Routine)
      modifies this
      ensures View() == Forget(old(View()), run)
    {
      outcomes := outcomes - {run};
      trace := trace + [Started(run)];
    }
  }
}
