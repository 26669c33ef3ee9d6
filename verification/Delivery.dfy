/**
  What the calls on a process achieve, told from the actions of a run and the program counters alone:
  which events are accepted, when termination is raised, and when a process ends.
 */
module Delivery {
  import opened Actor

  // ---------------------------------------------------------------- enqueue

  predicate BeforePush(x: Activity) { x.Enq? && (x.at.LoadState? || x.at.PushEvent?) }

  predicate PastPush(x: Activity) { x.Enq? && !BeforePush(x) }

  /** `a` pushes its event in this step: it stands before the push and the mailbox is in commission. */
  predicate PushesNow(s: Process, x: Action) {
    x.Step? && x.a in s.acts && s.acts[x.a].Enq? && s.acts[x.a].at.PushEvent? && s.c.commissioned
  }

  /** A call of enqueue is refused only by a process that is terminating; otherwise it goes on with its event,
      pushes it at the end of the mailbox, and only then looks at the state again. */
  lemma {:induction false} RefusedOnlyWhenOver(pol: Policy, s: Process, a: int)
    requires Reachable(pol, s) && Enabled(pol, s, Step(a)) && BeforePush(s.acts[a])
    ensures var x, t := s.acts[a], Do(pol, s, Step(a));
      && (a !in t.acts ==> s.c.state == Terminating || !s.c.commissioned)
      && (a in t.acts ==> t.acts[a].Enq? && t.acts[a].e == x.e && t.acts[a].held == x.held)
      && (a in t.acts && x.at.LoadState? ==> t.acts[a].at.PushEvent? && t.c == s.c)
      && (a in t.acts && x.at.PushEvent? ==> PastPush(t.acts[a]) && t.c.mailbox == s.c.mailbox + [x.e])
  {
  }

  /** Only a push accepts an event, and it accepts that event; only enqueue's store raises `termination`. */
  lemma {:induction false} AcceptedByPush(pol: Policy, s: Process, x: Action)
    requires Enabled(pol, s, x)
    ensures Do(pol, s, x).c.accepted ==
            if PushesNow(s, x) then s.c.accepted + [s.acts[x.a].e] else s.c.accepted
    ensures Do(pol, s, x).c.termination ==
            (s.c.termination || (x.Step? && s.acts[x.a].Enq? && s.acts[x.a].at.SetTermination?))
  {
  }

  /** The events pushed in a run, in order. */
  ghost function Pushes(pol: Policy, run: seq<Action>): seq<Event> {
    if run == [] then []
    else
      var before, x := Exec(pol, run[..|run| - 1]), run[|run| - 1];
      Pushes(pol, run[..|run| - 1]) + if before.At? && PushesNow(before.s, x) then [before.s.acts[x.a].e] else []
  }

  /** In every run the accepted events are those pushed, in the order of the pushes. */
  lemma {:induction false} AcceptedArePushed(pol: Policy, run: seq<Action>)
    requires Exec(pol, run).At?
    ensures Exec(pol, run).s.c.accepted == Pushes(pol, run)
  {
    if run != [] {
      AcceptedArePushed(pol, run[..|run| - 1]);
      AcceptedByPush(pol, Exec(pol, run[..|run| - 1]).s, run[|run| - 1]);
    }
  }

  /** A call past its push has its event among the accepted ones, and never pushes again. */
  ghost predicate InvPast(s: Process) {
    forall a :: a in s.acts && PastPush(s.acts[a]) ==> s.acts[a].e in s.c.accepted
  }

  /** Where an activity past its push comes from. */
  lemma {:induction false} PastBefore(pol: Policy, s: Process, x: Action, a: int)
    requires Enabled(pol, s, x) && a in Do(pol, s, x).acts && PastPush(Do(pol, s, x).acts[a])
    ensures a in s.acts && s.acts[a].Enq? && s.acts[a].e == Do(pol, s, x).acts[a].e
    ensures PastPush(s.acts[a]) || (PushesNow(s, x) && x.a == a)
  {
    if x.Step? && x.a == a {
      var y := s.acts[a];
      match y {
        case Enq(_, _, _) =>
        case Resume(_) =>
        case Serve(_, _) =>
        case Clean(_) =>
        case _ =>
      }
    }
  }

  lemma {:induction false} PastKept(pol: Policy, run: seq<Action>)
    requires Exec(pol, run).At?
    ensures InvPast(Exec(pol, run).s)
  {
    if run != [] {
      var s, x := Exec(pol, run[..|run| - 1]).s, run[|run| - 1];
      var t := Do(pol, s, x);
      PastKept(pol, run[..|run| - 1]);
      AcceptedByPush(pol, s, x);
      forall a | a in t.acts && PastPush(t.acts[a]) ensures t.acts[a].e in t.c.accepted {
        PastBefore(pol, s, x, a);
      }
    }
  }

  /** A call that ends past its push has had its event accepted. */
  lemma {:induction false} EndedCallIsAccepted(pol: Policy, s: Process, a: int)
    requires Reachable(pol, s) && a in s.acts && PastPush(s.acts[a])
    ensures s.acts[a].e in s.c.accepted
  {
    var run :| Exec(pol, run) == At(s);
    PastKept(pol, run);
  }

  // ---------------------------------------------------------------- termination

  /** Past the store to `termination`, if there was one to make. */
  predicate PastStore(x: Activity) { PastPush(x) && !x.at.SetTermination? }

  /** `termination` is set once an injected TerminateEvent's enqueue has gone past its store, and by nothing else. */
  ghost predicate InvRaised(s: Process) {
    && (forall a :: a in s.acts && PastStore(s.acts[a]) && Injected(s.acts[a].e) ==> s.c.termination)
    && (forall a :: a in s.acts && s.acts[a].Enq? && s.acts[a].at.SetTermination? ==> Injected(s.acts[a].e))
    && (s.c.termination ==> exists i :: 0 <= i < |s.c.accepted| && Injected(s.c.accepted[i]))
  }

  /** An injected event passes through the store, and no other does. */
  lemma {:induction false} StoreBefore(pol: Policy, s: Process, x: Action, a: int)
    requires Enabled(pol, s, x) && a in Do(pol, s, x).acts && PastPush(Do(pol, s, x).acts[a])
    ensures var y := Do(pol, s, x).acts[a];
      && (y.at.SetTermination? ==> Injected(y.e) || (a in s.acts && s.acts[a] == y))
      && (!y.at.SetTermination? && Injected(y.e) ==>
            a in s.acts && (PastStore(s.acts[a]) || (s.acts[a].at.SetTermination? && x == Step(a))))
  {
    PastBefore(pol, s, x, a);
    if x == Step(a) {
      var y := s.acts[a].at;
      match y {
        case LoadState =>
        case PushEvent =>
        case SetTermination =>
        case RecheckState =>
        case Exchange =>
        case PushRunq =>
      }
    }
  }

  lemma {:induction false} RaisedKept(pol: Policy, run: seq<Action>)
    requires Exec(pol, run).At?
    ensures InvRaised(Exec(pol, run).s)
  {
    if run != [] {
      var s, x := Exec(pol, run[..|run| - 1]).s, run[|run| - 1];
      RaisedKept(pol, run[..|run| - 1]);
      PastKept(pol, run[..|run| - 1]);
      RaisedStep(pol, s, x);
    }
  }

  lemma {:induction false} RaisedStep(pol: Policy, s: Process, x: Action)
    requires Enabled(pol, s, x) && InvRaised(s) && InvPast(s)
    ensures InvRaised(Do(pol, s, x))
  {
    var t := Do(pol, s, x);
    AcceptedByPush(pol, s, x);
    forall a | a in t.acts && PastPush(t.acts[a])
      ensures PastStore(t.acts[a]) && Injected(t.acts[a].e) ==> t.c.termination
      ensures t.acts[a].at.SetTermination? ==> Injected(t.acts[a].e)
    {
      StoreBefore(pol, s, x, a);
    }
    if t.c.termination {
      if s.c.termination {
        var i :| 0 <= i < |s.c.accepted| && Injected(s.c.accepted[i]);
        assert t.c.accepted[i] == s.c.accepted[i];
      } else {
        var e := s.acts[x.a].e;
        assert e in s.c.accepted && t.c.accepted == s.c.accepted;
        var i :| 0 <= i < |s.c.accepted| && s.c.accepted[i] == e;
      }
    }
  }

  /** In every run: an injected TerminateEvent whose enqueue is past its store has raised `termination`, so the call
      cannot end without that; and `termination` is raised only if such an event was accepted. */
  lemma {:induction false} InjectedRaises(pol: Policy, s: Process)
    requires Reachable(pol, s)
    ensures forall a :: a in s.acts && PastStore(s.acts[a]) && Injected(s.acts[a].e) ==> s.c.termination
    ensures s.c.termination ==> exists i :: 0 <= i < |s.c.accepted| && Injected(s.c.accepted[i])
  {
    var run :| Exec(pol, run) == At(s);
    RaisedKept(pol, run);
  }

  /** A call of enqueue never ends at its store. */
  lemma {:induction false} StoreGoesOn(pol: Policy, s: Process, a: int)
    requires Enabled(pol, s, Step(a)) && s.acts[a].Enq? && s.acts[a].at.SetTermination?
    ensures a in Do(pol, s, Step(a)).acts && PastStore(Do(pol, s, Step(a)).acts[a])
  {
  }

  // ---------------------------------------------------------------- when a process ends

  /** Disposed of as a TerminateEvent that ends the process: served, or dropped after a purge. */
  predicate Ends(f: Fate) { (f.Served? || f.Filtered?) && f.e.terminate }

  predicate ServesEnd(f: Fate) { f.Served? && f.e.terminate }

  /** Past the end of the event loop. */
  predicate IsEnding(s: Process) {
    || s.c.state == Terminating
    || (s.c.owner.By? && s.c.owner.a in s.acts && (s.acts[s.c.owner.a] == Resume(Finish) || s.acts[s.c.owner.a].Clean?))
  }

  ghost predicate InvEnds(s: Process) {
    && (IsEnding(s) ==> exists i :: 0 <= i < |s.c.log| && Ends(s.c.log[i]))
    && ((exists i :: 0 <= i < |s.c.log| && ServesEnd(s.c.log[i])) ==> IsEnding(s))
  }

  /** The log only grows, by the event in hand or, at decomission, by the mailbox. */
  lemma {:induction false} LogGrows(pol: Policy, s: Process, x: Action)
    requires Enabled(pol, s, x)
    ensures s.c.log <= Do(pol, s, x).c.log
  {
    if x.Step? {
      StepLogGrows(s, x.a);
    }
  }

  lemma {:induction false} StepLogGrows(s: Process, a: int)
    requires a in s.acts && !Fault(s, a)
    ensures s.c.log <= DoStep(s, a).c.log
  {
    var x := s.acts[a];
    if x.Enq? {
    } else if x.Resume? {
    } else if x.Serve? {
    } else if x.Clean? {
    }
  }

  lemma {:induction false} EndingStays(pol: Policy, s: Process, x: Action)
    requires Safe(s) && Enabled(pol, s, x) && IsEnding(s)
    ensures IsEnding(Do(pol, s, x))
  {
    if x.Step? {
      var y := s.acts[x.a];
      match y {
        case Enq(_, _, _) =>
        case Resume(_) =>
        case Serve(_, _) =>
        case Clean(_) =>
        case _ =>
      }
    }
  }

  lemma {:induction false} OthersDoNotEnd(s: Process, a: int)
    requires Safe(s) && a in s.acts && !Fault(s, a) && !s.acts[a].Serve? && !IsEnding(s)
    ensures !IsEnding(DoStep(s, a))
  {
    var y := s.acts[a];
    match y {
      case Enq(_, _, _) =>
      case Resume(_) =>
      case Clean(_) =>
      case _ =>
    }
  }

  lemma {:induction false} ServeEnds(s: Process, a: int)
    requires Safe(s) && a in s.acts && !Fault(s, a) && s.acts[a].Serve? && !IsEnding(s) && IsEnding(DoStep(s, a))
    ensures var log := DoStep(s, a).c.log; |log| > 0 && Ends(log[|log| - 1])
  {
  }

  /** The step that ends the event loop disposes of a TerminateEvent. */
  lemma {:induction false} EndingBy(pol: Policy, s: Process, x: Action)
    requires Safe(s) && Enabled(pol, s, x) && !IsEnding(s) && IsEnding(Do(pol, s, x))
    ensures var log := Do(pol, s, x).c.log; |log| > 0 && Ends(log[|log| - 1])
  {
    if x.Step? {
      if s.acts[x.a].Serve? { ServeEnds(s, x.a); } else { OthersDoNotEnd(s, x.a); }
    }
  }

  lemma {:induction false} ServedEnds(pol: Policy, s: Process, x: Action, i: nat)
    requires Safe(s) && Enabled(pol, s, x) && |s.c.log| <= i < |Do(pol, s, x).c.log|
    requires ServesEnd(Do(pol, s, x).c.log[i])
    ensures IsEnding(Do(pol, s, x))
  {
    if x.Step? {
      var y := s.acts[x.a];
      match y {
        case Enq(_, _, _) =>
        case Resume(_) =>
        case Serve(_, _) =>
        case Clean(stage) => DrainedOnly(s.c.mailbox);
        case _ =>
      }
    }
  }

  lemma {:induction false} DrainedOnly(es: seq<Event>)
    ensures forall i :: 0 <= i < |Drain(es)| ==> Drain(es)[i].Drained?
  {
    if es != [] {
      DrainedOnly(es[..|es| - 1]);
    }
  }

  lemma {:induction false} EndsStep(pol: Policy, s: Process, x: Action)
    requires (Sound(s) || Risen(s)) && Enabled(pol, s, x) && InvEnds(s)
    ensures InvEnds(Do(pol, s, x))
  {
    var t := Do(pol, s, x);
    LogGrows(pol, s, x);
    if IsEnding(s) {
      if Sound(s) { EndingStays(pol, s, x); } else { RisenKept(pol, s, x); }
      var i :| 0 <= i < |s.c.log| && Ends(s.c.log[i]);
      assert Ends(t.c.log[i]);
    } else {
      if IsEnding(t) { EndingBy(pol, s, x); }
      assert forall i :: 0 <= i < |s.c.log| ==> t.c.log[i] == s.c.log[i];
      if i :| |s.c.log| <= i < |t.c.log| && ServesEnd(t.c.log[i]) {
        ServedEnds(pol, s, x, i);
      }
    }
  }

  lemma {:induction false} EndsKept(pol: Policy, run: seq<Action>)
    requires Exec(pol, run).At?
    ensures InvEnds(Exec(pol, run).s)
  {
    if run != [] {
      EndsKept(pol, run[..|run| - 1]);
      RunKeepsOrder(pol, run[..|run| - 1]);
      EndsStep(pol, Exec(pol, run[..|run| - 1]).s, run[|run| - 1]);
    }
  }

  /** In every run a process leaves its event loop only after a TerminateEvent was served, or was dropped by a filter
      after a purge; and once one was served it has left. */
  lemma {:induction false} EndsByTerminate(pol: Policy, s: Process)
    requires Reachable(pol, s)
    ensures IsEnding(s) ==> exists i :: 0 <= i < |s.c.log| && Ends(s.c.log[i])
    ensures (exists i :: 0 <= i < |s.c.log| && ServesEnd(s.c.log[i])) ==> IsEnding(s)
  {
    var run :| Exec(pol, run) == At(s);
    EndsKept(pol, run);
  }

  // ---------------------------------------------------------------- serving

  /** With an event in hand: if `termination` is raised, events before the TerminateEvent are purged one by one and the
      next is taken; otherwise the event is served, unless a filter drops it. Nothing else serves an event. */
  lemma {:induction false} ServeSteps(pol: Policy, s: Process, a: int)
    requires Enabled(pol, s, Step(a)) && s.acts[a].Serve?
    ensures var e, step, t := s.acts[a].hand, s.acts[a].step, Do(pol, s, Step(a));
      && a in t.acts
      && (step.LoadTermination? ==>
            t.c == s.c && t.acts[a] == Serve(e, if s.c.termination then Purge else Filter(false)))
      && (step.Purge? && e.terminate ==> t.c == s.c && t.acts[a] == Serve(e, Filter(true)))
      && (step.Purge? && !e.terminate ==>
            && s.c.mailbox != [] && t.c.log == s.c.log + [Purged(e)] && t.c.mailbox == s.c.mailbox[1..]
            && t.acts[a] == Serve(s.c.mailbox[0], Purge))
      && (step.Filter? ==> t.c.log == s.c.log + [Served(e)] && t.c.mailbox == s.c.mailbox
                           && t.acts[a] == Resume(if e.terminate then Finish else Loop))
  {
  }

  lemma {:induction false} CleanServesNothing(s: Process, a: int)
    requires a in s.acts && !Fault(s, a) && s.acts[a].Clean?
    ensures var log := DoStep(s, a).c.log;
      forall i :: |s.c.log| <= i < |log| ==> !log[i].Served? && !log[i].Purged?
  {
    var log := DoStep(s, a).c.log;
    if s.acts[a].stage.Decommission? {
      assert log == s.c.log + Drain(s.c.mailbox);
      DrainedOnly(s.c.mailbox);
    } else {
      assert log == s.c.log;
    }
  }

  lemma {:induction false} RestLogsNothing(s: Process, a: int)
    requires a in s.acts && !Fault(s, a) && !s.acts[a].Clean? && !s.acts[a].Serve?
    ensures DoStep(s, a).c.log == s.c.log
  {
  }

  lemma {:induction false} OthersServeNothing(pol: Policy, s: Process, x: Action)
    requires Enabled(pol, s, x) && !(x.Step? && s.acts[x.a].Serve?)
    ensures var log := Do(pol, s, x).c.log;
      forall i :: |s.c.log| <= i < |log| ==> !log[i].Served? && !log[i].Purged?
  {
    if x.Step? {
      if s.acts[x.a].Clean? { CleanServesNothing(s, x.a); } else { RestLogsNothing(s, x.a); }
    }
  }

  // ---------------------------------------------------------------- spawn and wait

  /** A spawn that finds the object unused and its name free registers it and puts it in the run queue. */
  lemma {:induction false} SpawnQueues(pol: Policy, s: Process, a: int)
    requires Enabled(pol, s, Step(a))
    ensures var x, t := s.acts[a], Do(pol, s, Step(a));
      && (x.SpawnCheck? && s.c.state == Bottom ==> a in t.acts && t.acts[a].SpawnRegister?)
      && (x.SpawnRegister? && !s.c.registered ==> a in t.acts && t.acts[a].SpawnPush? && t.c.registered)
      && (x.SpawnPush? ==> a !in t.acts && t.c.queued == s.c.queued + 1)
  {
  }

  /** A waiter that finds the process runnable and in the run queue takes it out and runs it itself; one that does not
      leaves it alone. */
  lemma {:induction false} WaiterDonates(pol: Policy, s: Process, a: int)
    requires Enabled(pol, s, Step(a))
    ensures var x, t := s.acts[a], Do(pol, s, Step(a));
      && (x.WaitLoad? && (s.c.state == Bottom || s.c.state == Ready) ==> a in t.acts && t.acts[a].WaitExtract?)
      && (x.WaitExtract? && s.c.queued > 0 ==> a in t.acts && t.acts[a].WaitDrop? && t.c.queued == s.c.queued - 1)
      && (x.WaitExtract? && s.c.queued == 0 ==> a !in t.acts && t.c == s.c)
      && (x.WaitDrop? ==> a in t.acts && t.acts[a] == Resume(Load))
  {
  }

  // ---------------------------------------------------------------- an idle process serves

  /** The worker finds nothing and stores BLOCKED. */
  lemma {:induction false} Blocks(pol: Policy, c: Core)
    requires c.state == Ready && c.mailbox == [] && c.owner == By(1)
    requires Reachable(pol, Process(c, map[][1 := Resume(Loop)]))
    ensures Reachable(pol, Process(c.(state := Blocked, owner := Nobody), map[][1 := Resume(Recheck)]))
  {
    Walk(pol, c, map[], 1, Resume(Loop), c, Resume(StoreBlocked));
    Walk(pol, c, map[], 1, Resume(StoreBlocked), c.(state := Blocked, owner := Nobody), Resume(Recheck));
  }

  /** It looks again and leaves. */
  lemma {:induction false} Leaves(pol: Policy, c: Core)
    requires c.mailbox == [] && Reachable(pol, Process(c, map[][1 := Resume(Recheck)]))
    ensures Reachable(pol, Process(c, map[]))
  {
    Walk(pol, c, map[], 1, Resume(Recheck), c, Resume(Leave));
    WalkEnd(pol, c, map[], 1, Resume(Leave), c);
  }

  /** A call pushes `e` on the mailbox of the idle process. */
  lemma {:induction false} Pushed(pol: Policy, c: Core, e: Event)
    requires c.state == Blocked && c.mailbox == [] && c.commissioned && !c.gateOpen && !Injected(e)
    requires Reachable(pol, Process(c, map[]))
    ensures Reachable(pol, Process(c.(mailbox := [e], accepted := c.accepted + [e]),
                                   map[][2 := Enq(e, false, RecheckState)]))
  {
    assert c.mailbox + [e] == [e];
    var call := Enq(e, false, LoadState);
    Extend(pol, Process(c, map[]), Begin(2, call), Process(c, map[][2 := call]));
    Walk(pol, c, map[], 2, Enq(e, false, LoadState), c, Enq(e, false, PushEvent));
    Walk(pol, c, map[], 2, Enq(e, false, PushEvent), c.(mailbox := [e], accepted := c.accepted + [e]),
         Enq(e, false, RecheckState));
  }

  /** It finds BLOCKED and wins the exchange. */
  lemma {:induction false} Wins(pol: Policy, d: Core, e: Event)
    requires d.state == Blocked && Reachable(pol, Process(d, map[][2 := Enq(e, false, RecheckState)]))
    ensures Reachable(pol, Process(d.(state := Ready, owner := By(2)), map[][2 := Enq(e, false, PushRunq)]))
  {
    Walk(pol, d, map[], 2, Enq(e, false, RecheckState), d, Enq(e, false, Exchange));
    Walk(pol, d, map[], 2, Enq(e, false, Exchange), d.(state := Ready, owner := By(2)), Enq(e, false, PushRunq));
  }

  /** It queues the process. */
  lemma {:induction false} Wakes(pol: Policy, d: Core, e: Event)
    requires d.state == Blocked && d.queued == 0
    requires Reachable(pol, Process(d, map[][2 := Enq(e, false, RecheckState)]))
    ensures Reachable(pol, Process(d.(state := Ready, queued := 1, owner := InQueue), map[]))
  {
    Wins(pol, d, e);
    Queues(pol, d.(state := Ready, owner := By(2)), e);
  }

  lemma {:induction false} Queues(pol: Policy, f: Core, e: Event)
    requires f.queued == 0 && Reachable(pol, Process(f, map[][2 := Enq(e, false, PushRunq)]))
    ensures Reachable(pol, Process(f.(queued := 1, owner := InQueue), map[]))
  {
    WalkEnd(pol, f, map[], 2, Enq(e, false, PushRunq), f.(queued := 1, owner := InQueue));
  }

  /** A worker takes the process from the queue. */
  lemma {:induction false} Resumes(pol: Policy, c: Core)
    requires c.state == Ready && c.queued == 1 && c.selfRef && Reachable(pol, Process(c, map[]))
    ensures Reachable(pol, Process(c.(queued := 0, owner := By(1)), map[][1 := Resume(Loop)]))
  {
    var d := c.(queued := 0, owner := By(1));
    Extend(pol, Process(c, map[]), Pop(1), Process(d, map[][1 := Resume(Load)]));
    Walk(pol, d, map[], 1, Resume(Load), d, Resume(TakeRef));
    Walk(pol, d, map[], 1, Resume(TakeRef), d, Resume(Loop));
  }

  /** It serves the event. */
  lemma {:induction false} Serves(pol: Policy, d: Core, e: Event)
    requires d.mailbox == [e] && !d.termination && !e.terminate
    requires Reachable(pol, Process(d, map[][1 := Resume(Loop)]))
    ensures Reachable(pol, Process(d.(mailbox := [], log := d.log + [Served(e)]), map[][1 := Resume(Loop)]))
  {
    var f := d.(mailbox := []);
    Walk(pol, d, map[], 1, Resume(Loop), d, Resume(Dequeue));
    assert [e][1..] == [];
    Walk(pol, d, map[], 1, Resume(Dequeue), f, Serve(e, LoadTermination));
    Walk(pol, f, map[], 1, Serve(e, LoadTermination), f, Serve(e, Filter(false)));
    Walk(pol, f, map[], 1, Serve(e, Filter(false)), f.(log := f.log + [Served(e)]), Resume(Loop));
  }

  /** The protocol is alive: a process is spawned, rests, is sent an event, and serves it. */
  lemma {:induction false} IdleProcessServes(pol: Policy, e: Event) returns (s: Process)
    requires !e.terminate
    ensures Reachable(pol, s) && s.c.log == [Served(e)]
  {
    assert Exec(pol, []) == At(INITIAL);
    Boot(pol, map[]);
    Blocks(pol, BOOTED);
    var idle := BOOTED.(state := Blocked, owner := Nobody);
    Leaves(pol, idle);
    Pushed(pol, idle, e);
    var d := idle.(mailbox := [e], accepted := idle.accepted + [e]);
    Wakes(pol, d, e);
    var c := d.(state := Ready, queued := 1, owner := InQueue);
    Resumes(pol, c);
    var f := c.(queued := 0, owner := By(1));
    Serves(pol, f, e);
    s := Process(f.(mailbox := [], log := f.log + [Served(e)]), map[][1 := Resume(Loop)]);
  }
}
