/**
  Clock::settle with the clock and the run queue together.

  The event loop's thread is not counted in `running`, yet the callbacks of a tick push on the run queue.
  settle() relies on Clock::settled() to notice them, and on the epoch to notice what they pushed.
 */
module Settling {
  import R = RunQueue
  import C = ClockModel

  /** The event loop's thread. */
  const LOOP: int := 0

  datatype State = State(q: R.State, v: C.View)

  datatype Action =
    | Queue(x: R.Action)
    | Clock(t: int, op: C.Op)   // thread `t` calls the clock, or the loop runs a tick

  /** The callbacks of a tick are being run. */
  predicate Firing(v: C.View) { v.batch.Batch? && v.batch.ids != [] }

  predicate IsOut(pc: R.Pc) { pc.OutEpoch? || pc.OutSignal? }

  /** What may happen during a call of settle besides counted threads and the callbacks of ticks. */
  datatype Policy = Policy(
    pushes: bool,    // another thread pushes on the run queue
    uses: bool,      // another thread makes or cancels timers, or moves the clock
    resumes: bool,   // the clock is resumed
    stale: bool)     // a tick from before the pause is in its callbacks when settle is called

  predicate Strict(pol: Policy) { !pol.pushes && !pol.uses && !pol.resumes && !pol.stale }

  /** A tick of an earlier pause, or of the time before any, is in its callbacks. */
  predicate Stale(v: C.View) { Firing(v) && v.batch.pause != v.pauses }

  /** No uncounted thread is in the middle of a push, save the loop in its callbacks. */
  predicate NoOutsider(s: State) {
    forall t :: t in s.q.threads && IsOut(s.q.threads[t]) ==> t == LOOP && Firing(s.v)
  }

  predicate MayCall(pol: Policy, s: State) {
    s.v.paused && (pol.stale || !Stale(s.v)) && (pol.pushes || NoOutsider(s))
  }

  /** Thread `t` holds a process, or is the loop in its callbacks, or no settle is under way. */
  predicate IsInside(s: State, t: int)
    requires t in s.q.threads
  {
    s.q.g.settler.Off? || s.q.threads[t].Hold? || (t == LOOP && Firing(s.v))
  }

  predicate Enabled(pol: Policy, s: State, a: Action) {
    && LOOP in s.q.threads
    && match a
       case Queue(x) =>
         && R.Enabled(true, s.q, x)
         && (x.Push? ==> pol.pushes || IsInside(s, x.t))
         && (x.Settle? && s.q.g.settler.Off? ==> MayCall(pol, s))
         && (x.Settle? && s.q.g.settler.ClockSettled? ==> s.v.paused && x.clock == C.Settled(s.v))
       case Clock(t, op) =>
         && t in s.q.threads && C.Enabled(s.v, op)
         && (op.DoBeginTick? || op.DoEndTick? ==> t == LOOP && s.q.threads[LOOP].Idle?)
         && (op.DoTimer? || op.DoCancel? || op.DoAdvance? || op.DoUpdate? ==> pol.uses || IsInside(s, t))
         && (op.DoResume? ==> pol.resumes || s.q.g.settler.Off?)
  }

  function Do(s: State, a: Action): State
    requires exists pol :: Enabled(pol, s, a)
  {
    match a
    case Queue(x) => s.(q := R.Do(s.q, x))
    case Clock(_, op) => s.(v := C.Do(s.v, op))
  }

  // ---------------------------------------------------------------- invariant

  const STRICT: Policy := Policy(false, false, false, false)

  predicate NothingDue(v: C.View) { v.timers == [] || v.timers[0].time > v.current }

  /** No process is queued or held, and no push has its epoch still to come. */
  ghost predicate Still(q: R.State) {
    q.g.runq == [] && forall t :: t in q.threads ==> !R.Holds(q.threads[t]) && !q.threads[t].OutEpoch?
  }

  ghost predicate PushPending(q: R.State) {
    exists t :: t in q.threads && (q.threads[t].Epoch? || q.threads[t].OutEpoch?)
  }

  predicate LoopPushing(q: R.State) { LOOP in q.threads && q.threads[LOOP].OutEpoch? }

  /** Everything has come to rest. */
  ghost predicate AtRest(s: State) { Still(s.q) && !Firing(s.v) && NothingDue(s.v) }

  /** What stays so during a call. */
  predicate Called(s: State) { s.v.paused && !Stale(s.v) && NoOutsider(s) }

  ghost predicate InvSettler(s: State) {
    var epoch := s.q.g.epoch;
    match s.q.g.settler
    case FirstRunning(since) => since <= epoch
    case LoadEmpty(since) => since <= epoch
    case SecondRunning(since) => since < epoch || (since == epoch && (s.q.g.runq == [] || PushPending(s.q)))
    case ClockSettled(since) => since < epoch || (since == epoch && (Still(s.q) || LoopPushing(s.q)))
    case CompareEpoch(since) => since < epoch || (since == epoch && AtRest(s))
    case Returned => AtRest(s)
    case _ => true
  }

  ghost predicate Inv(s: State) {
    && R.InvCounts(s.q) && C.Inv(s.v)
    && (s.q.g.settler.Off? || Called(s))
    && InvSettler(s)
  }

  lemma {:induction false} CalledKept(s: State, a: Action)
    requires Enabled(STRICT, s, a) && Called(s) && !s.q.g.settler.Off?
    ensures Called(Do(s, a))
  {
  }

  /** What settle looks at moves on only by a bump of the epoch. */
  lemma {:induction false} PendingKept(s: State, x: R.Action)
    requires Enabled(STRICT, s, Queue(x)) && (s.q.g.runq == [] || PushPending(s.q))
    ensures var q := R.Do(s.q, x); s.q.g.epoch < q.g.epoch || q.g.runq == [] || PushPending(q)
  {
    var q := R.Do(s.q, x);
    if s.q.g.runq == [] {
      if x.Push? {
        assert q.threads[x.t].Epoch? || q.threads[x.t].OutEpoch?;
      }
    } else {
      var t :| t in s.q.threads && (s.q.threads[t].Epoch? || s.q.threads[t].OutEpoch?);
      assert q.threads[t] == s.q.threads[t] || s.q.g.epoch < q.g.epoch;
    }
  }

  /** Rest is disturbed only by the callbacks of a tick. */
  lemma {:induction false} StillKept(s: State, x: R.Action)
    requires Enabled(STRICT, s, Queue(x)) && Called(s) && !s.q.g.settler.Off?
    requires Still(s.q) || LoopPushing(s.q)
    ensures var q := R.Do(s.q, x);
      && (s.q.g.epoch < q.g.epoch || Still(q) || LoopPushing(q))
      && (Still(s.q) && !Firing(s.v) ==> Still(q))
  {
  }

  /** At rest a tick has nothing to run. */
  lemma {:induction false} RestKept(s: State, t: int, op: C.Op)
    requires Enabled(STRICT, s, Clock(t, op)) && Called(s) && !s.q.g.settler.Off? && AtRest(s)
    ensures AtRest(Do(s, Clock(t, op)))
  {
    if op.DoBeginTick? {
      assert C.Expired(s.v.timers, s.v.current) == [] && C.Later(s.v.timers, s.v.current) == s.v.timers;
      C.ScheduleFrame(C.Collect(s.v, op.k));
    }
  }

  lemma {:induction false} ClockKeeps(s: State, t: int, op: C.Op)
    requires Inv(s) && Enabled(STRICT, s, Clock(t, op))
    ensures Inv(Do(s, Clock(t, op)))
  {
    C.InvKept(s.v, op);
    if !s.q.g.settler.Off? {
      CalledKept(s, Clock(t, op));
      if AtRest(s) {
        RestKept(s, t, op);
      }
    }
  }

  lemma {:induction false} SettleKeeps(s: State, clock: bool)
    requires Inv(s) && Enabled(STRICT, s, Queue(R.Settle(clock)))
    ensures InvSettler(Do(s, Queue(R.Settle(clock))))
  {
    var settler := s.q.g.settler;
    if settler.SecondRunning? && s.q.g.running <= 0 {
      R.NotRunning(s.q);
      if PushPending(s.q) {
        var t :| t in s.q.threads && (s.q.threads[t].Epoch? || s.q.threads[t].OutEpoch?);
        assert !R.Holds(s.q.threads[t]);
        assert IsOut(s.q.threads[t]);
      }
    } else if settler.ClockSettled? && clock {
      assert IsOut(s.q.threads[LOOP]) ==> Firing(s.v);
      assert !Firing(s.v);
    }
  }

  lemma {:induction false} QueueKeeps(s: State, x: R.Action)
    requires Inv(s) && Enabled(STRICT, s, Queue(x))
    ensures Inv(Do(s, Queue(x)))
  {
    R.CountsKept(true, s.q, x);
    if !s.q.g.settler.Off? {
      CalledKept(s, Queue(x));
    }
    if x.Settle? {
      SettleKeeps(s, x.clock);
    } else {
      StepKeeps(s, x);
    }
  }

  lemma {:induction false} StepKeeps(s: State, x: R.Action)
    requires Inv(s) && Enabled(STRICT, s, Queue(x)) && !x.Settle?
    ensures InvSettler(Do(s, Queue(x)))
  {
    EpochGrows(s.q, x);
    var settler := s.q.g.settler;
    if settler.SecondRunning? && (s.q.g.runq == [] || PushPending(s.q)) {
      PendingKept(s, x);
    } else if !settler.Off? && (Still(s.q) || LoopPushing(s.q)) {
      StillKept(s, x);
    }
  }

  lemma {:induction false} EpochGrows(q: R.State, x: R.Action)
    requires R.Enabled(true, q, x) && !x.Settle?
    ensures q.g.epoch <= R.Do(q, x).g.epoch && R.Do(q, x).g.settler == q.g.settler
  {
  }

  // ---------------------------------------------------------------- runs

  function Initial(pool: set<int>): State { State(R.Initial(pool), C.INITIAL) }

  datatype Outcome = Stuck | At(s: State)

  function Exec(pol: Policy, pool: set<int>, run: seq<Action>): Outcome {
    if run == [] then At(Initial(pool))
    else
      var before := Exec(pol, pool, run[..|run| - 1]);
      if before.At? && Enabled(pol, before.s, run[|run| - 1]) then At(Do(before.s, run[|run| - 1])) else Stuck
  }

  ghost predicate Reachable(pol: Policy, s: State) {
    exists pool, run :: Exec(pol, pool, run) == At(s)
  }

  lemma {:induction false} RunKeepsInv(pool: set<int>, run: seq<Action>)
    requires Exec(STRICT, pool, run).At?
    ensures Inv(Exec(STRICT, pool, run).s)
  {
    if run == [] {
      R.RunKeepsInv(false, pool, []);
      C.RunKeepsInv([]);
    } else {
      RunKeepsInv(pool, run[..|run| - 1]);
      var s, a := Exec(STRICT, pool, run[..|run| - 1]).s, run[|run| - 1];
      match a {
        case Queue(x) => QueueKeeps(s, x);
        case Clock(t, op) => ClockKeeps(s, t, op);
      }
    }
  }

  /** Nothing is queued, held or being pushed, no timer is due, and no callback is running. */
  ghost predicate Settled(s: State) {
    && R.Quiet(s.q) && !Firing(s.v)
    && forall b :: b in s.v.timers ==> b.time > C.Now(s.v)
  }

  lemma {:induction false} RestIsSettled(s: State)
    requires Inv(s) && s.q.g.settler.Returned?
    ensures Settled(s)
  {
    forall t | t in s.q.threads ensures !R.Holds(s.q.threads[t]) && !R.IsPushing(s.q.threads[t]) {
      assert IsOut(s.q.threads[t]) ==> Firing(s.v);
    }
    forall b | b in s.v.timers ensures b.time > C.Now(s.v) {
      var i :| 0 <= i < |s.v.timers| && s.v.timers[i] == b;
      assert s.v.timers[0].time <= b.time;
    }
  }

  /** Whenever settle returns, run queue and clock have come to rest together, whatever timers fired and
      whatever processes ran during the call, exactly when nobody else pushes, uses or resumes the clock
      meanwhile, and no tick from before the pause is still in its callbacks. */
  lemma {:induction false} SettleWaitsForTimers(pol: Policy)
    ensures Strict(pol) <==> forall s :: Reachable(pol, s) && s.q.g.settler.Returned? ==> Settled(s)
  {
    if Strict(pol) {
      forall s | Reachable(pol, s) && s.q.g.settler.Returned? ensures Settled(s) {
        var pool, run :| Exec(pol, pool, run) == At(s);
        RunKeepsInv(pool, run);
        RestIsSettled(s);
      }
    } else if pol.pushes {
      var s := PushUnsettles(pol);
    } else if pol.uses {
      var s := TimerUnsettles(pol);
    } else if pol.resumes {
      var s := ResumeUnsettles(pol);
    } else {
      var s := StaleTickUnsettles(pol);
    }
  }

  // ---------------------------------------------------------------- runs that fail

  lemma {:induction false} Extend(pol: Policy, s: State, a: Action, t: State)
    requires Reachable(pol, s) && Enabled(pol, s, a) && Do(s, a) == t
    ensures Reachable(pol, t)
  {
    var pool, run :| Exec(pol, pool, run) == At(s);
    assert (run + [a])[..|run|] == run;
    assert Exec(pol, pool, run + [a]) == At(t);
  }

  /** The loop and one thread of the program. */
  function With(g: R.Shared, pc: R.Pc, v: C.View): State { State(R.State(g, map[LOOP := R.Idle, 1 := pc]), v) }

  const START: R.Shared := R.Shared([], 0, 0, 0, 0, R.Open, R.Off)

  const CALLED: R.Shared := START.(settler := R.LoadEpoch)

  lemma {:induction false} Starts(pol: Policy)
    ensures Reachable(pol, With(START, R.Idle, C.INITIAL))
  {
    var i := Initial({LOOP, 1});
    assert i.q.threads == map[LOOP := R.Idle, 1 := R.Idle];
    assert Exec(pol, {LOOP, 1}, []) == At(i);
  }

  lemma {:induction false} Ticks(pol: Policy, g: R.Shared, v: C.View, t: int, op: C.Op, w: C.View)
    requires Reachable(pol, With(g, R.Idle, v)) && Enabled(pol, With(g, R.Idle, v), Clock(t, op)) && w == C.Do(v, op)
    ensures Reachable(pol, With(g, R.Idle, w))
  {
    Extend(pol, With(g, R.Idle, v), Clock(t, op), With(g, R.Idle, w));
  }

  lemma {:induction false} Settles(pol: Policy, g: R.Shared, pc: R.Pc, v: C.View, next: R.Settler)
    requires Reachable(pol, With(g, pc, v)) && R.SettleStep(g, true) == next
    requires g.settler.Off? ==> MayCall(pol, With(g, pc, v))
    requires g.settler.ClockSettled? ==> v.paused && C.Settled(v)
    ensures Reachable(pol, With(g.(settler := next), pc, v))
  {
    Extend(pol, With(g, pc, v), Queue(R.Settle(true)), With(g.(settler := next), pc, v));
  }

  /** settle loads everything but the second count and the clock. */
  lemma {:induction false} LooksTwice(pol: Policy, g: R.Shared, v: C.View)
    requires Reachable(pol, With(g, R.Idle, v)) && g.settler.LoadEpoch? && g.runq == [] && g.running == 0
    ensures Reachable(pol, With(g.(settler := R.SecondRunning(g.epoch)), R.Idle, v))
  {
    var e := g.epoch;
    Settles(pol, g, R.Idle, v, R.FirstRunning(e));
    Settles(pol, g.(settler := R.FirstRunning(e)), R.Idle, v, R.LoadEmpty(e));
    Settles(pol, g.(settler := R.LoadEmpty(e)), R.Idle, v, R.SecondRunning(e));
  }

  lemma {:induction false} Calls(pol: Policy, v: C.View)
    requires Reachable(pol, With(START, R.Idle, v)) && MayCall(pol, With(START, R.Idle, v))
    ensures Reachable(pol, With(CALLED, R.Idle, v))
  {
    Settles(pol, START, R.Idle, v, R.LoadEpoch);
  }

  /** It is satisfied with the clock too. */
  lemma {:induction false} AsksClock(pol: Policy, g: R.Shared, pc: R.Pc, v: C.View, e: nat)
    requires Reachable(pol, With(g, pc, v)) && g.settler == R.SecondRunning(e) && g.running == 0
    requires v.paused && C.Settled(v)
    ensures Reachable(pol, With(g.(settler := R.CompareEpoch(e)), pc, v))
  {
    Settles(pol, g, pc, v, R.ClockSettled(e));
    Settles(pol, g.(settler := R.ClockSettled(e)), pc, v, R.CompareEpoch(e));
  }

  lemma {:induction false} Returns(pol: Policy, g: R.Shared, pc: R.Pc, v: C.View)
    requires Reachable(pol, With(g, pc, v)) && g.settler == R.CompareEpoch(g.epoch)
    ensures Reachable(pol, With(g.(settler := R.Returned), pc, v))
  {
    Settles(pol, g, pc, v, R.Returned);
  }

  /** The clock is paused and settle has gone as far as the comparison of epochs. */
  lemma {:induction false} PausedAndSeen(pol: Policy, g: R.Shared, v: C.View)
    requires Reachable(pol, With(g, R.Idle, v)) && g == START && v.paused && !Stale(v) && C.Settled(v)
    ensures Reachable(pol, With(g.(settler := R.CompareEpoch(0)), R.Idle, v))
  {
    Calls(pol, v);
    LooksTwice(pol, CALLED, v);
    AsksClock(pol, g.(settler := R.SecondRunning(0)), R.Idle, v, 0);
  }

  lemma {:induction false} Pauses(pol: Policy) returns (v: C.View)
    ensures v == C.Pause(C.INITIAL) && Reachable(pol, With(START, R.Idle, v))
  {
    Starts(pol);
    v := C.Pause(C.INITIAL);
    Ticks(pol, START, C.INITIAL, 1, C.DoPause, v);
  }

  /** A thread of the program pushes after the queue was seen empty, and is slow to bump the epoch. */
  lemma {:induction false} PushUnsettles(pol: Policy) returns (s: State)
    requires pol.pushes
    ensures Reachable(pol, s) && s.q.g.settler.Returned? && !Settled(s)
  {
    var v := Pauses(pol);
    Calls(pol, v);
    LooksTwice(pol, CALLED, v);
    var g := START.(settler := R.SecondRunning(0));
    var h := g.(runq := [7]);
    assert g.runq + [7] == [7];
    assert map[LOOP := R.Idle, 1 := R.Idle][1 := R.OutEpoch] == map[LOOP := R.Idle, 1 := R.OutEpoch];
    Extend(pol, With(g, R.Idle, v), Queue(R.Push(1, 7)), With(h, R.OutEpoch, v));
    AsksClock(pol, h, R.OutEpoch, v, 0);
    Returns(pol, h.(settler := R.CompareEpoch(0)), R.OutEpoch, v);
    s := With(h.(settler := R.Returned), R.OutEpoch, v);
  }

  /** A thread of the program makes a timer that is due, after the clock was asked. */
  lemma {:induction false} TimerUnsettles(pol: Policy) returns (s: State)
    requires pol.uses
    ensures Reachable(pol, s) && s.q.g.settler.Returned? && !Settled(s)
  {
    var v := Pauses(pol);
    PausedAndSeen(pol, START, v);
    var g, w := START.(settler := R.CompareEpoch(0)), C.AddTimer(v, v.current, 9);
    C.Inserted(v, w, v.current, 9);
    Ticks(pol, g, v, 1, C.DoTimer(v.current, 9), w);
    Returns(pol, g, R.Idle, w);
    s := With(g.(settler := R.Returned), R.Idle, w);
    assert C.Bucket(v.current, [9]) in s.v.timers;
  }

  /** The clock is resumed after it was asked, and a timer that was not due becomes due. */
  lemma {:induction false} ResumeUnsettles(pol: Policy) returns (s: State)
    requires pol.resumes
    ensures Reachable(pol, s) && s.q.g.settler.Returned? && !Settled(s)
  {
    var p := Pauses(pol);
    var v := C.AddTimer(p, p.current + 1, 9);
    C.Inserted(p, v, p.current + 1, 9);
    Ticks(pol, START, p, 1, C.DoTimer(p.current + 1, 9), v);
    PausedAndSeen(pol, START, v);
    var g, w := START.(settler := R.CompareEpoch(0)), C.Resume(v);
    C.ScheduleFrame(v.(paused := false, settling := false));
    Ticks(pol, g, v, 1, C.DoResume, w);
    var u := C.Elapse(w, 1);
    Ticks(pol, g, w, LOOP, C.DoElapse(1), u);
    Returns(pol, g, R.Idle, u);
    s := With(g.(settler := R.Returned), R.Idle, u);
    assert C.Bucket(p.current + 1, [9]) in s.v.timers;
  }

  /** A tick collects a timer; while its callbacks run the clock is paused and settle is called. Nobody else does
      anything, and settle returns with the callbacks still running: `settling` is set only by ticks that find the
      clock paused. */
  lemma {:induction false} StaleTickUnsettles(pol: Policy) returns (s: State)
    requires pol.stale
    ensures Reachable(pol, s) && s.q.g.settler.Returned? && !Settled(s)
  {
    Starts(pol);
    var w := TimerAndTick(pol, START, C.INITIAL);
    s := PausedWhileFiring(pol, w);
  }

  /** A timer is made that is due at once, and its tick begins. */
  lemma {:induction false} TimerAndTick(pol: Policy, g: R.Shared, v: C.View) returns (w: C.View)
    requires Reachable(pol, With(g, R.Idle, v)) && g.settler.Off?
    requires v.timers == [] && v.ticks == {} && v.batch.NoBatch?
    ensures Reachable(pol, With(g, R.Idle, w))
    ensures Firing(w) && w.batch.pause == w.pauses && w.timers == [] && w.paused == v.paused
    ensures w.settling == (v.settling || v.paused) && w.current == v.current
  {
    var u, k := TimerMade(pol, g, v);
    w := TickBegins(pol, g, u, k, C.Now(v));
  }

  lemma {:induction false} TimerMade(pol: Policy, g: R.Shared, v: C.View) returns (u: C.View, k: C.Tick)
    requires Reachable(pol, With(g, R.Idle, v)) && g.settler.Off? && v.timers == [] && v.ticks == {}
    ensures Reachable(pol, With(g, R.Idle, u)) && u.timers == [C.Bucket(C.Now(v), [9])] && C.Now(u) == C.Now(v)
    ensures k in u.pending && k.due <= u.wall && u.batch == v.batch
    ensures u.paused == v.paused && u.settling == v.settling && u.current == v.current
  {
    var now := C.Now(v);
    u, k := C.AddTimer(v, now, 9), C.Tick(now, v.wall);
    C.Inserted(v, u, now, 9);
    Ticks(pol, g, v, 1, C.DoTimer(now, 9), u);
  }

  lemma {:induction false} TickBegins(pol: Policy, g: R.Shared, u: C.View, k: C.Tick, time: int) returns (w: C.View)
    requires Reachable(pol, With(g, R.Idle, u)) && u.timers == [C.Bucket(time, [9])] && time <= C.Now(u)
    requires k in u.pending && k.due <= u.wall && u.batch.NoBatch?
    ensures Reachable(pol, With(g, R.Idle, w))
    ensures Firing(w) && w.batch.pause == w.pauses && w.timers == [] && w.paused == u.paused
    ensures w.settling == (u.settling || u.paused) && w.current == u.current
  {
    w := C.BeginTick(u, k);
    C.Collected(u, k, w, time, 9);
    assert Firing(w);
    Ticks(pol, g, u, LOOP, C.DoBeginTick(k), w);
  }

  lemma {:induction false} PausedWhileFiring(pol: Policy, w: C.View) returns (s: State)
    requires pol.stale && Reachable(pol, With(START, R.Idle, w))
    requires !w.paused && !w.settling && w.timers == [] && Firing(w)
    ensures Reachable(pol, s) && s.q.g.settler.Returned? && !Settled(s)
  {
    var p := C.Pause(w);
    Ticks(pol, START, w, 1, C.DoPause, p);
    Calls(pol, p);
    LooksTwice(pol, CALLED, p);
    AsksClock(pol, START.(settler := R.SecondRunning(0)), R.Idle, p, 0);
    Returns(pol, START.(settler := R.CompareEpoch(0)), R.Idle, p);
    s := With(START.(settler := R.Returned), R.Idle, p);
  }

  // ---------------------------------------------------------------- a run with work in it

  lemma {:induction false} LoopStep(pol: Policy, g: R.Shared, pc: R.Pc, v: C.View, h: R.Shared, next: R.Pc)
    requires Reachable(pol, State(R.State(g, map[LOOP := pc, 1 := R.Idle]), v)) && IsOut(pc)
    requires R.NextShared(g, pc) == h && R.NextPc(g, pc) == next
    ensures Reachable(pol, State(R.State(h, map[LOOP := next, 1 := R.Idle]), v))
  {
    assert map[LOOP := pc, 1 := R.Idle][LOOP := next] == map[LOOP := next, 1 := R.Idle];
    Extend(pol, State(R.State(g, map[LOOP := pc, 1 := R.Idle]), v), Queue(R.Step(LOOP)),
           State(R.State(h, map[LOOP := next, 1 := R.Idle]), v));
  }

  lemma {:induction false} CallbackStarts(pol: Policy, g: R.Shared, v: C.View)
    requires Reachable(pol, With(g, R.Idle, v)) && Firing(v) && g.runq == []
    ensures Reachable(pol, State(R.State(g.(runq := [7]), map[LOOP := R.OutEpoch, 1 := R.Idle]), v))
  {
    assert g.runq + [7] == [7];
    assert map[LOOP := R.Idle, 1 := R.Idle][LOOP := R.OutEpoch] == map[LOOP := R.OutEpoch, 1 := R.Idle];
    Extend(pol, With(g, R.Idle, v), Queue(R.Push(LOOP, 7)),
           State(R.State(g.(runq := [7]), map[LOOP := R.OutEpoch, 1 := R.Idle]), v));
  }

  /** A callback queues process 7. */
  lemma {:induction false} CallbackPushes(pol: Policy, g: R.Shared, v: C.View)
    requires Reachable(pol, With(g, R.Idle, v)) && Firing(v) && g.runq == []
    ensures Reachable(pol, With(g.(runq := [7], epoch := g.epoch + 1, value := g.value + 1), R.Idle, v))
  {
    CallbackStarts(pol, g, v);
    var h, k := g.(runq := [7]), g.(runq := [7], epoch := g.epoch + 1);
    LoopStep(pol, h, R.OutEpoch, v, k, R.OutSignal);
    LoopStep(pol, k, R.OutSignal, v, k.(value := g.value + 1), R.Idle);
  }

  lemma {:induction false} DonorStep(pol: Policy, g: R.Shared, pc: R.Pc, v: C.View, h: R.Shared, next: R.Pc)
    requires Reachable(pol, With(g, pc, v)) && (pc.DonorAdd? || pc.DonorExtract? || pc.DonorSub?)
    requires R.NextShared(g, pc) == h && R.NextPc(g, pc) == next
    ensures Reachable(pol, With(h, next, v))
  {
    assert map[LOOP := R.Idle, 1 := pc][1 := next] == map[LOOP := R.Idle, 1 := next];
    Extend(pol, With(g, pc, v), Queue(R.Step(1)), With(h, next, v));
  }

  lemma {:induction false} DonorBegins(pol: Policy, g: R.Shared, v: C.View)
    requires Reachable(pol, With(g, R.Idle, v))
    ensures Reachable(pol, With(g, R.DonorAdd(7), v))
  {
    assert map[LOOP := R.Idle, 1 := R.Idle][1 := R.DonorAdd(7)] == map[LOOP := R.Idle, 1 := R.DonorAdd(7)];
    Extend(pol, With(g, R.Idle, v), Queue(R.Begin(1, R.DonorAdd(7))), With(g, R.DonorAdd(7), v));
  }

  lemma {:induction false} DonorTakes(pol: Policy, g: R.Shared, v: C.View)
    requires Reachable(pol, With(g, R.Idle, v)) && g.runq == [7]
    ensures Reachable(pol, With(g.(running := g.running + 1, runq := []), R.Hold(true), v))
  {
    var h := g.(running := g.running + 1);
    DonorBegins(pol, g, v);
    DonorStep(pol, g, R.DonorAdd(7), v, h, R.DonorExtract(7));
    R.ExtractFirst(g.runq, 7, 0);
    DonorStep(pol, h, R.DonorExtract(7), v, h.(runq := []), R.Hold(true));
  }

  /** Thread 1 waits for process 7, runs it, and is done. */
  lemma {:induction false} DonorRuns(pol: Policy, g: R.Shared, v: C.View)
    requires Reachable(pol, With(g, R.Idle, v)) && g.runq == [7]
    ensures Reachable(pol, With(g.(runq := []), R.Idle, v))
  {
    DonorTakes(pol, g, v);
    var k := g.(running := g.running + 1, runq := []);
    assert map[LOOP := R.Idle, 1 := R.Hold(true)][1 := R.DonorSub] == map[LOOP := R.Idle, 1 := R.DonorSub];
    Extend(pol, With(k, R.Hold(true), v), Queue(R.Finish(1)), With(k, R.DonorSub, v));
    DonorStep(pol, k, R.DonorSub, v, g.(runq := []), R.Idle);
  }

  /** The theorem is about runs with work in them: settle is called while a timer fires, the callback queues a
      process, another thread runs it, and settle returns after all that. */
  lemma {:induction false} SettleOutwaitsTimer() returns (m: State, s: State)
    ensures Reachable(STRICT, m) && !m.q.g.settler.Off? && Firing(m.v) && m.q.g.runq == [7]
    ensures Reachable(STRICT, s) && s.q.g.settler.Returned? && s.q.g.epoch == 1 && s.q.g.runq == []
  {
    var p := Pauses(STRICT);
    var v := TimerAndTick(STRICT, START, p);
    Calls(STRICT, v);
    CallbackPushes(STRICT, CALLED, v);
    var g := CALLED.(runq := [7], epoch := 1, value := 1);
    m := With(g, R.Idle, v);
    s := RunsAndReturns(g, v);
  }

  lemma {:induction false} RunsAndReturns(g: R.Shared, v: C.View) returns (s: State)
    requires Reachable(STRICT, With(g, R.Idle, v)) && g == CALLED.(runq := [7], epoch := 1, value := 1)
    requires v.paused && Firing(v) && v.timers == []
    ensures Reachable(STRICT, s) && s.q.g.settler.Returned? && s.q.g.epoch == 1 && s.q.g.runq == []
  {
    var w, h := C.EndTick(v), g.(runq := []);
    Ticks(STRICT, g, v, LOOP, C.DoEndTick, w);
    DonorRuns(STRICT, g, w);
    LooksTwice(STRICT, h, w);
    AsksClock(STRICT, h.(settler := R.SecondRunning(1)), R.Idle, w, 1);
    Returns(STRICT, h.(settler := R.CompareEpoch(1)), R.Idle, w);
    s := With(h.(settler := R.Returned), R.Idle, w);
  }
}
