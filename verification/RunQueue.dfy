/**
  The run queue with its kernel semaphore, the worker and donating threads that use it,
  ProcessManager::settle and the decommissioning of the semaphore.

  One step per atomic operation. Processes are just ids here; what a thread does while
  it holds one is to push others.
 */
module RunQueue {
  import opened Counting

  datatype Pc =
    | Idle
    | Start                          // worker: running.fetch_add before its loop
    | Sub                            // dequeue(): running.fetch_sub
    | Enter | Check | Block | Exit   // DecomissionableKernelSemaphore::wait
    | Recount                        // running.fetch_add
    | Dequeue                        // runq.dequeue()
    | DonorAdd(want: int) | DonorExtract(want: int) | DonorSub
    | Hold(donor: bool)              // in resume
    | Epoch(donor: bool) | Signal(donor: bool)   // pushed; epoch and signal still to come
    | OutEpoch | OutSignal           // the same, by a thread that `running` does not count

  /** decomission(): flag stored, then `waiters` loaded, then that many signals. */
  datatype Closer = Open | Stored | Signalling(left: nat) | Closed

  /** settle(), by the next load it performs; `since` is the epoch it started from. */
  datatype Settler =
    | Off | LoadEpoch | FirstRunning(since: nat) | LoadEmpty(since: nat) | SecondRunning(since: nat)
    | ClockSettled(since: nat) | CompareEpoch(since: nat) | Returned

  datatype Shared = Shared(runq: seq<int>, epoch: nat, value: nat, waiters: int, running: int,
                           closer: Closer, settler: Settler)

  datatype State = State(g: Shared, threads: map<int, Pc>)

  /** `q` is the process pushed, `clock` the answer of Clock::settled(). */
  datatype Action =
    | Begin(t: int, pc: Pc)
    | Push(t: int, q: int)
    | Finish(t: int)
    | Step(t: int)
    | Close
    | Settle(clock: bool)

  /** No thread that `running` does not count is in the middle of a push. */
  predicate NoOutsider(s: State) {
    forall t :: t in s.threads ==> !s.threads[t].OutEpoch? && !s.threads[t].OutSignal?
  }

  /** Threads not counted in `running` may push on the run queue: always, or, without `outsiders`, only
      while no settle is under way. */
  predicate Enabled(outsiders: bool, s: State, x: Action) {
    match x
    case Begin(t, pc) => t in s.threads && s.threads[t].Idle? && (pc.Start? || pc.DonorAdd?)
    case Push(t, _) =>
      t in s.threads && (s.threads[t].Hold? || (s.threads[t].Idle? && (outsiders || s.g.settler.Off?)))
    case Finish(t) => t in s.threads && s.threads[t].Hold?
    case Step(t) =>
      && t in s.threads && !s.threads[t].Idle? && !s.threads[t].Hold?
      && (s.threads[t].Block? ==> s.g.value > 0)
    case Close => !s.g.closer.Closed?
    case Settle(_) => outsiders || !s.g.settler.Off? || NoOutsider(s)
  }

  /** RunQueue::extract: the first occurrence, as std::find returns it. */
  function Extract(q: seq<int>, p: int): (r: seq<int>)
    ensures |r| == |q| - One(p in q)
  {
    if q == [] then [] else if q[0] == p then q[1..] else [q[0]] + Extract(q[1..], p)
  }

  lemma {:induction false} ExtractCounts(q: seq<int>, p: int)
    ensures multiset(Extract(q, p)) == if p in q then multiset(q) - multiset{p} else multiset(q)
  {
    if q != [] {
      assert q == [q[0]] + q[1..];
      ExtractCounts(q[1..], p);
    }
  }

  /** Everything else stays, in order. */
  lemma {:induction false} ExtractFirst(q: seq<int>, p: int, i: nat)
    requires i < |q| && q[i] == p && forall j :: 0 <= j < i ==> q[j] != p
    ensures Extract(q, p) == q[..i] + q[i + 1..]
  {
    if i > 0 {
      var rest := q[1..];
      ExtractFirst(rest, p, i - 1);
      assert Extract(q, p) == [q[0]] + Extract(rest, p);
      var left := rest[..i - 1];
      assert rest[i - 1 + 1..] == q[i + 1..];
      assert [q[0]] + left == q[..i];
    }
  }

  function NextPc(g: Shared, pc: Pc): Pc {
    match pc
    case Start => Sub
    case Sub => Enter
    case Enter => Check
    case Check => if g.closer.Open? then Block else Exit
    case Block => Exit
    case Exit => Recount
    case Recount => Dequeue
    case Dequeue => if g.runq == [] then Sub else Hold(false)
    case DonorAdd(p) => DonorExtract(p)
    case DonorExtract(p) => if p in g.runq then Hold(true) else DonorSub
    case Epoch(donor) => Signal(donor)
    case Signal(donor) => Hold(donor)
    case OutEpoch => OutSignal
    case _ => Idle
  }

  function NextShared(g: Shared, pc: Pc): Shared
    requires pc.Block? ==> g.value > 0
  {
    match pc
    case Start => g.(running := g.running + 1)
    case Sub => g.(running := g.running - 1)
    case Enter => g.(waiters := g.waiters + 1)
    case Block => g.(value := g.value - 1)
    case Exit => g.(waiters := g.waiters - 1)
    case Recount => g.(running := g.running + 1)
    case Dequeue => if g.runq == [] then g else g.(runq := g.runq[1..])
    case DonorAdd(_) => g.(running := g.running + 1)
    case DonorExtract(p) => g.(runq := Extract(g.runq, p))
    case DonorSub => g.(running := g.running - 1)
    case Epoch(_) => g.(epoch := g.epoch + 1)
    case OutEpoch => g.(epoch := g.epoch + 1)
    case Signal(_) => g.(value := g.value + 1)
    case OutSignal => g.(value := g.value + 1)
    case _ => g
  }

  function CloseStep(g: Shared): Shared {
    match g.closer
    case Open => g.(closer := Stored)
    case Stored => g.(closer := Signalling(if g.waiters < 0 then 0 else g.waiters))
    case Signalling(n) => if n == 0 then g.(closer := Closed) else g.(closer := Signalling(n - 1), value := g.value + 1)
    case Closed => g
  }

  function SettleStep(g: Shared, clock: bool): Settler {
    match g.settler
    case Off => LoadEpoch
    case LoadEpoch => FirstRunning(g.epoch)
    case FirstRunning(since) => if g.running > 0 then LoadEpoch else LoadEmpty(since)
    case LoadEmpty(since) => if g.runq != [] then LoadEpoch else SecondRunning(since)
    case SecondRunning(since) => if g.running > 0 then LoadEpoch else ClockSettled(since)
    case ClockSettled(since) => if !clock then LoadEpoch else CompareEpoch(since)
    case CompareEpoch(since) => if since != g.epoch then LoadEpoch else Returned
    case Returned => Off
  }

  function Do(s: State, x: Action): State
    requires exists outsiders :: Enabled(outsiders, s, x)
  {
    match x
    case Begin(t, pc) => State(s.g, s.threads[t := pc])
    case Push(t, q) =>
      State(s.g.(runq := s.g.runq + [q]),
            s.threads[t := if s.threads[t].Hold? then Epoch(s.threads[t].donor) else OutEpoch])
    case Finish(t) => State(s.g, s.threads[t := if s.threads[t].donor then DonorSub else Sub])
    case Step(t) => State(NextShared(s.g, s.threads[t]), s.threads[t := NextPc(s.g, s.threads[t])])
    case Close => State(CloseStep(s.g), s.threads)
    case Settle(clock) => State(s.g.(settler := SettleStep(s.g, clock)), s.threads)
  }

  // ---------------------------------------------------------------- invariant

  predicate IsCounted(pc: Pc) {
    pc.Sub? || pc.Dequeue? || pc.DonorExtract? || pc.DonorSub? || Holds(pc)
  }

  /** In resume, with or without a push under way. */
  predicate Holds(pc: Pc) { pc.Hold? || pc.Epoch? || pc.Signal? }

  predicate IsWaiting(pc: Pc) { pc.Check? || pc.Block? || pc.Exit? }

  predicate IsBlocked(pc: Pc) { pc.Block? }

  /** Past the semaphore, before runq.dequeue(). */
  predicate IsAwake(pc: Pc) { pc.Exit? || pc.Recount? || pc.Dequeue? }

  /** Pushed, not yet signalled. */
  predicate IsPushing(pc: Pc) { pc.Epoch? || pc.Signal? || pc.OutEpoch? || pc.OutSignal? }

  ghost predicate InvCounts(s: State) {
    && s.g.running == Count(s.threads, IsCounted)
    && s.g.waiters == Count(s.threads, IsWaiting)
  }

  /** Every queued process has a unit of the semaphore, an awake worker or a signaller coming for it. */
  ghost predicate InvCovered(s: State) {
    |s.g.runq| <= s.g.value + Count(s.threads, IsAwake) + Count(s.threads, IsPushing)
  }

  ghost predicate InvClosed(s: State) {
    match s.g.closer
    case Signalling(n) => Count(s.threads, IsBlocked) <= s.g.value + n
    case Closed => Count(s.threads, IsBlocked) <= s.g.value
    case _ => true
  }

  /** Nobody holds a process and none is queued. */
  ghost predicate Quiet(s: State) {
    s.g.runq == [] && forall t :: t in s.threads ==> !Holds(s.threads[t]) && !IsPushing(s.threads[t])
  }

  /** Some thread has pushed and not yet bumped the epoch. */
  ghost predicate PushPending(s: State) {
    exists t :: t in s.threads && s.threads[t].Epoch?
  }

  /** What the settler has found out still holds, or the epoch has moved on. */
  ghost predicate InvSettle(s: State) {
    (s.g.settler.Off? || NoOutsider(s)) &&
    match s.g.settler
    case FirstRunning(since) => since <= s.g.epoch
    case LoadEmpty(since) => since <= s.g.epoch
    case SecondRunning(since) => since < s.g.epoch || (since == s.g.epoch && (s.g.runq == [] || PushPending(s)))
    case ClockSettled(since) => since < s.g.epoch || (since == s.g.epoch && Quiet(s))
    case CompareEpoch(since) => since < s.g.epoch || (since == s.g.epoch && Quiet(s))
    case Returned => Quiet(s)
    case _ => true
  }

  lemma {:induction false} CountsKept(outsiders: bool, s: State, x: Action)
    requires InvCounts(s) && Enabled(outsiders, s, x)
    ensures InvCounts(Do(s, x))
  {
    if x.Begin? || x.Push? || x.Finish? || x.Step? {
      CountPut(s.threads, x.t, Do(s, x).threads[x.t], IsCounted);
      CountPut(s.threads, x.t, Do(s, x).threads[x.t], IsWaiting);
    }
  }

  lemma {:induction false} CoveredKept(outsiders: bool, s: State, x: Action)
    requires InvCovered(s) && Enabled(outsiders, s, x)
    ensures InvCovered(Do(s, x))
  {
    if x.Begin? || x.Push? || x.Finish? || x.Step? {
      CountPut(s.threads, x.t, Do(s, x).threads[x.t], IsAwake);
      CountPut(s.threads, x.t, Do(s, x).threads[x.t], IsPushing);
    }
  }

  lemma {:induction false} ClosedKept(outsiders: bool, s: State, x: Action)
    requires InvCounts(s) && InvClosed(s) && Enabled(outsiders, s, x)
    ensures InvClosed(Do(s, x))
  {
    if x.Begin? || x.Push? || x.Finish? || x.Step? {
      CountPut(s.threads, x.t, Do(s, x).threads[x.t], IsBlocked);
    } else {
      CountLess(s.threads, IsBlocked, IsWaiting);
    }
  }

  /** While only threads that hold a process push, quiet stays. */
  lemma {:induction false} QuietStable(s: State, x: Action)
    requires Quiet(s) && Enabled(false, s, x) && !s.g.settler.Off?
    ensures Quiet(Do(s, x))
  {
  }

  lemma {:induction false} NotRunning(s: State)
    requires InvCounts(s) && s.g.running <= 0
    ensures forall t :: t in s.threads ==> !Holds(s.threads[t])
  {
    forall t | t in s.threads
      ensures !Holds(s.threads[t])
    {
      if Holds(s.threads[t]) {
        CountPositive(s.threads, t, IsCounted);
      }
    }
  }

  lemma {:induction false} PendingKept(s: State, x: Action)
    requires Enabled(false, s, x) && !s.g.settler.Off? && (s.g.runq == [] || PushPending(s))
    ensures s.g.epoch < Do(s, x).g.epoch || Do(s, x).g.runq == [] || PushPending(Do(s, x))
  {
    var u := Do(s, x);
    if s.g.runq == [] {
      if x.Push? {
        assert u.threads[x.t].Epoch?;
      }
    } else {
      var t :| t in s.threads && s.threads[t].Epoch?;
      assert u.threads[t].Epoch? || s.g.epoch < u.g.epoch;
    }
  }

  lemma {:induction false} EpochGrows(s: State, x: Action)
    requires Enabled(false, s, x)
    ensures s.g.epoch <= Do(s, x).g.epoch
    ensures x.Settle? ==> Do(s, x).g == s.g.(settler := SettleStep(s.g, x.clock)) && Do(s, x).threads == s.threads
    ensures !x.Settle? ==> Do(s, x).g.settler == s.g.settler
  {
  }

  lemma {:induction false} SettleKept(s: State, x: Action)
    requires InvCounts(s) && InvSettle(s) && Enabled(false, s, x)
    ensures InvSettle(Do(s, x))
  {
    EpochGrows(s, x);
    if x.Settle? {
      if s.g.settler.SecondRunning? && s.g.running <= 0 {
        NotRunning(s);
      }
    } else {
      if s.g.settler.SecondRunning? && (s.g.runq == [] || PushPending(s)) {
        PendingKept(s, x);
      }
      if Quiet(s) && !s.g.settler.Off? {
        QuietStable(s, x);
      }
    }
  }

  // ---------------------------------------------------------------- runs

  function Initial(pool: set<int>): State {
    State(Shared([], 0, 0, 0, 0, Open, Off), map t | t in pool :: Idle)
  }

  datatype Outcome = Stuck | At(s: State)

  /** The state after a run of a pool of threads, if every action of it was enabled in turn. */
  function Exec(outsiders: bool, pool: set<int>, run: seq<Action>): Outcome {
    if run == [] then At(Initial(pool))
    else
      var before := Exec(outsiders, pool, run[..|run| - 1]);
      if before.At? && Enabled(outsiders, before.s, run[|run| - 1]) then At(Do(before.s, run[|run| - 1])) else Stuck
  }

  ghost predicate Reachable(outsiders: bool, s: State) {
    exists pool, run :: Exec(outsiders, pool, run) == At(s)
  }

  ghost predicate Inv(outsiders: bool, s: State) {
    && InvCounts(s) && InvCovered(s) && InvClosed(s)
    && (!outsiders ==> InvSettle(s))
  }

  lemma {:induction false} RunKeepsInv(outsiders: bool, pool: set<int>, run: seq<Action>)
    requires Exec(outsiders, pool, run).At?
    ensures Inv(outsiders, Exec(outsiders, pool, run).s)
  {
    if run == [] {
      CountNone(Initial(pool).threads, IsCounted);
      CountNone(Initial(pool).threads, IsWaiting);
    } else {
      RunKeepsInv(outsiders, pool, run[..|run| - 1]);
      var s, x := Exec(outsiders, pool, run[..|run| - 1]).s, run[|run| - 1];
      CountsKept(outsiders, s, x);
      CoveredKept(outsiders, s, x);
      ClosedKept(outsiders, s, x);
      if !outsiders {
        SettleKept(s, x);
      }
    }
  }

  lemma {:induction false} InvAlways(outsiders: bool, s: State)
    requires Reachable(outsiders, s)
    ensures Inv(outsiders, s)
  {
    var pool, run :| Exec(outsiders, pool, run) == At(s);
    RunKeepsInv(outsiders, pool, run);
  }

  /** What happens to the queue: a push appends, a worker that finds it non-empty takes the first and holds it, a donor
      takes out the process it wants, at its first place, if it is there, and nothing else changes it. */
  lemma {:induction false} QueueSteps(outsiders: bool, s: State, x: Action)
    requires Enabled(outsiders, s, x)
    ensures var pc := if x.Step? then s.threads[x.t] else Idle;
      var q, r := s.g.runq, Do(s, x).g.runq;
      if x.Push? then r == q + [x.q]
      else if pc.Dequeue? && q != [] then r == q[1..] && Do(s, x).threads[x.t] == Hold(false)
      else if pc.DonorExtract? && pc.want in q then r == Extract(q, pc.want) && Do(s, x).threads[x.t] == Hold(true)
      else r == q
  {
    if x.Step? && s.threads[x.t].DonorExtract? && s.threads[x.t].want !in s.g.runq {
      ExtractNothing(s.g.runq, s.threads[x.t].want);
    }
  }

  lemma {:induction false} ExtractNothing(q: seq<int>, p: int)
    requires p !in q
    ensures Extract(q, p) == q
  {
    if q != [] {
      ExtractNothing(q[1..], p);
    }
  }

  predicate SignalsNow(s: State, x: Action) {
    || (x.Step? && x.t in s.threads && (s.threads[x.t].Signal? || s.threads[x.t].OutSignal?))
    || (x.Close? && s.g.closer.Signalling? && s.g.closer.left > 0)
  }

  predicate PassesNow(s: State, x: Action) { x.Step? && x.t in s.threads && s.threads[x.t].Block? }

  predicate BumpsNow(s: State, x: Action) {
    x.Step? && x.t in s.threads && (s.threads[x.t].Epoch? || s.threads[x.t].OutEpoch?)
  }

  /** Each signal adds a unit, each thread that passes the semaphore takes one, and each push bumps the epoch once. */
  lemma {:induction false} UnitsMove(outsiders: bool, s: State, x: Action)
    requires Enabled(outsiders, s, x)
    ensures Do(s, x).g.value == s.g.value + One(SignalsNow(s, x)) - One(PassesNow(s, x))
    ensures Do(s, x).g.epoch == s.g.epoch + One(BumpsNow(s, x))
  {
  }

  /** Signals given, threads passed, and epochs bumped, in a run. */
  datatype Tally = Tally(signals: nat, passes: nat, bumps: nat, pushes: nat)

  function Tallied(outsiders: bool, pool: set<int>, run: seq<Action>): Tally {
    if run == [] then Tally(0, 0, 0, 0)
    else
      var n, before, x := |run| - 1, Exec(outsiders, pool, run[..|run| - 1]), run[|run| - 1];
      var t := Tallied(outsiders, pool, run[..n]);
      if !before.At? then t
      else Tally(t.signals + One(SignalsNow(before.s, x)), t.passes + One(PassesNow(before.s, x)),
                 t.bumps + One(BumpsNow(before.s, x)), t.pushes + One(x.Push?))
  }

  predicate IsBumping(pc: Pc) { pc.Epoch? || pc.OutEpoch? }

  lemma {:induction false} BumpingStep(outsiders: bool, s: State, x: Action)
    requires Enabled(outsiders, s, x)
    ensures Count(Do(s, x).threads, IsBumping) == Count(s.threads, IsBumping) + One(x.Push?) - One(BumpsNow(s, x))
  {
    if x.Begin? || x.Push? || x.Finish? || x.Step? {
      CountPut(s.threads, x.t, Do(s, x).threads[x.t], IsBumping);
    }
  }

  /** In every run the semaphore's units are the signals given less the threads passed, and the epoch is the number of
      pushes less those whose bump is still to come. */
  lemma {:induction false} UnitsConserved(outsiders: bool, pool: set<int>, run: seq<Action>)
    requires Exec(outsiders, pool, run).At?
    ensures var s, t := Exec(outsiders, pool, run).s, Tallied(outsiders, pool, run);
      && t.signals == s.g.value + t.passes
      && s.g.epoch == t.bumps && t.pushes == t.bumps + |Those(s.threads, IsBumping)|
  {
    if run == [] {
      CountNone(Initial(pool).threads, IsBumping);
    } else {
      UnitsConserved(outsiders, pool, run[..|run| - 1]);
      UnitsMove(outsiders, Exec(outsiders, pool, run[..|run| - 1]).s, run[|run| - 1]);
      BumpingStep(outsiders, Exec(outsiders, pool, run[..|run| - 1]).s, run[|run| - 1]);
    }
  }

  /** Every queued process has a unit in the semaphore, a worker on its way, or a pusher about to signal. */
  lemma {:induction false} EveryEntryCovered(outsiders: bool, s: State)
    requires Reachable(outsiders, s)
    ensures |s.g.runq| <= s.g.value + |Those(s.threads, IsAwake)| + |Those(s.threads, IsPushing)|
  {
    InvAlways(outsiders, s);
  }

  /** With no worker on its way to the queue and no push half done, the semaphore has a unit for every
      queued process, whatever extractions happened: no runnable process is stranded. */
  lemma {:induction false} NothingStranded(outsiders: bool, s: State)
    requires Reachable(outsiders, s)
    requires forall t :: t in s.threads ==> !IsAwake(s.threads[t]) && !IsPushing(s.threads[t])
    ensures |s.g.runq| <= s.g.value
  {
    InvAlways(outsiders, s);
    assert forall t :: t in s.threads ==> !IsAwake(s.threads[t]);
    CountNone(s.threads, IsAwake);
    assert forall t :: t in s.threads ==> !IsPushing(s.threads[t]);
    CountNone(s.threads, IsPushing);
  }

  /** After decomission() the semaphore's value covers every thread still blocked in it, and from its
      first store on no thread starts to block; `waiters` and `running` never go below zero. */
  lemma {:induction false} DecommissionWakesAll(outsiders: bool, s: State, x: Action)
    requires Reachable(outsiders, s) && Enabled(outsiders, s, x)
    ensures s.g.closer.Closed? ==> |Those(s.threads, IsBlocked)| <= s.g.value
    ensures !s.g.closer.Open? ==> Those(Do(s, x).threads, IsBlocked) <= Those(s.threads, IsBlocked)
    ensures s.g.waiters >= 0 && s.g.running >= 0
  {
    InvAlways(outsiders, s);
  }

  /** Whenever settle returns no thread holds a process and none is queued, in every run and for every
      call of it, exactly when no uncounted thread pushes during a call. */
  lemma {:induction false} SettleMeansQuiet(outsiders: bool)
    ensures !outsiders <==> forall s :: Reachable(outsiders, s) && s.g.settler.Returned? ==> Quiet(s)
  {
    if !outsiders {
      forall s | Reachable(outsiders, s) && s.g.settler.Returned?
        ensures Quiet(s)
      {
        InvAlways(outsiders, s);
      }
    } else {
      var s := OutsiderUnsettles();
      assert !Quiet(s);
    }
  }

  lemma {:induction false} Extend(outsiders: bool, s: State, x: Action, t: State)
    requires Reachable(outsiders, s) && Enabled(outsiders, s, x) && Do(s, x) == t
    ensures Reachable(outsiders, t)
  {
    var pool, run :| Exec(outsiders, pool, run) == At(s);
    assert (run + [x])[..|run|] == run;
    assert Exec(outsiders, pool, run + [x]) == At(t);
  }

  /** The settler has seen the queue empty and nobody running, in a system where nothing has happened. */
  lemma {:induction false} SeenQuiet() returns (g: Shared, idle: map<int, Pc>)
    ensures g == Shared([], 0, 0, 0, 0, Open, SecondRunning(0)) && idle == map[0 := Idle]
    ensures Reachable(true, State(g, idle))
  {
    idle := map[0 := Idle];
    g := Shared([], 0, 0, 0, 0, Open, Off);
    assert Initial({0}).threads == idle;
    assert Exec(true, {0}, []) == At(State(g, idle));
    Extend(true, State(g, idle), Settle(true), State(g.(settler := LoadEpoch), idle));
    Extend(true, State(g.(settler := LoadEpoch), idle), Settle(true), State(g.(settler := FirstRunning(0)), idle));
    Extend(true, State(g.(settler := FirstRunning(0)), idle), Settle(true), State(g.(settler := LoadEmpty(0)), idle));
    Extend(true, State(g.(settler := LoadEmpty(0)), idle), Settle(true), State(g.(settler := SecondRunning(0)), idle));
    g := g.(settler := SecondRunning(0));
  }

  /** An outsider pushes after the queue was seen empty, and is slow to bump the epoch. */
  lemma {:induction false} OutsiderUnsettles() returns (s: State)
    ensures Reachable(true, s) && s.g.settler.Returned? && s.g.runq != []
  {
    var g, idle := SeenQuiet();
    var q, out := g.(runq := [7]), map[0 := OutEpoch];
    assert g.runq + [7] == [7] && idle[0 := OutEpoch] == out;
    Extend(true, State(g, idle), Push(0, 7), State(q, out));
    Extend(true, State(q, out), Settle(true), State(q.(settler := ClockSettled(0)), out));
    Extend(true, State(q.(settler := ClockSettled(0)), out), Settle(true), State(q.(settler := CompareEpoch(0)), out));
    s := State(q.(settler := Returned), out);
    Extend(true, State(q.(settler := CompareEpoch(0)), out), Settle(true), s);
  }

  // ---------------------------------------------------------------- a run with work in it

  /** A worker, thread 0, and a thread 1 of the program. */
  function Two(g: Shared, worker: Pc, other: Pc): State { State(g, map[0 := worker, 1 := other]) }

  lemma {:induction false} Works(g: Shared, pc: Pc, h: Shared, next: Pc)
    requires Reachable(false, Two(g, pc, Idle)) && !pc.Idle? && !pc.Hold? && (pc.Block? ==> g.value > 0)
    requires NextShared(g, pc) == h && NextPc(g, pc) == next
    ensures Reachable(false, Two(h, next, Idle))
  {
    assert map[0 := pc, 1 := Idle][0 := next] == map[0 := next, 1 := Idle];
    Extend(false, Two(g, pc, Idle), Step(0), Two(h, next, Idle));
  }

  lemma {:induction false} Settles(g: Shared, pc: Pc, next: Settler)
    requires Reachable(false, Two(g, pc, Idle)) && SettleStep(g, true) == next
    requires !pc.OutEpoch? && !pc.OutSignal?
    ensures Reachable(false, Two(g.(settler := next), pc, Idle))
  {
    Extend(false, Two(g, pc, Idle), Settle(true), Two(g.(settler := next), pc, Idle));
  }

  const START: Shared := Shared([], 0, 0, 0, 1, Open, Off)

  /** A worker has started. */
  lemma {:induction false} WorkerStarts()
    ensures Reachable(false, Two(START, Sub, Idle))
  {
    var g := START.(running := 0);
    assert Initial({0, 1}).threads == map[0 := Idle, 1 := Idle];
    assert Exec(false, {0, 1}, []) == At(Two(g, Idle, Idle));
    assert map[0 := Idle, 1 := Idle][0 := Start] == map[0 := Start, 1 := Idle];
    Extend(false, Two(g, Idle, Idle), Begin(0, Start), Two(g, Start, Idle));
    Works(g, Start, START, Sub);
  }

  lemma {:induction false} Others(g: Shared, pc: Pc, h: Shared, next: Pc)
    requires Reachable(false, Two(g, Sub, pc)) && (pc.OutEpoch? || pc.OutSignal?)
    requires NextShared(g, pc) == h && NextPc(g, pc) == next
    ensures Reachable(false, Two(h, Sub, next))
  {
    assert map[0 := Sub, 1 := pc][1 := next] == map[0 := Sub, 1 := next];
    Extend(false, Two(g, Sub, pc), Step(1), Two(h, Sub, next));
  }

  /** The program pushes process 7. */
  lemma {:induction false} Pushes()
    requires Reachable(false, Two(START, Sub, Idle))
    ensures Reachable(false, Two(START.(runq := [7], epoch := 1, value := 1), Sub, Idle))
  {
    var h, k := START.(runq := [7]), START.(runq := [7], epoch := 1);
    PushBegins(START);
    Others(h, OutEpoch, k, OutSignal);
    Others(k, OutSignal, k.(value := 1), Idle);
  }

  lemma {:induction false} PushBegins(g: Shared)
    requires Reachable(false, Two(g, Sub, Idle)) && g.settler.Off? && g.runq == []
    ensures Reachable(false, Two(g.(runq := [7]), Sub, OutEpoch))
  {
    assert g.runq + [7] == [7];
    assert map[0 := Sub, 1 := Idle][1 := OutEpoch] == map[0 := Sub, 1 := OutEpoch];
    Extend(false, Two(g, Sub, Idle), Push(1, 7), Two(g.(runq := [7]), Sub, OutEpoch));
  }

  /** The program calls settle while the process is still queued. */
  lemma {:induction false} CallsWhileQueued() returns (s: State)
    ensures Reachable(false, s) && s == Two(Shared([7], 1, 1, 0, 1, Open, LoadEpoch), Sub, Idle)
  {
    WorkerStarts();
    Pushes();
    var g := START.(runq := [7], epoch := 1, value := 1);
    Settles(g, Sub, LoadEpoch);
    s := Two(g.(settler := LoadEpoch), Sub, Idle);
  }

  /** The worker passes the semaphore. */
  lemma {:induction false} WorkerWakes(g: Shared)
    requires Reachable(false, Two(g, Sub, Idle)) && g.running == 1 && g.value == 1 && g.waiters == 0 && g.closer.Open?
    ensures Reachable(false, Two(g.(value := 0), Dequeue, Idle))
  {
    WorkerBlocks(g);
    WorkerReturns(g.(running := 0, waiters := 1));
  }

  lemma {:induction false} WorkerBlocks(g: Shared)
    requires Reachable(false, Two(g, Sub, Idle)) && g.running == 1 && g.waiters == 0 && g.closer.Open?
    ensures Reachable(false, Two(g.(running := 0, waiters := 1), Block, Idle))
  {
    var h, w := g.(running := 0), g.(running := 0, waiters := 1);
    Works(g, Sub, h, Enter);
    Works(h, Enter, w, Check);
    Works(w, Check, w, Block);
  }

  lemma {:induction false} WorkerReturns(w: Shared)
    requires Reachable(false, Two(w, Block, Idle)) && w.value == 1 && w.waiters == 1 && w.running == 0
    ensures Reachable(false, Two(w.(value := 0, waiters := 0, running := 1), Dequeue, Idle))
  {
    var h, k := w.(value := 0), w.(value := 0, waiters := 0);
    Works(w, Block, h, Exit);
    Works(h, Exit, k, Recount);
    Works(k, Recount, k.(running := 1), Dequeue);
  }

  /** The worker takes the process, runs it, and goes back to wait. */
  lemma {:induction false} WorkerRuns() returns (s: State)
    ensures Reachable(false, s) && s == Two(Shared([], 1, 0, 0, 0, Open, LoadEpoch), Enter, Idle)
  {
    var m := CallsWhileQueued();
    WorkerWakes(m.g);
    var g, h := m.g.(value := 0), m.g.(runq := [], value := 0);
    Works(g, Dequeue, h, Hold(false));
    assert map[0 := Hold(false), 1 := Idle][0 := Sub] == map[0 := Sub, 1 := Idle];
    Extend(false, Two(h, Hold(false), Idle), Finish(0), Two(h, Sub, Idle));
    Works(h, Sub, h.(running := 0), Enter);
    s := Two(h.(running := 0), Enter, Idle);
  }

  /** settle is called with a process in the queue, without outsiders, and returns after it has run. */
  lemma {:induction false} SettleOutwaitsWork() returns (m: State, s: State)
    ensures Reachable(false, m) && m.g.settler.LoadEpoch? && m.g.runq == [7]
    ensures Reachable(false, s) && s.g.settler.Returned? && s.g.runq == [] && s.g.epoch == m.g.epoch
  {
    m := CallsWhileQueued();
    var w := WorkerRuns();
    var g := w.g;
    Settles(g, Enter, FirstRunning(1));
    Settles(g.(settler := FirstRunning(1)), Enter, LoadEmpty(1));
    Settles(g.(settler := LoadEmpty(1)), Enter, SecondRunning(1));
    Settles(g.(settler := SecondRunning(1)), Enter, ClockSettled(1));
    Settles(g.(settler := ClockSettled(1)), Enter, CompareEpoch(1));
    Settles(g.(settler := CompareEpoch(1)), Enter, Returned);
    s := Two(g.(settler := Returned), Enter, Idle);
  }
}
