/**
  DecomissionableLastInFirstOutFixedSizeSemaphore: signal() and wait() by any number of
  threads, one step per atomic load, exchange, increment or kernel semaphore operation.
 */
module LifoSemaphore {
  import opened Counting

  datatype Slot = Empty | Of(t: int)

  datatype Pc =
    | Idle
    // signal()
    | Increment
    | LoadWaiters | LoadCount
    | ForWaiters(i: nat) | ForCount(i: nat) | LoadSlot(i: nat) | ClearSlot(i: nat, target: int)
    | Decrement(target: int) | Post(target: int)
    // wait(); `woken` remembers that the thread comes from a park
    | Load(woken: bool) | Take(seen: nat, woken: bool)
    | Enlist | CheckOpen | Quit
    | Scan(i: nat) | LastLoad(i: nat) | Back(seen: nat) | FillSlot(i: nat)
    | Park

  /** `permits` is the value of the thread-local kernel semaphore. */
  datatype Thread = Thread(pc: Pc, permits: nat)

  datatype Shared = Shared(count: nat, waiters: int, slots: seq<Slot>, open: bool)

  datatype State = State(g: Shared, threads: map<int, Thread>)

  datatype Action = BeginSignal(t: int) | BeginWait(t: int) | Step(t: int) | Decommission

  predicate Enabled(s: State, x: Action) {
    match x
    case BeginSignal(t) => t in s.threads && s.threads[t].pc.Idle?
    case BeginWait(t) => t in s.threads && s.threads[t].pc.Idle?
    case Step(t) => t in s.threads && CanStep(s, t)
    case Decommission => true
  }

  predicate CanStep(s: State, t: int)
    requires t in s.threads
  {
    var pc := s.threads[t].pc;
    && !pc.Idle?
    && (pc.Park? ==> s.threads[t].permits > 0)
    && (pc.Post? ==> pc.target in s.threads)
  }

  function Here(g: Shared, i: nat): Slot { if i < |g.slots| then g.slots[i] else Empty }

  function NextPc(g: Shared, pc: Pc): Pc {
    match pc
    case Increment => LoadWaiters
    case LoadWaiters => if g.waiters > 0 then LoadCount else Idle
    case LoadCount => if g.count > 0 then ForWaiters(0) else Idle
    case ForWaiters(i) => if i >= |g.slots| then LoadWaiters else if g.waiters == 0 then Idle else ForCount(i)
    case ForCount(i) => if g.count == 0 then Idle else LoadSlot(i)
    case LoadSlot(i) => if Here(g, i).Of? then ClearSlot(i, g.slots[i].t) else ForWaiters(i + 1)
    case ClearSlot(i, u) => if Here(g, i) == Of(u) then Decrement(u) else ForWaiters(i + 1)
    case Decrement(u) => Post(u)
    case Post(_) => Idle
    case Load(woken) => if g.count > 0 then Take(g.count, woken) else Enlist
    case Take(seen, woken) =>
      if g.count == seen && seen > 0 then Idle else if g.count > 0 then Take(g.count, woken) else Enlist
    case Enlist => CheckOpen
    case CheckOpen => if g.open then Scan(0) else Quit
    case Quit => Idle
    case Scan(i) => if i >= |g.slots| then Scan(0) else if g.slots[i].Empty? then LastLoad(i) else Scan(i + 1)
    case LastLoad(i) => if g.count > 0 then Back(g.count) else FillSlot(i)
    case Back(seen) => Take(seen, false)
    case FillSlot(i) => if i < |g.slots| && g.slots[i].Empty? then Park else Scan(i + 1)
    case Park => Load(true)
    case Idle => Idle
  }

  function NextShared(g: Shared, t: int, pc: Pc): Shared {
    match pc
    case Increment => g.(count := g.count + 1)
    case ClearSlot(i, u) => if Here(g, i) == Of(u) then g.(slots := g.slots[i := Empty]) else g
    case Decrement(_) => g.(waiters := g.waiters - 1)
    case Take(seen, _) => if g.count == seen && seen > 0 then g.(count := g.count - 1) else g
    case Enlist => g.(waiters := g.waiters + 1)
    case Quit => g.(waiters := g.waiters - 1)
    case Back(_) => g.(waiters := g.waiters - 1)
    case FillSlot(i) => if i < |g.slots| && g.slots[i].Empty? then g.(slots := g.slots[i := Of(t)]) else g
    case _ => g
  }

  /** The thread's own record after its step: a park consumes the permit it waited for. */
  function Moved(g: Shared, th: Thread): Thread
    requires th.pc.Park? ==> th.permits > 0
  {
    Thread(NextPc(g, th.pc), if th.pc.Park? then th.permits - 1 else th.permits)
  }

  function Posted(threads: map<int, Thread>, pc: Pc): map<int, Thread>
    requires pc.Post? ==> pc.target in threads
  {
    if pc.Post? then threads[pc.target := threads[pc.target].(permits := threads[pc.target].permits + 1)] else threads
  }

  function Do(s: State, x: Action): State
    requires Enabled(s, x)
  {
    match x
    case BeginSignal(t) => State(s.g, s.threads[t := s.threads[t].(pc := Increment)])
    case BeginWait(t) => State(s.g, s.threads[t := s.threads[t].(pc := Load(false))])
    case Step(t) =>
      var th := s.threads[t];
      State(NextShared(s.g, t, th.pc), Posted(s.threads[t := Moved(s.g, th)], th.pc))
    case Decommission => State(s.g.(open := false), s.threads)
  }

  // ---------------------------------------------------------------- invariant

  predicate IsTargeting(th: Thread) { th.pc.Decrement? || th.pc.Post? }

  /** In wait(), counted in `waiters`, and not in the array. */
  predicate IsEnlisted(th: Thread) {
    th.pc.CheckOpen? || th.pc.Quit? || th.pc.Scan? || th.pc.LastLoad? || th.pc.Back? || th.pc.FillSlot?
  }

  predicate IsDecrementing(th: Thread) { th.pc.Decrement? }

  /** Posted, or awake again, and yet to find out whether there is a unit for it. */
  predicate IsWoken(th: Thread) {
    (th.pc.Park? && th.permits > 0) || (th.pc.Load? && th.pc.woken) || (th.pc.Take? && th.pc.woken)
  }

  /** A signaller that has added its unit and not yet returned. */
  predicate IsSignalling(th: Thread) {
    || th.pc.LoadWaiters? || th.pc.LoadCount? || th.pc.ForWaiters? || th.pc.ForCount?
    || th.pc.LoadSlot? || th.pc.ClearSlot? || th.pc.Decrement? || th.pc.Post?
  }

  function Filled(slots: seq<Slot>): nat {
    if slots == [] then 0 else Filled(slots[..|slots| - 1]) + One(slots[|slots| - 1].Of?)
  }

  predicate Asleep(threads: map<int, Thread>, t: int) {
    t in threads && threads[t].pc.Park? && threads[t].permits == 0
  }

  /** Who is parked where: a parked, unposted thread is in one slot or the target of one signaller. */
  ghost predicate InvSlots(s: State) {
    && (forall i :: 0 <= i < |s.g.slots| && s.g.slots[i].Of? ==> Asleep(s.threads, s.g.slots[i].t))
    && (forall i, j :: 0 <= i < j < |s.g.slots| && s.g.slots[i].Of? ==> s.g.slots[i] != s.g.slots[j])
    && (forall t :: t in s.threads ==> s.threads[t].permits <= One(s.threads[t].pc.Park?))
  }

  /** A thread taken out of the array stays asleep until its signaller posts. */
  ghost predicate InvTargets(s: State) {
    forall t :: t in s.threads && IsTargeting(s.threads[t]) ==>
      Asleep(s.threads, s.threads[t].pc.target) && Of(s.threads[t].pc.target) !in s.g.slots
  }

  ghost predicate InvDistinct(s: State) {
    forall t, u ::
      t in s.threads && u in s.threads && t != u && IsTargeting(s.threads[t]) && IsTargeting(s.threads[u]) ==>
        s.threads[t].pc.target != s.threads[u].pc.target
  }

  ghost predicate InvWaiters(s: State) {
    s.g.waiters == Count(s.threads, IsEnlisted) + Filled(s.g.slots) + Count(s.threads, IsDecrementing)
  }

  /** Has passed its last look at `count`: about to fill a slot, or parked in one. */
  predicate IsSleeper(s: State, t: int)
    requires t in s.threads
  {
    s.threads[t].pc.FillSlot? || (s.threads[t].pc.Park? && Of(t) in s.g.slots)
  }

  ghost predicate InvUnits(s: State) {
    (exists t :: t in s.threads && IsSleeper(s, t)) ==>
      s.g.count <= Count(s.threads, IsWoken) + Count(s.threads, IsSignalling)
  }

  lemma {:induction false} SlotsKept(s: State, x: Action)
    requires InvSlots(s) && InvTargets(s) && Enabled(s, x)
    ensures InvSlots(Do(s, x))
  {
    if x.Step? {
      match s.threads[x.t].pc {
        case ClearSlot(_, _) =>
        case Post(_) =>
        case FillSlot(_) =>
        case Park =>
        case _ =>
      }
    }
  }

  lemma {:induction false} DistinctKept(s: State, x: Action)
    requires InvSlots(s) && InvTargets(s) && InvDistinct(s) && Enabled(s, x)
    ensures InvDistinct(Do(s, x))
  {
    if x.Step? {
      match s.threads[x.t].pc {
        case ClearSlot(_, _) =>
        case Post(_) =>
        case FillSlot(_) =>
        case Park =>
        case _ =>
      }
    }
  }

  lemma {:induction false} TargetsKept(s: State, x: Action)
    requires InvSlots(s) && InvTargets(s) && InvDistinct(s) && Enabled(s, x)
    ensures InvTargets(Do(s, x))
  {
    if x.Step? {
      match s.threads[x.t].pc {
        case ClearSlot(_, _) =>
        case Post(_) =>
        case FillSlot(_) =>
        case Park =>
        case _ =>
      }
    }
  }

  lemma {:induction false} FilledPut(slots: seq<Slot>, i: nat, v: Slot)
    requires i < |slots|
    ensures Filled(slots[i := v]) == Filled(slots) - One(slots[i].Of?) + One(v.Of?)
  {
    var n := |slots| - 1;
    if i < n {
      FilledPut(slots[..n], i, v);
      assert slots[i := v][..n] == slots[..n][i := v];
    } else {
      assert slots[i := v][..n] == slots[..n];
    }
  }

  lemma {:induction false} FilledPositive(slots: seq<Slot>, i: nat)
    requires i < |slots| && slots[i].Of?
    ensures Filled(slots) > 0
  {
    if i < |slots| - 1 {
      FilledPositive(slots[..|slots| - 1], i);
    }
  }

  /** How a step changes the number of threads of some kind. */
  lemma {:induction false} CountStep(s: State, t: int, f: Thread -> bool)
    requires t in s.threads && CanStep(s, t)
    requires s.threads[t].pc.Post? ==> s.threads[t].pc.target != t
    ensures
      var th, after := s.threads[t], Do(s, Step(t)).threads;
      Count(after, f) == Count(s.threads, f) - One(f(th)) + One(f(Moved(s.g, th)))
        + if th.pc.Post? then One(f(after[th.pc.target])) - One(f(s.threads[th.pc.target])) else 0
  {
    var th := s.threads[t];
    CountPut(s.threads, t, Moved(s.g, th), f);
    if th.pc.Post? {
      var m := s.threads[t := Moved(s.g, th)];
      CountPut(m, th.pc.target, m[th.pc.target].(permits := m[th.pc.target].permits + 1), f);
    }
  }

  ghost predicate InvParked(s: State) { InvSlots(s) && InvTargets(s) && InvDistinct(s) }

  lemma {:induction false} NotOwnTarget(s: State, t: int)
    requires InvParked(s) && t in s.threads && CanStep(s, t)
    ensures s.threads[t].pc.Post? ==> s.threads[t].pc.target != t
  {
  }

  lemma {:induction false} FilledStep(g: Shared, t: int, pc: Pc)
    ensures Filled(NextShared(g, t, pc).slots) - Filled(g.slots) ==
      if pc.ClearSlot? && Here(g, pc.i) == Of(pc.target) then -1
      else if pc.FillSlot? && pc.i < |g.slots| && g.slots[pc.i].Empty? then 1 else 0
  {
    match pc {
      case ClearSlot(i, u) =>
        if Here(g, i) == Of(u) { FilledPut(g.slots, i, Empty); }
      case FillSlot(i) =>
        if i < |g.slots| && g.slots[i].Empty? { FilledPut(g.slots, i, Of(t)); }
      case _ =>
    }
  }

  /** What a step does to `waiters` is what it does to the thread and the array. */
  lemma {:induction false} WaitersDelta(g: Shared, t: int, th: Thread, filled: int)
    requires th.pc.Park? ==> th.permits > 0
    requires filled ==
      if th.pc.ClearSlot? && Here(g, th.pc.i) == Of(th.pc.target) then -1
      else if th.pc.FillSlot? && th.pc.i < |g.slots| && g.slots[th.pc.i].Empty? then 1 else 0
    ensures
      var g', th' := NextShared(g, t, th.pc), Moved(g, th);
      g'.waiters - g.waiters == One(IsEnlisted(th')) - One(IsEnlisted(th)) + filled
        + One(IsDecrementing(th')) - One(IsDecrementing(th))
  {
    match th.pc {
      case ClearSlot(i, u) =>
      case FillSlot(i) =>
      case Scan(i) =>
      case LastLoad(i) =>
      case Take(_, _) =>
      case CheckOpen =>
      case Load(_) =>
      case _ =>
    }
  }

  lemma {:induction false} WaitersStep(s: State, t: int)
    requires InvWaiters(s) && t in s.threads && CanStep(s, t)
    requires s.threads[t].pc.Post? ==> s.threads[t].pc.target != t
    ensures InvWaiters(Do(s, Step(t)))
  {
    var g := s.g;
    FilledStep(g, t, s.threads[t].pc);
    WaitersDelta(g, t, s.threads[t], Filled(NextShared(g, t, s.threads[t].pc).slots) - Filled(g.slots));
    CountStep(s, t, IsEnlisted);
    CountStep(s, t, IsDecrementing);
  }

  lemma {:induction false} WaitersKept(s: State, x: Action)
    requires InvParked(s) && InvWaiters(s) && Enabled(s, x)
    ensures InvWaiters(Do(s, x))
  {
    if x.Step? {
      NotOwnTarget(s, x.t);
      WaitersStep(s, x.t);
    } else if !x.Decommission? {
      CountPut(s.threads, x.t, Do(s, x).threads[x.t], IsEnlisted);
      CountPut(s.threads, x.t, Do(s, x).threads[x.t], IsDecrementing);
    }
  }

  lemma {:induction false} NoSleeper(s: State, t: int)
    requires InvWaiters(s) && s.g.waiters <= 0 && t in s.threads
    ensures !IsSleeper(s, t)
  {
    if s.threads[t].pc.FillSlot? {
      CountPositive(s.threads, t, IsEnlisted);
    } else if Of(t) in s.g.slots {
      var i :| 0 <= i < |s.g.slots| && s.g.slots[i] == Of(t);
      FilledPositive(s.g.slots, i);
    }
  }

  /** A sleeper was one before, or saw `count` at zero just now. */
  lemma {:induction false} SleeperBefore(s: State, t: int, u: int)
    requires InvParked(s) && t in s.threads && CanStep(s, t) && u in s.threads
    requires IsSleeper(Do(s, Step(t)), u)
    ensures IsSleeper(s, u) || (s.g.count == 0 && Do(s, Step(t)).g.count == 0)
  {
  }

  lemma {:induction false} UnitsStep(s: State, t: int)
    requires InvParked(s) && InvWaiters(s) && InvUnits(s) && t in s.threads && CanStep(s, t)
    ensures InvUnits(Do(s, Step(t)))
  {
    var s' := Do(s, Step(t));
    if u :| u in s'.threads && IsSleeper(s', u) {
      SleeperBefore(s, t, u);
      if IsSleeper(s, u) {
        NotOwnTarget(s, t);
        CountStep(s, t, IsWoken);
        CountStep(s, t, IsSignalling);
        if s.g.waiters <= 0 {
          NoSleeper(s, u);
        }
      }
    }
  }

  lemma {:induction false} UnitsKept(s: State, x: Action)
    requires InvParked(s) && InvWaiters(s) && InvUnits(s) && Enabled(s, x)
    ensures InvUnits(Do(s, x))
  {
    if x.Step? {
      UnitsStep(s, x.t);
    } else {
      var s' := Do(s, x);
      if u :| u in s'.threads && IsSleeper(s', u) {
        assert IsSleeper(s, u);
        if !x.Decommission? {
          CountPut(s.threads, x.t, s'.threads[x.t], IsWoken);
          CountPut(s.threads, x.t, s'.threads[x.t], IsSignalling);
        }
      }
    }
  }

  // ---------------------------------------------------------------- runs

  /** The source has 128 slots; nothing here depends on how many. */
  function Initial(pool: set<int>, size: nat): State {
    State(Shared(0, 0, seq(size, _ => Empty), true), map t | t in pool :: Thread(Idle, 0))
  }

  datatype Outcome = Stuck | At(s: State)

  function Exec(pool: set<int>, size: nat, run: seq<Action>): Outcome {
    if run == [] then At(Initial(pool, size))
    else
      var before := Exec(pool, size, run[..|run| - 1]);
      if before.At? && Enabled(before.s, run[|run| - 1]) then At(Do(before.s, run[|run| - 1])) else Stuck
  }

  ghost predicate Reachable(s: State) {
    exists pool, size, run :: Exec(pool, size, run) == At(s)
  }

  ghost predicate Inv(s: State) { InvParked(s) && InvWaiters(s) && InvUnits(s) }

  lemma {:induction false} FilledNone(slots: seq<Slot>)
    requires forall i :: 0 <= i < |slots| ==> slots[i].Empty?
    ensures Filled(slots) == 0
  {
    if slots != [] {
      FilledNone(slots[..|slots| - 1]);
    }
  }

  lemma {:induction false} RunKeepsInv(pool: set<int>, size: nat, run: seq<Action>)
    requires Exec(pool, size, run).At?
    ensures Inv(Exec(pool, size, run).s)
  {
    if run == [] {
      var s := Initial(pool, size);
      FilledNone(s.g.slots);
      CountNone(s.threads, IsEnlisted);
      CountNone(s.threads, IsDecrementing);
    } else {
      RunKeepsInv(pool, size, run[..|run| - 1]);
      var s, x := Exec(pool, size, run[..|run| - 1]).s, run[|run| - 1];
      SlotsKept(s, x);
      TargetsKept(s, x);
      DistinctKept(s, x);
      WaitersKept(s, x);
      UnitsKept(s, x);
    }
  }

  ghost predicate AtRest(s: State) {
    && (forall t :: t in s.threads ==> !IsWoken(s.threads[t]))
    && (forall t :: t in s.threads ==> !IsSignalling(s.threads[t]))
  }

  /** No lost signal: while a thread sleeps, every unit has a woken thread or a signaller coming for it;
      so with nobody woken and nobody signalling, a sleeper means there are no units. `waiters` never
      underflows, and a kernel semaphore never holds more than one permit. */
  lemma {:induction false} NoLostSignal(s: State)
    requires Reachable(s)
    ensures forall t :: t in s.threads && IsSleeper(s, t) ==>
      s.g.count <= |Those(s.threads, IsWoken)| + |Those(s.threads, IsSignalling)|
    ensures forall t :: t in s.threads && IsSleeper(s, t) && AtRest(s) ==> s.g.count == 0
    ensures s.g.waiters >= 0
    ensures forall t :: t in s.threads ==> s.threads[t].permits <= 1
  {
    var pool, size, run :| Exec(pool, size, run) == At(s);
    RunKeepsInv(pool, size, run);
    if AtRest(s) {
      assert forall t :: t in s.threads ==> !IsWoken(s.threads[t]);
      CountNone(s.threads, IsWoken);
      assert forall t :: t in s.threads ==> !IsSignalling(s.threads[t]);
      CountNone(s.threads, IsSignalling);
    }
  }

  // ---------------------------------------------------------------- units are conserved

  /** A signaller adds its unit in this step. */
  predicate GivesNow(s: State, x: Action) { x.Step? && x.t in s.threads && s.threads[x.t].pc.Increment? }

  /** A wait returns in this step through the exchange. */
  predicate PassesNow(s: State, x: Action)
    requires Enabled(s, x)
  {
    x.Step? && s.threads[x.t].pc.Take? && Do(s, x).threads[x.t].pc.Idle?
  }

  lemma {:induction false} UnitsMove(s: State, x: Action)
    requires Enabled(s, x)
    ensures Do(s, x).g.count == s.g.count + One(GivesNow(s, x)) - One(PassesNow(s, x))
  {
  }

  /** How many units signal() gave in a run, and how many waits passed. */
  function Given(pool: set<int>, size: nat, run: seq<Action>): nat {
    if run == [] then 0
    else
      var before := Exec(pool, size, run[..|run| - 1]);
      Given(pool, size, run[..|run| - 1]) + One(before.At? && GivesNow(before.s, run[|run| - 1]))
  }

  function Passed(pool: set<int>, size: nat, run: seq<Action>): nat {
    if run == [] then 0
    else
      var before, x := Exec(pool, size, run[..|run| - 1]), run[|run| - 1];
      Passed(pool, size, run[..|run| - 1]) + One(before.At? && Enabled(before.s, x) && PassesNow(before.s, x))
  }

  /** In every run each unit given is still there or let exactly one wait pass. */
  lemma {:induction false} UnitsConserved(pool: set<int>, size: nat, run: seq<Action>)
    requires Exec(pool, size, run).At?
    ensures Given(pool, size, run) == Exec(pool, size, run).s.g.count + Passed(pool, size, run)
  {
    if run != [] {
      UnitsConserved(pool, size, run[..|run| - 1]);
      UnitsMove(Exec(pool, size, run[..|run| - 1]).s, run[|run| - 1]);
    }
  }

  /** In wait(). */
  predicate IsWaitPc(pc: Pc) {
    || pc.Load? || pc.Take? || pc.Enlist? || pc.CheckOpen? || pc.Quit? || pc.Scan? || pc.LastLoad? || pc.Back?
    || pc.FillSlot? || pc.Park?
  }

  predicate QuitsClosed(s: State) { forall t :: t in s.threads && s.threads[t].pc.Quit? ==> !s.g.open }

  lemma {:induction false} QuitsKept(s: State, x: Action)
    requires QuitsClosed(s) && Enabled(s, x)
    ensures QuitsClosed(Do(s, x))
  {
  }

  lemma {:induction false} QuitsAlways(pool: set<int>, size: nat, run: seq<Action>)
    requires Exec(pool, size, run).At?
    ensures QuitsClosed(Exec(pool, size, run).s)
  {
    if run != [] {
      QuitsAlways(pool, size, run[..|run| - 1]);
      QuitsKept(Exec(pool, size, run[..|run| - 1]).s, run[|run| - 1]);
    }
  }

  /** A wait returns only by taking a unit, or because the semaphore was decomissioned; and once it is, a wait that has
      not looked yet does not go to sleep. */
  lemma {:induction false} WaitReturns(s: State, x: Action)
    requires Reachable(s) && Enabled(s, x) && x.Step? && IsWaitPc(s.threads[x.t].pc)
    ensures Do(s, x).threads[x.t].pc.Idle? ==> PassesNow(s, x) || !s.g.open
    ensures s.threads[x.t].pc.CheckOpen? && !s.g.open ==> Do(s, x).threads[x.t].pc.Quit?
  {
    var pool, size, run :| Exec(pool, size, run) == At(s);
    QuitsAlways(pool, size, run);
  }

  // ---------------------------------------------------------------- every call is accounted for

  predicate IsGiving(th: Thread) { th.pc.Increment? }
  predicate IsInWait(th: Thread) { IsWaitPc(th.pc) }

  predicate IsSignal(x: Action) { x.BeginSignal? }
  predicate IsWait(x: Action) { x.BeginWait? }

  function Calls(run: seq<Action>, p: Action -> bool): nat {
    if run == [] then 0 else Calls(run[..|run| - 1], p) + One(p(run[|run| - 1]))
  }

  /** A wait leaves in this step without a unit. */
  predicate LeavesNow(s: State, x: Action) { x.Step? && x.t in s.threads && s.threads[x.t].pc.Quit? }

  function Left(pool: set<int>, size: nat, run: seq<Action>): nat {
    if run == [] then 0
    else
      var before := Exec(pool, size, run[..|run| - 1]);
      Left(pool, size, run[..|run| - 1]) + One(before.At? && LeavesNow(before.s, run[|run| - 1]))
  }

  lemma {:induction false} GivingStep(s: State, x: Action)
    requires InvParked(s) && Enabled(s, x)
    ensures Count(Do(s, x).threads, IsGiving) == Count(s.threads, IsGiving) + One(IsSignal(x)) - One(GivesNow(s, x))
  {
    if x.Step? {
      NotOwnTarget(s, x.t);
      CountStep(s, x.t, IsGiving);
    } else if !x.Decommission? {
      CountPut(s.threads, x.t, Do(s, x).threads[x.t], IsGiving);
    }
  }

  lemma {:induction false} WaitingStep(s: State, x: Action)
    requires InvParked(s) && Enabled(s, x)
    ensures Count(Do(s, x).threads, IsInWait) ==
            Count(s.threads, IsInWait) + One(IsWait(x)) - One(PassesNow(s, x)) - One(LeavesNow(s, x))
  {
    if x.Step? {
      NotOwnTarget(s, x.t);
      CountStep(s, x.t, IsInWait);
    } else if !x.Decommission? {
      CountPut(s.threads, x.t, Do(s, x).threads[x.t], IsInWait);
    }
  }

  /** In every run each call of signal() has given its one unit or is just about to, and each call of wait() has passed
      with a unit, has left a decomissioned semaphore, or is still waiting. */
  lemma {:induction false} CallsAccounted(pool: set<int>, size: nat, run: seq<Action>)
    requires Exec(pool, size, run).At?
    ensures var threads := Exec(pool, size, run).s.threads;
      && Calls(run, IsSignal) == Given(pool, size, run) + |Those(threads, IsGiving)|
      && Calls(run, IsWait) == Passed(pool, size, run) + Left(pool, size, run) + |Those(threads, IsInWait)|
  {
    if run == [] {
      CountNone(Initial(pool, size).threads, IsGiving);
      CountNone(Initial(pool, size).threads, IsInWait);
    } else {
      var before, x := run[..|run| - 1], run[|run| - 1];
      var s := Exec(pool, size, before).s;
      CallsAccounted(pool, size, before);
      RunKeepsInv(pool, size, before);
      GivingStep(s, x);
      WaitingStep(s, x);
    }
  }

  // ---------------------------------------------------------------- scanning

  /** Both scans go through the array slot by slot: a signaller that finds a slot empty or loses it tries the next, a
      waiter that finds one taken or loses it tries the next, and both begin again at the end. */
  lemma {:induction false} ScansGoOn(s: State, t: int)
    requires t in s.threads && CanStep(s, t)
    ensures var pc, next := s.threads[t].pc, NextPc(s.g, s.threads[t].pc);
      var n := |s.g.slots|;
      && (pc.ForWaiters? && pc.i >= n ==> next == LoadWaiters)
      && (pc.ForWaiters? && pc.i < n && s.g.waiters > 0 ==> next == ForCount(pc.i))
      && (pc.ForCount? && s.g.count > 0 ==> next == LoadSlot(pc.i))
      && (pc.LoadSlot? && pc.i < n ==>
            next == if s.g.slots[pc.i].Of? then ClearSlot(pc.i, s.g.slots[pc.i].t) else ForWaiters(pc.i + 1))
      && (pc.ClearSlot? && pc.i < n ==>
            next == if s.g.slots[pc.i] == Of(pc.target) then Decrement(pc.target) else ForWaiters(pc.i + 1))
      && (pc.Scan? && pc.i >= n ==> next == Scan(0))
      && (pc.Scan? && pc.i < n ==> next == if s.g.slots[pc.i].Empty? then LastLoad(pc.i) else Scan(pc.i + 1))
      && (pc.FillSlot? && pc.i < n ==> next == if s.g.slots[pc.i].Empty? then Park else Scan(pc.i + 1))
  {
  }

  /** A post wakes exactly the thread taken out of the array, and a waiter puts itself there. */
  lemma {:induction false} PostWakesTarget(s: State, t: int)
    requires Reachable(s) && t in s.threads && CanStep(s, t)
    ensures var pc, d := s.threads[t].pc, Do(s, Step(t));
      && (pc.Post? ==> pc.target in d.threads && d.threads[pc.target].permits == s.threads[pc.target].permits + 1)
      && (pc.FillSlot? && pc.i < |s.g.slots| && s.g.slots[pc.i].Empty? ==> d.g.slots == s.g.slots[pc.i := Of(t)])
      && (pc.ClearSlot? && pc.i < |s.g.slots| && s.g.slots[pc.i] == Of(pc.target) ==>
            d.g.slots == s.g.slots[pc.i := Empty])
  {
    var pool, size, run :| Exec(pool, size, run) == At(s);
    RunKeepsInv(pool, size, run);
    NotOwnTarget(s, t);
  }
}
