/**
  The life of one process: every thread that touches it, one step per atomic
  operation or locked block.

  An `Activity` is one call in progress: spawn, use, wait, ProcessBase::enqueue or
  resume (with cleanup). A thread that calls back into the runtime from a handler
  is simply two activities, so nothing bounds their number or their nesting.
 */
module Actor {

  /** `terminate` is is<TerminateEvent>(); `id` tells apart two events with the same content. */
  datatype Event = Event(id: int, terminate: bool, inject: bool)

  predicate Injected(e: Event) { e.terminate && e.inject }

  datatype RunState = Bottom | Ready | Blocked | Terminating

  /** Program counters of ProcessBase::enqueue. */
  datatype EnqPc = LoadState | PushEvent | SetTermination | RecheckState | Exchange | PushRunq

  /** Program counters of resume while no event is in hand. */
  datatype ResumePc = Load | Init | TakeRef | Loop | Dequeue | StoreBlocked | Recheck | Retake | Leave | Finish

  /** Program counters of resume with an event in hand; `purged` is the value loaded from `termination`. */
  datatype ServePc = LoadTermination | Purge | Filter(purged: bool)

  datatype CleanPc = StoreTerminating | Decommission | ResetRef | AwaitExpiry | Erase | OpenGate

  datatype Activity =
    | SpawnCheck | SpawnRegister | SpawnPush
    | Use | Hold
    | WaitLoad | WaitExtract | WaitDrop
    | Enq(e: Event, held: bool, at: EnqPc)
    | Resume(pc: ResumePc)
    | Serve(hand: Event, step: ServePc)
    | Clean(stage: CleanPc)

  /** What became of an accepted event. */
  datatype Fate = Served(e: Event) | Filtered(e: Event) | Purged(e: Event) | Drained(e: Event)

  /** Who may run the process: nobody, the run queue, or one activity. */
  datatype Owner = Nobody | InQueue | By(a: int)

  /** The shared fields. `accepted`, `log` and `owner` are auxiliary: steps write them and never read them. */
  datatype Core = Core(
    state: RunState,
    termination: bool,
    mailbox: seq<Event>,
    commissioned: bool,
    registered: bool,   // present in the `processes` map
    selfRef: bool,      // process->reference is not null
    pidRef: bool,       // process->pid.reference is set
    locked: bool,       // cleanup of this process holds processes_mutex
    gateOpen: bool,
    queued: nat,        // occurrences in the run queue
    accepted: seq<Event>,
    log: seq<Fate>,
    owner: Owner)

  datatype Process = Process(c: Core, acts: map<int, Activity>)

  const INITIAL: Process :=
    Process(Core(Bottom, false, [], true, false, true, false, false, false, 0, [], [], Nobody), map[])

  /** What the environment may do: which events an installed filter drops, and whether
      callers keep from registering an object that has already left BOTTOM. */
  datatype Policy = Policy(drops: Event -> bool, guardedSpawn: bool)

  datatype Action =
    | Begin(a: int, x: Activity)      // a call of spawn, use, or deliver(ProcessBase*, ...)
    | Pop(a: int)                     // a worker takes the process off the run queue
    | Acquire(a: int, viaMap: bool)   // use() yields a reference: weak lock, or the `processes` map
    | Continue(a: int, x: Activity)   // the reference is used for wait or for deliver
    | Quit(a: int)                    // use() finds nothing, a reference is dropped, spawn finds its id taken
    | FilterDrop(a: int)
    | Step(a: int)

  /** May this activity run the process or put it in the run queue? */
  predicate HasToken(x: Activity) {
    || x.SpawnPush? || x.WaitDrop? || x.Serve? || x.Clean?
    || (x.Enq? && x.at.PushRunq?)
    || (x.Resume? && !x.pc.Recheck? && !x.pc.Retake? && !x.pc.Leave?)
  }

  /** Does this activity keep a ProcessReference alive? */
  predicate HasRef(x: Activity) {
    || x.Hold? || x.WaitLoad? || x.WaitExtract? || x.WaitDrop? || x.Serve?
    || (x.Enq? && x.held)
    || (x.Resume? && !x.pc.Load? && !x.pc.Init? && !x.pc.TakeRef?)
  }

  ghost predicate Referenced(s: Process) {
    exists b :: b in s.acts && HasRef(s.acts[b])
  }

  /** The next step of `a` would fail a CHECK or use a null reference. */
  predicate Fault(s: Process, a: int)
    requires a in s.acts
  {
    match s.acts[a]
    case Resume(Load) => s.c.state != Bottom && s.c.state != Ready
    case Resume(TakeRef) => !s.c.selfRef
    case Resume(Dequeue) => s.c.mailbox == []
    case Serve(e, Purge) => !e.terminate && s.c.mailbox == []
    case Clean(StoreTerminating) => s.c.state != Ready
    case Clean(AwaitExpiry) => !s.c.pidRef
    case _ => false
  }

  /** Steps that wait: for processes_mutex, or for the weak reference to expire. */
  ghost predicate CanStep(pol: Policy, s: Process, a: int)
    requires a in s.acts
  {
    && !Fault(s, a)
    && match s.acts[a]
       case Use => false
       case Hold => false
       case SpawnRegister => !s.c.locked && (pol.guardedSpawn ==> s.c.state == Bottom)
       case Clean(ResetRef) => !s.c.locked
       case Clean(AwaitExpiry) => !Referenced(s)
       case _ => true
  }

  ghost predicate Enabled(pol: Policy, s: Process, x: Action) {
    match x
    case Begin(a, y) =>
      && a !in s.acts
      && (y.SpawnCheck? || y.Use? || (y.Enq? && !y.held && y.at.LoadState? && !s.c.gateOpen))
    case Pop(a) => a !in s.acts && s.c.queued > 0
    case Acquire(a, viaMap) =>
      && a in s.acts && s.acts[a].Use?
      && if viaMap then !s.c.locked && s.c.registered else s.c.pidRef && (s.c.selfRef || Referenced(s))
    case Continue(a, y) =>
      && a in s.acts && s.acts[a].Hold?
      && (y.WaitLoad? || (y.Enq? && y.held && y.at.LoadState?))
    case Quit(a) =>
      a in s.acts && (s.acts[a].Use? || s.acts[a].Hold? || (s.acts[a].SpawnRegister? && !s.c.locked))
    case FilterDrop(a) => a in s.acts && s.acts[a].Serve? && s.acts[a].step.Filter? && pol.drops(s.acts[a].hand)
    case Step(a) => a in s.acts && CanStep(pol, s, a)
  }

  /** Where an activity goes next. */
  datatype Next = Done | Go(x: Activity)

  function Put(acts: map<int, Activity>, a: int, n: Next): (r: map<int, Activity>)
  {
    if n.Go? then acts[a := n.x] else acts - {a}
  }

  // Each kind of activity has a control part (`...Next`) and a data part (`...Data`).

  /** What a step from `x` does to the run queue: 1 pushes the process, -1 extracts it to donate a thread. */
  function QueueDelta(c: Core, x: Activity): int {
    if x.SpawnPush? || (x.Enq? && x.at.PushRunq?) then 1
    else if x.WaitExtract? && c.queued > 0 then -1
    else 0
  }

  function EnqNext(c: Core, e: Event, held: bool, at: EnqPc): Next {
    match at
    case LoadState => if c.state == Terminating then Done else Go(Enq(e, held, PushEvent))
    case PushEvent =>
      if !c.commissioned then Done else Go(Enq(e, held, if Injected(e) then SetTermination else RecheckState))
    case SetTermination => Go(Enq(e, held, RecheckState))
    case RecheckState => if c.state == Blocked then Go(Enq(e, held, Exchange)) else Done
    case Exchange => if c.state == Blocked then Go(Enq(e, held, PushRunq)) else Done
    case PushRunq => Done
  }

  function EnqData(c: Core, a: int, e: Event, at: EnqPc): (r: Core)
    ensures r.queued == c.queued + if at.PushRunq? then 1 else 0
    ensures r.termination == (c.termination || at.SetTermination?) && r.log == c.log
    ensures r.accepted == if at.PushEvent? && c.commissioned then c.accepted + [e] else c.accepted
  {
    if at.PushEvent? && c.commissioned then c.(mailbox := c.mailbox + [e], accepted := c.accepted + [e])
    else if at.SetTermination? then c.(termination := true)
    else if at.Exchange? && c.state == Blocked then c.(state := Ready, owner := By(a))
    else if at.PushRunq? then c.(queued := c.queued + 1, owner := InQueue)
    else c
  }

  function ResumeNext(c: Core, pc: ResumePc): Next
    requires pc == Dequeue ==> c.mailbox != []
  {
    match pc
    case Load => Go(Resume(if c.state == Bottom then Init else TakeRef))
    case Init => Go(Resume(TakeRef))
    case TakeRef => Go(Resume(Loop))
    case Loop => Go(Resume(if c.mailbox == [] then StoreBlocked else Dequeue))
    case Dequeue => Go(Serve(c.mailbox[0], LoadTermination))
    case StoreBlocked => Go(Resume(Recheck))
    case Recheck => Go(Resume(if c.mailbox == [] then Leave else Retake))
    case Retake => Go(Resume(if c.state == Blocked then Loop else Leave))
    case Leave => Done
    case Finish => Go(Clean(StoreTerminating))
  }

  function ResumeData(c: Core, a: int, pc: ResumePc): (r: Core)
    requires pc == Dequeue ==> c.mailbox != []
    ensures r.queued == c.queued
    ensures r.accepted == c.accepted && r.termination == c.termination && r.log == c.log
  {
    if pc.Init? then c.(state := Ready)
    else if pc.Dequeue? then c.(mailbox := c.mailbox[1..])
    else if pc.StoreBlocked? then c.(state := Blocked, owner := Nobody)
    else if pc.Retake? && c.state == Blocked then c.(state := Ready, owner := By(a))
    else c
  }

  function ServeNext(c: Core, e: Event, step: ServePc): Next
    requires step == Purge && !e.terminate ==> c.mailbox != []
  {
    match step
    case LoadTermination => Go(Serve(e, if c.termination then Purge else Filter(false)))
    case Purge => if e.terminate then Go(Serve(e, Filter(true))) else Go(Serve(c.mailbox[0], Purge))
    case Filter(_) => Go(Resume(if e.terminate then Finish else Loop))
  }

  function ServeData(c: Core, e: Event, step: ServePc): (r: Core)
    requires step == Purge && !e.terminate ==> c.mailbox != []
    ensures r.queued == c.queued
    ensures r.accepted == c.accepted && r.termination == c.termination && c.log <= r.log
  {
    if step.Purge? && !e.terminate then c.(log := c.log + [Purged(e)], mailbox := c.mailbox[1..])
    else if step.Filter? then c.(log := c.log + [Served(e)])
    else c
  }

  function CleanNext(stage: CleanPc): Next {
    match stage
    case StoreTerminating => Go(Clean(Decommission))
    case Decommission => Go(Clean(ResetRef))
    case ResetRef => Go(Clean(AwaitExpiry))
    case AwaitExpiry => Go(Clean(Erase))
    case Erase => Go(Clean(OpenGate))
    case OpenGate => Done
  }

  function CleanData(c: Core, stage: CleanPc): (r: Core)
    ensures r.queued == c.queued
    ensures r.accepted == c.accepted && r.termination == c.termination && c.log <= r.log
  {
    match stage
    case StoreTerminating => c.(state := Terminating)
    case Decommission => c.(commissioned := false, log := c.log + Drain(c.mailbox), mailbox := [])
    case ResetRef => c.(selfRef := false, locked := true)
    case AwaitExpiry => c
    case Erase => c.(registered := false)
    case OpenGate => c.(gateOpen := true, locked := false, owner := Nobody)
  }

  function Drain(es: seq<Event>): seq<Fate> {
    if es == [] then [] else Drain(es[..|es| - 1]) + [Drained(es[|es| - 1])]
  }

  /** The steps of spawn and of wait. */
  function CallNext(c: Core, x: Activity): Next {
    match x
    case SpawnCheck => if c.state == Bottom then Go(SpawnRegister) else Done
    case SpawnRegister => if c.registered then Done else Go(SpawnPush)
    case WaitLoad => if c.state == Bottom || c.state == Ready then Go(WaitExtract) else Done
    case WaitExtract => if c.queued > 0 then Go(WaitDrop) else Done
    case WaitDrop => Go(Resume(Load))
    case _ => Done
  }

  function CallData(c: Core, a: int, x: Activity): (r: Core)
    ensures !x.Enq? ==> r.queued == c.queued + QueueDelta(c, x)
    ensures r.accepted == c.accepted && r.termination == c.termination && r.log == c.log
  {
    if x.SpawnRegister? && !c.registered then c.(registered := true, pidRef := true, owner := By(a))
    else if x.SpawnPush? then c.(queued := c.queued + 1, owner := InQueue)
    else if x.WaitExtract? && c.queued > 0 then c.(queued := c.queued - 1, owner := By(a))
    else c
  }

  function DoStep(s: Process, a: int): (r: Process)
    requires a in s.acts && !Fault(s, a)
    ensures r.c.queued == s.c.queued + QueueDelta(s.c, s.acts[a])
  {
    var x := s.acts[a];
    if x.Enq? then Process(EnqData(s.c, a, x.e, x.at), Put(s.acts, a, EnqNext(s.c, x.e, x.held, x.at)))
    else if x.Resume? then Process(ResumeData(s.c, a, x.pc), Put(s.acts, a, ResumeNext(s.c, x.pc)))
    else if x.Serve? then Process(ServeData(s.c, x.hand, x.step), Put(s.acts, a, ServeNext(s.c, x.hand, x.step)))
    else if x.Clean? then Process(CleanData(s.c, x.stage), Put(s.acts, a, CleanNext(x.stage)))
    else Process(CallData(s.c, a, x), Put(s.acts, a, CallNext(s.c, x)))
  }

  ghost function Do(pol: Policy, s: Process, x: Action): Process
    requires Enabled(pol, s, x)
  {
    match x
    case Begin(a, y) => Process(s.c, Put(s.acts, a, Go(y)))
    case Pop(a) => Process(s.c.(queued := s.c.queued - 1, owner := By(a)), Put(s.acts, a, Go(Resume(Load))))
    case Acquire(a, _) => Process(s.c, Put(s.acts, a, Go(Hold)))
    case Continue(a, y) => Process(s.c, Put(s.acts, a, Go(y)))
    case Quit(a) => Process(s.c, Put(s.acts, a, Done))
    case FilterDrop(a) =>
      Process(s.c.(log := s.c.log + [Filtered(s.acts[a].hand)]),
              Put(s.acts, a, Go(Resume(if s.acts[a].step.purged then Finish else Loop))))
    case Step(a) => DoStep(s, a)
  }

  // ---------------------------------------------------------------- invariant

  /** What the token holder, being at this point, knows about the process. */
  predicate Fits(s: Process, x: Activity) {
    && (x.SpawnPush? || x == Resume(Init) ==> s.c.state == Bottom)
    && (x.WaitDrop? || x == Resume(Load) ==> s.c.state == Bottom || s.c.state == Ready)
    && (x.Enq? || x.Serve? || x == Clean(StoreTerminating) ==> s.c.state == Ready)
    && (x.Resume? && !x.pc.Load? && !x.pc.Init? ==> s.c.state == Ready)
    && (x.Clean? && !x.stage.StoreTerminating? ==> s.c.state == Terminating)
    && (x == Resume(Dequeue) ==> s.c.mailbox != [])
    && (x.Serve? && x.step.Purge? ==> s.c.termination)
    && (x.Serve? && x.step == Filter(true) ==> x.hand.terminate)
  }

  /** The run token is held by exactly whom `owner` names. */
  ghost predicate InvToken(s: Process) {
    && (forall a :: a in s.acts ==> (HasToken(s.acts[a]) <==> s.c.owner == By(a)))
    && (s.c.owner.By? ==> s.c.owner.a in s.acts)
    && s.c.queued == (if s.c.owner == InQueue then 1 else 0)
  }

  /** The scheduling state says whether there is a token, and the holder's position says which state it is. */
  ghost predicate InvState(s: Process) {
    && (s.c.owner.By? ==> s.c.owner.a in s.acts && Fits(s, s.acts[s.c.owner.a]))
    && (s.c.owner == InQueue ==> s.c.state == Bottom || s.c.state == Ready)
    && (s.c.state == Bottom ==> (s.c.registered <==> s.c.owner != Nobody))
    && (s.c.state == Ready ==> s.c.owner != Nobody)
    && (s.c.state == Blocked ==> s.c.owner == Nobody)
    && (s.c.state == Terminating ==> (s.c.owner == Nobody) == s.c.gateOpen)
  }

  /** How far the cleanup of the process has come; -1 when no owner is cleaning up. */
  function CleanStage(s: Process): int {
    if s.c.owner.By? && s.c.owner.a in s.acts && s.acts[s.c.owner.a].Clean? then
      match s.acts[s.c.owner.a].stage
      case StoreTerminating => 0
      case Decommission => 1
      case ResetRef => 2
      case AwaitExpiry => 3
      case Erase => 4
      case OpenGate => 5
    else -1
  }

  /** The references, the `processes` map and the mailbox follow the progress of cleanup. */
  ghost predicate InvRefs(s: Process) {
    && (s.c.state == Ready || s.c.state == Blocked ==> s.c.registered)
    && (s.c.registered || s.c.state != Bottom ==> s.c.pidRef)
    && (s.c.state == Terminating ==> (s.c.registered <==> 1 <= CleanStage(s) <= 4))
    && (s.c.gateOpen ==> s.c.state == Terminating)
    && (s.c.locked <==> CleanStage(s) >= 3)
    && (s.c.selfRef <==> !s.c.locked && !s.c.gateOpen)
    && (s.c.commissioned <==> s.c.state != Terminating || CleanStage(s) == 1)
    && (!s.c.commissioned ==> s.c.mailbox == [])
  }

  /** From the end of cleanup's wait on, nobody holds a reference. */
  ghost predicate InvExpired(s: Process) {
    s.c.gateOpen || CleanStage(s) >= 4 ==> !Referenced(s)
  }

  /** Past its push and not past its state check, or past its BLOCKED store and not past its re-check. */
  predicate IsWaker(x: Activity) {
    || (x.Enq? && (x.at == SetTermination || x.at == RecheckState || x.at == Exchange))
    || x == Resume(Recheck) || x == Resume(Retake)
  }

  ghost predicate HasWaker(acts: map<int, Activity>) {
    exists a :: a in acts && IsWaker(acts[a])
  }

  ghost predicate InvWake(s: Process) {
    s.c.state == Blocked && s.c.mailbox != [] ==> HasWaker(s.acts)
  }

  function Hand(s: Process): seq<Event> {
    if s.c.owner.By? && s.c.owner.a in s.acts && s.acts[s.c.owner.a].Serve? then [s.acts[s.c.owner.a].hand] else []
  }

  /** An injected terminate event was pushed: `termination` is set, or about to be. */
  ghost predicate TerminationRaised(s: Process) {
    s.c.termination || exists a :: a in s.acts && s.acts[a].Enq? && s.acts[a].at == SetTermination
  }

  ghost predicate Armed(s: Process) {
    || (exists i :: 0 <= i < |s.c.mailbox| && Injected(s.c.mailbox[i]))
    || (Hand(s) != [] && Injected(Hand(s)[0]))
    || (s.c.owner.By? && s.c.owner.a in s.acts && (s.acts[s.c.owner.a] == Resume(Finish) || s.acts[s.c.owner.a].Clean?))
    || s.c.state == Terminating
  }

  ghost predicate InvTermination(s: Process) {
    TerminationRaised(s) ==> Armed(s)
  }

  function EventsOf(log: seq<Fate>): seq<Event> {
    if log == [] then [] else EventsOf(log[..|log| - 1]) + [log[|log| - 1].e]
  }

  /** Every accepted event is, in acceptance order, disposed of, in hand, or in the mailbox. */
  predicate InvLog(s: Process) {
    s.c.accepted == EventsOf(s.c.log) + Hand(s) + s.c.mailbox
  }

  ghost predicate Safe(s: Process) { InvToken(s) && InvState(s) && InvRefs(s) && InvExpired(s) }

  /** What holds whatever filters do. */
  ghost predicate Sound(s: Process) { Safe(s) && InvWake(s) && InvLog(s) }

  /** What holds if no filter drops an injected terminate event. */
  ghost predicate Inv(s: Process) { Sound(s) && InvTermination(s) }

  ghost predicate Disciplined(pol: Policy) {
    pol.guardedSpawn && forall e :: Injected(e) ==> !pol.drops(e)
  }

  lemma {:induction false} TokenEnq(s: Process, a: int, e: Event, held: bool, at: EnqPc)
    requires Safe(s) && a in s.acts && s.acts[a] == Enq(e, held, at)
    ensures InvToken(Process(EnqData(s.c, a, e, at), Put(s.acts, a, EnqNext(s.c, e, held, at))))
  {
  }

  lemma {:induction false} TokenResume(s: Process, a: int, pc: ResumePc)
    requires Safe(s) && a in s.acts && s.acts[a] == Resume(pc)
    requires pc == Dequeue ==> s.c.mailbox != []
    ensures InvToken(Process(ResumeData(s.c, a, pc), Put(s.acts, a, ResumeNext(s.c, pc))))
  {
  }

  lemma {:induction false} StateEnq(s: Process, a: int, e: Event, held: bool, at: EnqPc)
    requires Safe(s) && a in s.acts && s.acts[a] == Enq(e, held, at)
    ensures InvState(Process(EnqData(s.c, a, e, at), Put(s.acts, a, EnqNext(s.c, e, held, at))))
  {
  }

  lemma {:induction false} StateResume(s: Process, a: int, pc: ResumePc)
    requires Safe(s) && a in s.acts && s.acts[a] == Resume(pc)
    requires pc == Dequeue ==> s.c.mailbox != []
    ensures InvState(Process(ResumeData(s.c, a, pc), Put(s.acts, a, ResumeNext(s.c, pc))))
  {
  }

  lemma {:induction false} RefsEnq(s: Process, a: int, e: Event, held: bool, at: EnqPc)
    requires Safe(s) && a in s.acts && s.acts[a] == Enq(e, held, at)
    ensures var t := Process(EnqData(s.c, a, e, at), Put(s.acts, a, EnqNext(s.c, e, held, at)));
      InvRefs(t) && InvExpired(t)
  {
  }

  lemma {:induction false} RefsResume(s: Process, a: int, pc: ResumePc)
    requires Safe(s) && a in s.acts && s.acts[a] == Resume(pc)
    requires pc == Dequeue ==> s.c.mailbox != []
    ensures var t := Process(ResumeData(s.c, a, pc), Put(s.acts, a, ResumeNext(s.c, pc))); InvRefs(t) && InvExpired(t)
  {
  }

  lemma {:induction false} SafeServe(s: Process, a: int, e: Event, step: ServePc)
    requires Safe(s) && a in s.acts && s.acts[a] == Serve(e, step)
    requires step == Purge && !e.terminate ==> s.c.mailbox != []
    ensures Safe(Process(ServeData(s.c, e, step), Put(s.acts, a, ServeNext(s.c, e, step))))
  {
  }

  lemma {:induction false} SafeClean(s: Process, a: int, stage: CleanPc)
    requires Safe(s) && a in s.acts && s.acts[a] == Clean(stage)
    requires stage == AwaitExpiry ==> !Referenced(s)
    ensures Safe(Process(CleanData(s.c, stage), Put(s.acts, a, CleanNext(stage))))
  {
  }

  predicate IsCall(x: Activity) {
    x.SpawnCheck? || x.SpawnRegister? || x.SpawnPush? || x.WaitLoad? || x.WaitExtract? || x.WaitDrop?
  }

  lemma {:induction false} SafeCall(s: Process, a: int, x: Activity)
    requires Safe(s) && a in s.acts && s.acts[a] == x && IsCall(x)
    requires x.SpawnRegister? ==> !s.c.locked && s.c.state == Bottom
    ensures Safe(Process(CallData(s.c, a, x), Put(s.acts, a, CallNext(s.c, x))))
  {
  }

  lemma {:induction false} SafeBegin(pol: Policy, s: Process, x: Action)
    requires Safe(s) && Enabled(pol, s, x) && !x.Step?
    ensures Safe(Do(pol, s, x))
  {
  }

  lemma {:induction false} SafeKept(pol: Policy, s: Process, x: Action)
    requires pol.guardedSpawn && Safe(s) && Enabled(pol, s, x)
    ensures Safe(Do(pol, s, x))
  {
    if !x.Step? {
      SafeBegin(pol, s, x);
    } else {
      var y := s.acts[x.a];
      match y {
        case Enq(e, held, at) =>
          TokenEnq(s, x.a, e, held, at);
          StateEnq(s, x.a, e, held, at);
          RefsEnq(s, x.a, e, held, at);
        case Resume(pc) =>
          TokenResume(s, x.a, pc);
          StateResume(s, x.a, pc);
          RefsResume(s, x.a, pc);
        case Serve(e, step) => SafeServe(s, x.a, e, step);
        case Clean(stage) => SafeClean(s, x.a, stage);
        case _ => SafeCall(s, x.a, y);
      }
    }
  }

  /** A waker other than `a` is untouched by a move of `a`. */
  lemma {:induction false} WakerStays(acts: map<int, Activity>, a: int, n: Next)
    requires HasWaker(acts)
    requires a in acts && IsWaker(acts[a]) ==> n.Go? && IsWaker(n.x)
    ensures HasWaker(Put(acts, a, n))
  {
    var w :| w in acts && IsWaker(acts[w]);
    assert w in Put(acts, a, n) && IsWaker(Put(acts, a, n)[w]);
  }

  lemma {:induction false} WakeEnq(s: Process, a: int, e: Event, held: bool, at: EnqPc)
    requires InvWake(s) && a in s.acts && s.acts[a] == Enq(e, held, at)
    ensures InvWake(Process(EnqData(s.c, a, e, at), Put(s.acts, a, EnqNext(s.c, e, held, at))))
  {
    var d, n := EnqData(s.c, a, e, at), EnqNext(s.c, e, held, at);
    if at == PushEvent && s.c.commissioned {
      assert IsWaker(Put(s.acts, a, n)[a]);
    } else if d.state == Blocked && d.mailbox != [] {
      WakerStays(s.acts, a, n);
    }
  }

  lemma {:induction false} WakeResume(s: Process, a: int, pc: ResumePc)
    requires InvWake(s) && a in s.acts && s.acts[a] == Resume(pc)
    requires pc == Dequeue ==> s.c.mailbox != [] && s.c.state == Ready
    ensures InvWake(Process(ResumeData(s.c, a, pc), Put(s.acts, a, ResumeNext(s.c, pc))))
  {
    var d, n := ResumeData(s.c, a, pc), ResumeNext(s.c, pc);
    if pc == StoreBlocked {
      assert IsWaker(Put(s.acts, a, n)[a]);
    } else if d.state == Blocked && d.mailbox != [] {
      WakerStays(s.acts, a, n);
    }
  }

  lemma {:induction false} WakeOther(pol: Policy, s: Process, x: Action)
    requires Safe(s) && InvWake(s) && Enabled(pol, s, x)
    requires x.Step? ==> !s.acts[x.a].Enq? && !s.acts[x.a].Resume?
    ensures InvWake(Do(pol, s, x))
  {
    var t := Do(pol, s, x);
    if t.c.state == Blocked && t.c.mailbox != [] {
      var w :| w in s.acts && IsWaker(s.acts[w]);
      assert w in t.acts && IsWaker(t.acts[w]);
    }
  }

  lemma {:induction false} EventsOfAppend(log: seq<Fate>, f: Fate)
    ensures EventsOf(log + [f]) == EventsOf(log) + [f.e]
  {
    assert (log + [f])[..|log|] == log;
  }

  lemma {:induction false} EventsOfDrain(log: seq<Fate>, es: seq<Event>)
    ensures EventsOf(log + Drain(es)) == EventsOf(log) + es
  {
    if es == [] {
      assert log + Drain(es) == log;
    } else {
      var init, last := es[..|es| - 1], es[|es| - 1];
      assert log + Drain(es) == (log + Drain(init)) + [Drained(last)];
      EventsOfAppend(log + Drain(init), Drained(last));
      EventsOfDrain(log, init);
      assert init + [last] == es;
    }
  }

  lemma {:induction false} LogEnq(s: Process, a: int, e: Event, held: bool, at: EnqPc)
    requires Safe(s) && InvLog(s) && a in s.acts && s.acts[a] == Enq(e, held, at)
    ensures InvLog(Process(EnqData(s.c, a, e, at), Put(s.acts, a, EnqNext(s.c, e, held, at))))
  {
    var t := Process(EnqData(s.c, a, e, at), Put(s.acts, a, EnqNext(s.c, e, held, at)));
    assert Hand(t) == Hand(s);
    if at == PushEvent && s.c.commissioned {
      assert EventsOf(s.c.log) + Hand(s) + (s.c.mailbox + [e]) == EventsOf(s.c.log) + Hand(s) + s.c.mailbox + [e];
    }
  }

  /** The first event moves from the mailbox into the hand, emptied into `done`. */
  lemma {:induction false} Taken(done: seq<Event>, mailbox: seq<Event>)
    requires mailbox != []
    ensures done + mailbox == done + [mailbox[0]] + mailbox[1..]
  {
  }

  lemma {:induction false} LogResume(s: Process, a: int, pc: ResumePc)
    requires Safe(s) && InvLog(s) && a in s.acts && s.acts[a] == Resume(pc)
    requires pc == Dequeue ==> s.c.mailbox != []
    ensures InvLog(Process(ResumeData(s.c, a, pc), Put(s.acts, a, ResumeNext(s.c, pc))))
  {
    var t := Process(ResumeData(s.c, a, pc), Put(s.acts, a, ResumeNext(s.c, pc)));
    if pc.Dequeue? {
      assert s.c.owner == By(a);
      assert Hand(s) == [] && Hand(t) == [s.c.mailbox[0]];
      Taken(EventsOf(s.c.log), s.c.mailbox);
      assert EventsOf(s.c.log) + [] == EventsOf(s.c.log);
    } else {
      assert Hand(t) == Hand(s);
    }
  }

  lemma {:induction false} LogServe(s: Process, a: int, e: Event, step: ServePc)
    requires Safe(s) && InvLog(s) && a in s.acts && s.acts[a] == Serve(e, step)
    requires step == Purge && !e.terminate ==> s.c.mailbox != []
    ensures InvLog(Process(ServeData(s.c, e, step), Put(s.acts, a, ServeNext(s.c, e, step))))
  {
    assert s.c.owner == By(a);
    LogServeOwner(s, a, e, step);
  }

  lemma {:induction false} LogServeOwner(s: Process, a: int, e: Event, step: ServePc)
    requires InvLog(s) && s.c.owner == By(a) && a in s.acts && s.acts[a] == Serve(e, step)
    requires step == Purge && !e.terminate ==> s.c.mailbox != []
    ensures InvLog(Process(ServeData(s.c, e, step), Put(s.acts, a, ServeNext(s.c, e, step))))
  {
    if step.Filter? {
      LogFiltered(s, a, e, step);
    } else if step.Purge? && !e.terminate {
      LogPurged(s, a, e);
    } else {
      var t := Process(ServeData(s.c, e, step), Put(s.acts, a, ServeNext(s.c, e, step)));
      assert Hand(t) == [e] && t.c == s.c;
    }
  }

  lemma {:induction false} LogFiltered(s: Process, a: int, e: Event, step: ServePc)
    requires InvLog(s) && s.c.owner == By(a) && a in s.acts && s.acts[a] == Serve(e, step) && step.Filter?
    ensures InvLog(Process(s.c.(log := s.c.log + [Served(e)]), Put(s.acts, a, ServeNext(s.c, e, step))))
  {
    var t := Process(s.c.(log := s.c.log + [Served(e)]), Put(s.acts, a, ServeNext(s.c, e, step)));
    var was := EventsOf(s.c.log);
    EventsOfAppend(s.c.log, Served(e));
    assert Hand(t) == [] && was + [e] + [] == was + [e];
    Balance(s, t, was, [e], was + [e], []);
  }

  lemma {:induction false} LogPurged(s: Process, a: int, e: Event)
    requires InvLog(s) && s.c.owner == By(a) && a in s.acts && s.acts[a] == Serve(e, Purge)
    requires !e.terminate && s.c.mailbox != []
    ensures InvLog(Process(s.c.(log := s.c.log + [Purged(e)], mailbox := s.c.mailbox[1..]),
                           Put(s.acts, a, Go(Serve(s.c.mailbox[0], Purge)))))
  {
    var t := Process(s.c.(log := s.c.log + [Purged(e)], mailbox := s.c.mailbox[1..]),
                     Put(s.acts, a, Go(Serve(s.c.mailbox[0], Purge))));
    var was := EventsOf(s.c.log);
    EventsOfAppend(s.c.log, Purged(e));
    Taken(was + [e], s.c.mailbox);
    Balance(s, t, was, [e], was + [e], [s.c.mailbox[0]]);
  }

  lemma {:induction false} Balance(
      s: Process, t: Process, was: seq<Event>, h: seq<Event>, now: seq<Event>, k: seq<Event>)
    requires InvLog(s) && EventsOf(s.c.log) == was && Hand(s) == h && t.c.accepted == s.c.accepted
    requires EventsOf(t.c.log) == now && Hand(t) == k && was + h + s.c.mailbox == now + k + t.c.mailbox
    ensures InvLog(t)
  {
  }

  lemma {:induction false} LogClean(s: Process, a: int, stage: CleanPc)
    requires Safe(s) && InvLog(s) && a in s.acts && s.acts[a] == Clean(stage)
    ensures InvLog(Process(CleanData(s.c, stage), Put(s.acts, a, CleanNext(stage))))
  {
    EventsOfDrain(s.c.log, s.c.mailbox);
  }

  lemma {:induction false} LogOther(pol: Policy, s: Process, x: Action)
    requires Safe(s) && InvLog(s) && Enabled(pol, s, x)
    requires x.Step? ==> IsCall(s.acts[x.a])
    ensures InvLog(Do(pol, s, x))
  {
    if x.FilterDrop? {
      EventsOfAppend(s.c.log, Filtered(s.acts[x.a].hand));
    }
  }

  lemma {:induction false} TermEnq(s: Process, a: int, e: Event, held: bool, at: EnqPc)
    requires Safe(s) && InvTermination(s) && a in s.acts && s.acts[a] == Enq(e, held, at)
    ensures InvTermination(Process(EnqData(s.c, a, e, at), Put(s.acts, a, EnqNext(s.c, e, held, at))))
  {
    var t := Process(EnqData(s.c, a, e, at), Put(s.acts, a, EnqNext(s.c, e, held, at)));
    if at == PushEvent && s.c.commissioned {
      assert t.c.mailbox[|s.c.mailbox|] == e;
      assert forall i :: 0 <= i < |s.c.mailbox| ==> t.c.mailbox[i] == s.c.mailbox[i];
    }
  }

  lemma {:induction false} TermResume(s: Process, a: int, pc: ResumePc)
    requires Safe(s) && InvTermination(s) && a in s.acts && s.acts[a] == Resume(pc)
    requires pc == Dequeue ==> s.c.mailbox != []
    ensures InvTermination(Process(ResumeData(s.c, a, pc), Put(s.acts, a, ResumeNext(s.c, pc))))
  {
    var t := Process(ResumeData(s.c, a, pc), Put(s.acts, a, ResumeNext(s.c, pc)));
    if pc == Dequeue && (exists i :: 0 <= i < |s.c.mailbox| && Injected(s.c.mailbox[i])) {
      var i :| 0 <= i < |s.c.mailbox| && Injected(s.c.mailbox[i]);
      assert i > 0 ==> t.c.mailbox[i - 1] == s.c.mailbox[i];
    }
  }

  lemma {:induction false} TermServe(s: Process, a: int, e: Event, step: ServePc)
    requires Safe(s) && InvTermination(s) && a in s.acts && s.acts[a] == Serve(e, step)
    requires step == Purge && !e.terminate ==> s.c.mailbox != []
    ensures InvTermination(Process(ServeData(s.c, e, step), Put(s.acts, a, ServeNext(s.c, e, step))))
  {
    var t := Process(ServeData(s.c, e, step), Put(s.acts, a, ServeNext(s.c, e, step)));
    if step == Purge && !e.terminate && (exists i :: 0 <= i < |s.c.mailbox| && Injected(s.c.mailbox[i])) {
      var i :| 0 <= i < |s.c.mailbox| && Injected(s.c.mailbox[i]);
      assert i > 0 ==> t.c.mailbox[i - 1] == s.c.mailbox[i];
    }
  }

  lemma {:induction false} TermClean(s: Process, a: int, stage: CleanPc)
    requires Safe(s) && InvTermination(s) && a in s.acts && s.acts[a] == Clean(stage)
    ensures InvTermination(Process(CleanData(s.c, stage), Put(s.acts, a, CleanNext(stage))))
  {
  }

  lemma {:induction false} TermOther(pol: Policy, s: Process, x: Action)
    requires Disciplined(pol) && Safe(s) && InvTermination(s) && Enabled(pol, s, x)
    requires x.Step? ==> IsCall(s.acts[x.a])
    ensures InvTermination(Do(pol, s, x))
  {
  }

  // ------------------------------------------------------------ runs

  lemma {:induction false} SoundKept(pol: Policy, s: Process, x: Action)
    requires pol.guardedSpawn && Sound(s) && Enabled(pol, s, x)
    ensures Sound(Do(pol, s, x))
  {
    SafeKept(pol, s, x);
    if x.Step? && !IsCall(s.acts[x.a]) {
      var y := s.acts[x.a];
      match y {
        case Enq(e, held, at) =>
          WakeEnq(s, x.a, e, held, at);
          LogEnq(s, x.a, e, held, at);
        case Resume(pc) =>
          WakeResume(s, x.a, pc);
          LogResume(s, x.a, pc);
        case Serve(e, step) =>
          WakeOther(pol, s, x);
          LogServe(s, x.a, e, step);
        case Clean(stage) =>
          WakeOther(pol, s, x);
          LogClean(s, x.a, stage);
      }
    } else {
      WakeOther(pol, s, x);
      LogOther(pol, s, x);
    }
  }

  lemma {:induction false} InvKept(pol: Policy, s: Process, x: Action)
    requires Disciplined(pol) && Inv(s) && Enabled(pol, s, x)
    ensures Inv(Do(pol, s, x))
  {
    SoundKept(pol, s, x);
    if x.Step? && !IsCall(s.acts[x.a]) {
      var y := s.acts[x.a];
      match y {
        case Enq(e, held, at) => TermEnq(s, x.a, e, held, at);
        case Resume(pc) => TermResume(s, x.a, pc);
        case Serve(e, step) => TermServe(s, x.a, e, step);
        case Clean(stage) => TermClean(s, x.a, stage);
      }
    } else {
      TermOther(pol, s, x);
    }
  }

  datatype Outcome = Stuck | At(s: Process)

  /** The state after a run, if every action of it was enabled in turn. */
  ghost function Exec(pol: Policy, run: seq<Action>): Outcome {
    if run == [] then At(INITIAL)
    else
      var before := Exec(pol, run[..|run| - 1]);
      if before.At? && Enabled(pol, before.s, run[|run| - 1]) then At(Do(pol, before.s, run[|run| - 1])) else Stuck
  }

  ghost predicate Reachable(pol: Policy, s: Process) {
    exists run :: Exec(pol, run) == At(s)
  }

  lemma {:induction false} Extend(pol: Policy, s: Process, x: Action, t: Process)
    requires Reachable(pol, s) && Enabled(pol, s, x) && Do(pol, s, x) == t
    ensures Reachable(pol, t)
  {
    var run :| Exec(pol, run) == At(s);
    assert (run + [x])[..|run|] == run;
    assert Exec(pol, run + [x]) == At(t);
  }

  lemma {:induction false} RunKeepsInv(pol: Policy, run: seq<Action>)
    requires pol.guardedSpawn && Exec(pol, run).At?
    ensures Sound(Exec(pol, run).s)
    ensures Disciplined(pol) ==> Inv(Exec(pol, run).s)
  {
    if run != [] {
      RunKeepsInv(pol, run[..|run| - 1]);
      SoundKept(pol, Exec(pol, run[..|run| - 1]).s, run[|run| - 1]);
      if Disciplined(pol) {
        InvKept(pol, Exec(pol, run[..|run| - 1]).s, run[|run| - 1]);
      }
    }
  }

  /** In every run without a second registration; the part about termination also needs tame filters. */
  lemma {:induction false} InvAlways(pol: Policy, s: Process)
    requires pol.guardedSpawn && Reachable(pol, s)
    ensures Sound(s)
    ensures Disciplined(pol) ==> Inv(s)
  {
    var run :| Exec(pol, run) == At(s);
    RunKeepsInv(pol, run);
  }

  // ------------------------------------------------------------ without guarded spawns

  /** Has got no further into the process than resume's first CHECK. */
  predicate IsOutside(x: Activity) { !x.Serve? && !x.Clean? && (x.Resume? ==> x.pc.Load?) }

  predicate IsOver(c: Core) {
    c.state == Terminating && !c.locked && !c.commissioned && c.mailbox == [] && c.accepted == EventsOf(c.log)
  }

  /** A terminated process that was registered again: it is never served, as resume's CHECK stands before that. */
  ghost predicate Risen(s: Process) { IsOver(s.c) && forall a :: a in s.acts ==> IsOutside(s.acts[a]) }

  lemma {:induction false} RisenStep(s: Process, a: int)
    requires Risen(s) && a in s.acts && !Fault(s, a)
    ensures IsOver(DoStep(s, a).c) && (a in DoStep(s, a).acts ==> IsOutside(DoStep(s, a).acts[a]))
    ensures forall b :: b in DoStep(s, a).acts && b != a ==> b in s.acts && DoStep(s, a).acts[b] == s.acts[b]
  {
    var y := s.acts[a];
    match y {
      case Enq(_, _, _) =>
      case Resume(_) =>
      case _ =>
    }
  }

  lemma {:induction false} RisenKept(pol: Policy, s: Process, x: Action)
    requires Risen(s) && Enabled(pol, s, x)
    ensures Risen(Do(pol, s, x))
  {
    if x.Step? {
      RisenStep(s, x.a);
    }
  }

  /** Registering a process that has left BOTTOM is possible only once its cleanup is over. */
  lemma {:induction false} Rises(pol: Policy, s: Process, a: int)
    requires Sound(s) && Enabled(pol, s, Step(a)) && s.acts[a].SpawnRegister?
    requires !s.c.registered && s.c.state != Bottom
    ensures Risen(Do(pol, s, Step(a)))
  {
    assert s.c.gateOpen && s.c.owner == Nobody && Hand(s) == [];
    assert EventsOf(s.c.log) + [] + [] == EventsOf(s.c.log);
    var t := Do(pol, s, Step(a));
    forall b | b in t.acts ensures IsOutside(t.acts[b]) {
      if b != a {
        assert !HasToken(s.acts[b]) && !HasRef(s.acts[b]);
      }
    }
  }

  lemma {:induction false} SoundOrRisen(pol: Policy, s: Process, x: Action)
    requires Sound(s) && Enabled(pol, s, x)
    ensures Sound(Do(pol, s, x)) || Risen(Do(pol, s, x))
  {
    var guarded := pol.(guardedSpawn := true);
    if !x.Step? || !s.acts[x.a].SpawnRegister? || s.c.state == Bottom {
      SoundKept(guarded, s, x);
    } else if s.c.registered {
      SoundKept(guarded, s, Quit(x.a));
    } else {
      Rises(pol, s, x.a);
    }
  }

  lemma {:induction false} RunKeepsOrder(pol: Policy, run: seq<Action>)
    requires Exec(pol, run).At?
    ensures Sound(Exec(pol, run).s) || Risen(Exec(pol, run).s)
  {
    if run != [] {
      RunKeepsOrder(pol, run[..|run| - 1]);
      var s, x := Exec(pol, run[..|run| - 1]).s, run[|run| - 1];
      if Sound(s) {
        SoundOrRisen(pol, s, x);
      } else {
        RisenKept(pol, s, x);
      }
    }
  }

  /** Under every policy. */
  lemma {:induction false} OrderAlways(pol: Policy, s: Process)
    requires Reachable(pol, s)
    ensures Sound(s) || Risen(s)
  {
    var run :| Exec(pol, run) == At(s);
    RunKeepsOrder(pol, run);
  }

  // ------------------------------------------------------------ consequences

  ghost function Holders(s: Process): set<int> {
    set a | a in s.acts && HasToken(s.acts[a])
  }

  lemma {:induction false} HoldersOf(s: Process)
    requires InvToken(s)
    ensures |Holders(s)| + s.c.queued == if s.c.owner == Nobody then 0 else 1
  {
    var h := Holders(s);
    assert forall a :: a in h ==> s.c.owner.By? && a == s.c.owner.a;
    if s.c.owner.By? {
      assert h == {s.c.owner.a};
    } else {
      assert h == {};
    }
  }

  predicate HasOwner(s: Process) {
    match s.c.state
    case Bottom => s.c.registered
    case Ready => true
    case Blocked => false
    case Terminating => !s.c.gateOpen
  }

  /** A process that was spawned and is not blocked or gone has exactly one run token: an
      activity or one run queue entry. A blocked one has none, so two threads never serve it. */
  lemma {:induction false} OneToken(pol: Policy, s: Process)
    requires pol.guardedSpawn && Reachable(pol, s)
    ensures |Holders(s)| + s.c.queued == if HasOwner(s) then 1 else 0
  {
    InvAlways(pol, s);
    HoldersOf(s);
  }

  /** Once no producer is between its push and its state check and no worker between its
      BLOCKED store and its re-check, a blocked process has no mail. */
  lemma {:induction false} NoLostWakeup(pol: Policy, s: Process)
    requires Reachable(pol, s)
    requires s.c.state == Blocked && forall a :: a in s.acts ==> !IsWaker(s.acts[a])
    ensures s.c.mailbox == []
  {
    OrderAlways(pol, s);
  }

  predicate InOrder(accepted: seq<Event>, log: seq<Fate>, rest: seq<Event>) {
    && |log| <= |accepted|
    && (forall i :: 0 <= i < |log| ==> log[i].e == accepted[i])
    && accepted[|log|..] == rest
  }

  /** The i-th accepted event is the i-th disposed of; the rest is in hand, then in the mailbox, in order. */
  lemma {:induction false} Conservation(pol: Policy, s: Process)
    requires Reachable(pol, s)
    ensures InOrder(s.c.accepted, s.c.log, Hand(s) + s.c.mailbox)
    ensures !s.c.commissioned ==> s.c.mailbox == []
  {
    OrderAlways(pol, s);
    assert Risen(s) ==> Hand(s) == [] && EventsOf(s.c.log) + [] + [] == EventsOf(s.c.log);
    OrderOf(s.c.accepted, s.c.log, Hand(s), s.c.mailbox);
  }

  lemma {:induction false} OrderOf(accepted: seq<Event>, log: seq<Fate>, hand: seq<Event>, mailbox: seq<Event>)
    requires accepted == EventsOf(log) + hand + mailbox
    ensures InOrder(accepted, log, hand + mailbox)
  {
    EventsOfIndex(log);
  }

  lemma {:induction false} EventsOfIndex(log: seq<Fate>)
    ensures |EventsOf(log)| == |log|
    ensures forall i :: 0 <= i < |log| ==> EventsOf(log)[i] == log[i].e
  {
    if log != [] {
      EventsOfIndex(log[..|log| - 1]);
    }
  }

  /** No run accepts an event, obtains a reference, or finds the process in the `processes` map
      once cleanup's wait on the weak reference is over; and that is for good. */
  lemma {:induction false} ExpiredForGood(pol: Policy, s: Process, x: Action)
    requires pol.guardedSpawn && Reachable(pol, s) && Enabled(pol, s, x)
    requires s.c.gateOpen || CleanStage(s) >= 4
    ensures !Referenced(s) && !x.Acquire?
    ensures Do(pol, s, x).c.accepted == s.c.accepted
    ensures Do(pol, s, x).c.gateOpen || CleanStage(Do(pol, s, x)) >= 4
  {
    InvAlways(pol, s);
    SafeKept(pol, s, x);
    if x.Step? {
      var y := s.acts[x.a];
      match y {
        case Enq(_, _, _) =>
        case Resume(_) =>
        case Serve(_, _) =>
        case Clean(_) =>
        case _ =>
      }
    }
  }

  // ------------------------------------------------------------ when the CHECKs can fail

  const BOOTED: Core := Core(Ready, false, [], true, true, true, true, false, false, 0, [], [], By(1))

  /** One step of activity `a`, from `x` to `y`. */
  lemma {:induction false} Walk(
      pol: Policy, c: Core, acts: map<int, Activity>, a: int, x: Activity, d: Core, y: Activity)
    requires var s := Process(c, acts[a := x]);
      Reachable(pol, s) && CanStep(pol, s, a) && DoStep(s, a) == Process(d, Put(s.acts, a, Go(y)))
    ensures Reachable(pol, Process(d, acts[a := y]))
  {
    assert acts[a := x][a := y] == acts[a := y];
    Extend(pol, Process(c, acts[a := x]), Step(a), Process(d, acts[a := y]));
  }

  /** The last step of activity `a`. */
  lemma {:induction false} WalkEnd(pol: Policy, c: Core, acts: map<int, Activity>, a: int, x: Activity, d: Core)
    requires a !in acts
    requires var s := Process(c, acts[a := x]);
      Reachable(pol, s) && CanStep(pol, s, a) && DoStep(s, a) == Process(d, Put(s.acts, a, Done))
    ensures Reachable(pol, Process(d, acts))
  {
    assert acts[a := x] - {a} == acts;
    Extend(pol, Process(c, acts[a := x]), Step(a), Process(d, acts));
  }

  /** Spawn and resume a process: worker 1 ends up in its event loop. */
  lemma {:induction false} Boot(pol: Policy, acts: map<int, Activity>)
    requires Reachable(pol, Process(INITIAL.c, acts)) && 0 !in acts && 1 !in acts
    ensures Reachable(pol, Process(BOOTED, acts[1 := Resume(Loop)]))
  {
    var c0 := INITIAL.c;
    var c1 := c0.(registered := true, pidRef := true, owner := By(0));
    var c2 := c1.(queued := 1, owner := InQueue);
    Extend(pol, Process(c0, acts), Begin(0, SpawnCheck), Process(c0, acts[0 := SpawnCheck]));
    Walk(pol, c0, acts, 0, SpawnCheck, c0, SpawnRegister);
    Walk(pol, c0, acts, 0, SpawnRegister, c1, SpawnPush);
    WalkEnd(pol, c1, acts, 0, SpawnPush, c2);
    BootWorker(pol, acts);
  }

  lemma {:induction false} BootWorker(pol: Policy, acts: map<int, Activity>)
    requires 1 !in acts
    requires Reachable(pol, Process(BOOTED.(state := Bottom, queued := 1, owner := InQueue), acts))
    ensures Reachable(pol, Process(BOOTED, acts[1 := Resume(Loop)]))
  {
    var c2 := BOOTED.(state := Bottom, queued := 1, owner := InQueue);
    var c3 := c2.(queued := 0, owner := By(1));
    Extend(pol, Process(c2, acts), Pop(1), Process(c3, acts[1 := Resume(Load)]));
    Walk(pol, c3, acts, 1, Resume(Load), c3, Resume(Init));
    Walk(pol, c3, acts, 1, Resume(Init), BOOTED, Resume(TakeRef));
    Walk(pol, BOOTED, acts, 1, Resume(TakeRef), BOOTED, Resume(Loop));
  }

  /** With worker 1 in its loop, activity `p` pushes `e`. */
  lemma {:induction false} PushOne(pol: Policy, c: Core, acts: map<int, Activity>, p: int, e: Event, next: EnqPc)
    requires p !in acts && c.state == Ready && c.commissioned && !c.gateOpen
    requires next == if Injected(e) then SetTermination else RecheckState
    requires Reachable(pol, Process(c, acts))
    ensures Reachable(pol, Process(c.(mailbox := c.mailbox + [e], accepted := c.accepted + [e]),
                                   acts[p := Enq(e, false, next)]))
  {
    var d := c.(mailbox := c.mailbox + [e], accepted := c.accepted + [e]);
    Extend(pol, Process(c, acts), Begin(p, Enq(e, false, LoadState)), Process(c, acts[p := Enq(e, false, LoadState)]));
    Walk(pol, c, acts, p, Enq(e, false, LoadState), c, Enq(e, false, PushEvent));
    Walk(pol, c, acts, p, Enq(e, false, PushEvent), d, Enq(e, false, next));
  }

  /** ... and the worker takes it. */
  lemma {:induction false} PushAndTake(pol: Policy, c: Core, acts: map<int, Activity>, p: int, e: Event, next: EnqPc)
    requires p != 1 && p !in acts && c.state == Ready && c.mailbox == [] && c.commissioned && !c.gateOpen
    requires next == if Injected(e) then SetTermination else RecheckState
    requires Reachable(pol, Process(c, acts[1 := Resume(Loop)]))
    ensures Reachable(pol, Process(c.(accepted := c.accepted + [e]),
                                   acts[p := Enq(e, false, next)][1 := Serve(e, LoadTermination)]))
  {
    var d := c.(mailbox := [e], accepted := c.accepted + [e]);
    var base := acts[p := Enq(e, false, next)];
    assert c.mailbox + [e] == [e];
    PushOne(pol, c, acts[1 := Resume(Loop)], p, e, next);
    assert acts[1 := Resume(Loop)][p := Enq(e, false, next)] == base[1 := Resume(Loop)];
    Walk(pol, d, base, 1, Resume(Loop), d, Resume(Dequeue));
    assert [e][1..] == c.mailbox;
    Walk(pol, d, base, 1, Resume(Dequeue), c.(accepted := c.accepted + [e]), Serve(e, LoadTermination));
  }

  /** A filter drops an injected terminate event between its push and the store to `termination`;
      the next event then purges an empty mailbox. */
  lemma {:induction false} DroppedTerminateFaults(pol: Policy, e: Event) returns (s: Process)
    requires Injected(e) && pol.drops(e)
    ensures Reachable(pol, s) && 1 in s.acts && Fault(s, 1)
  {
    var x := Event(0, false, false);
    assert Exec(pol, []) == At(INITIAL);
    Boot(pol, map[]);
    PushAndTake(pol, BOOTED, map[], 2, e, SetTermination);
    var c := BOOTED.(accepted := BOOTED.accepted + [e]);
    var p := map[][2 := Enq(e, false, SetTermination)];
    Walk(pol, c, p, 1, Serve(e, LoadTermination), c, Serve(e, Filter(false)));
    var d := c.(log := c.log + [Filtered(e)]);
    assert p[1 := Serve(e, Filter(false))][1 := Resume(Loop)] == p[1 := Resume(Loop)];
    Extend(pol, Process(c, p[1 := Serve(e, Filter(false))]), FilterDrop(1), Process(d, p[1 := Resume(Loop)]));
    s := RaiseAndPurge(pol, d, e, x);
  }

  lemma {:induction false} RaiseAndPurge(pol: Policy, d: Core, e: Event, x: Event) returns (s: Process)
    requires !x.terminate && d.state == Ready && d.mailbox == [] && d.commissioned && !d.gateOpen
    requires Reachable(pol, Process(d, map[][2 := Enq(e, false, SetTermination)][1 := Resume(Loop)]))
    ensures Reachable(pol, s) && 1 in s.acts && Fault(s, 1)
  {
    var w := map[1 := Resume(Loop)];
    assert map[][2 := Enq(e, false, SetTermination)][1 := Resume(Loop)] == w[2 := Enq(e, false, SetTermination)];
    var f := d.(termination := true);
    Walk(pol, d, w, 2, Enq(e, false, SetTermination), f, Enq(e, false, RecheckState));
    WalkEnd(pol, f, w, 2, Enq(e, false, RecheckState), f);
    assert w == map[][1 := Resume(Loop)];
    PushAndTake(pol, f, map[], 3, x, RecheckState);
    var g, p := f.(accepted := f.accepted + [x]), map[][3 := Enq(x, false, RecheckState)];
    Walk(pol, g, p, 1, Serve(x, LoadTermination), g, Serve(x, Purge));
    s := Process(g, p[1 := Serve(x, Purge)]);
  }

  /** Two spawns of one object: the second has read BOTTOM before the process ran to its end, and
      registers it again. */
  lemma {:induction false} SecondSpawnFaults(pol: Policy) returns (s: Process)
    requires !pol.guardedSpawn
    ensures Reachable(pol, s) && 1 in s.acts && Fault(s, 1)
  {
    var e := Event(0, true, false);
    var late := map[9 := SpawnRegister];
    assert Exec(pol, []) == At(INITIAL);
    Extend(pol, INITIAL, Begin(9, SpawnCheck), Process(INITIAL.c, map[][9 := SpawnCheck]));
    Walk(pol, INITIAL.c, map[], 9, SpawnCheck, INITIAL.c, SpawnRegister);
    assert map[][9 := SpawnRegister] == late;
    Boot(pol, late);
    PushAndTake(pol, BOOTED, late, 2, e, RecheckState);
    s := ServeAndRespawn(pol, BOOTED.(accepted := BOOTED.accepted + [e]), e);
  }

  lemma {:induction false} ServeAndRespawn(pol: Policy, c: Core, e: Event) returns (s: Process)
    requires e.terminate && !pol.guardedSpawn
    requires c.state == Ready && !c.termination && !c.locked && c.pidRef && c.queued == 0
    requires Reachable(pol, Process(c,
      map[9 := SpawnRegister][2 := Enq(e, false, RecheckState)][1 := Serve(e, LoadTermination)]))
    ensures Reachable(pol, s) && 1 in s.acts && Fault(s, 1)
  {
    var late := map[9 := SpawnRegister];
    var w := late[1 := Serve(e, LoadTermination)];
    assert late[2 := Enq(e, false, RecheckState)][1 := Serve(e, LoadTermination)]
        == w[2 := Enq(e, false, RecheckState)];
    WalkEnd(pol, c, w, 2, Enq(e, false, RecheckState), c);
    s := FinishAndRespawn(pol, c, e);
  }

  lemma {:induction false} FinishAndRespawn(pol: Policy, c: Core, e: Event) returns (s: Process)
    requires e.terminate && !pol.guardedSpawn
    requires c.state == Ready && !c.termination && !c.locked && c.pidRef && c.queued == 0
    requires Reachable(pol, Process(c, map[9 := SpawnRegister][1 := Serve(e, LoadTermination)]))
    ensures Reachable(pol, s) && 1 in s.acts && Fault(s, 1)
  {
    var late := map[9 := SpawnRegister];
    Walk(pol, c, late, 1, Serve(e, LoadTermination), c, Serve(e, Filter(false)));
    var d := c.(log := c.log + [Served(e)]);
    Walk(pol, c, late, 1, Serve(e, Filter(false)), d, Resume(Finish));
    Walk(pol, d, late, 1, Resume(Finish), d, Clean(StoreTerminating));
    s := CleanAndRespawn(pol, d);
  }

  lemma {:induction false} CleanAndRespawn(pol: Policy, d: Core) returns (s: Process)
    requires !pol.guardedSpawn && d.state == Ready && !d.locked && d.pidRef && d.queued == 0
    requires Reachable(pol, Process(d, map[9 := SpawnRegister][1 := Clean(StoreTerminating)]))
    ensures Reachable(pol, s) && 1 in s.acts && Fault(s, 1)
  {
    var late := map[9 := SpawnRegister];
    var d1 := d.(state := Terminating);
    var d2 := d1.(commissioned := false, log := d1.log + Drain(d1.mailbox), mailbox := []);
    Walk(pol, d, late, 1, Clean(StoreTerminating), d1, Clean(Decommission));
    Walk(pol, d1, late, 1, Clean(Decommission), d2, Clean(ResetRef));
    s := EraseAndRespawn(pol, d2);
  }

  lemma {:induction false} EraseAndRespawn(pol: Policy, d2: Core) returns (s: Process)
    requires !pol.guardedSpawn && d2.state == Terminating && !d2.locked && d2.pidRef && d2.queued == 0
    requires Reachable(pol, Process(d2, map[9 := SpawnRegister][1 := Clean(ResetRef)]))
    ensures Reachable(pol, s) && 1 in s.acts && Fault(s, 1)
  {
    var late := map[9 := SpawnRegister];
    var d3 := d2.(selfRef := false, locked := true);
    var d4 := d3.(registered := false);
    var d5 := d4.(gateOpen := true, locked := false, owner := Nobody);
    Walk(pol, d2, late, 1, Clean(ResetRef), d3, Clean(AwaitExpiry));
    Walk(pol, d3, late, 1, Clean(AwaitExpiry), d3, Clean(Erase));
    Walk(pol, d3, late, 1, Clean(Erase), d4, Clean(OpenGate));
    WalkEnd(pol, d4, late, 1, Clean(OpenGate), d5);
    s := Respawn(pol, d5);
  }

  lemma {:induction false} Respawn(pol: Policy, d: Core) returns (s: Process)
    requires !pol.guardedSpawn && d.state == Terminating && !d.registered && !d.locked && d.queued == 0
    requires Reachable(pol, Process(d, map[9 := SpawnRegister]))
    ensures Reachable(pol, s) && 1 in s.acts && Fault(s, 1)
  {
    var c1 := d.(registered := true, pidRef := true, owner := By(9));
    var c2 := c1.(queued := 1, owner := InQueue);
    var c3 := c2.(queued := 0, owner := By(1));
    assert map[9 := SpawnRegister] == map[][9 := SpawnRegister];
    Walk(pol, d, map[], 9, SpawnRegister, c1, SpawnPush);
    WalkEnd(pol, c1, map[], 9, SpawnPush, c2);
    s := Process(c3, map[][1 := Resume(Load)]);
    Extend(pol, Process(c2, map[]), Pop(1), s);
  }

  lemma {:induction false} NoFault(s: Process, a: int)
    requires Inv(s) && a in s.acts
    ensures !Fault(s, a)
  {
  }

  /** Whatever filters do, the purge of an empty mailbox is the only CHECK that can fail. */
  lemma {:induction false} OnlyPurgeFaults(pol: Policy, s: Process, a: int)
    requires pol.guardedSpawn && Reachable(pol, s) && a in s.acts && Fault(s, a)
    ensures s.acts[a].Serve? && s.acts[a].step.Purge?
  {
    InvAlways(pol, s);
  }

  /** No CHECK of resume or cleanup can fail exactly when no filter drops an injected terminate
      event and no spawn registers an object that has left BOTTOM. */
  lemma {:induction false} ChecksHoldIff(pol: Policy)
    ensures Disciplined(pol) <==> forall s, a :: Reachable(pol, s) && a in s.acts ==> !Fault(s, a)
  {
    if Disciplined(pol) {
      forall s, a | Reachable(pol, s) && a in s.acts
        ensures !Fault(s, a)
      {
        InvAlways(pol, s);
        NoFault(s, a);
      }
    } else if !pol.guardedSpawn {
      var s := SecondSpawnFaults(pol);
    } else {
      var e :| Injected(e) && pol.drops(e);
      var s := DroppedTerminateFaults(pol, e);
    }
  }

  // ------------------------------------------------------------ one spawn per object

  /** How many times spawn is called. */
  function SpawnCalls(run: seq<Action>): nat {
    if run == [] then 0
    else
      var x := run[|run| - 1];
      SpawnCalls(run[..|run| - 1]) + if x.Begin? && x.x.SpawnCheck? then 1 else 0
  }

  predicate Spawning(x: Activity) { x.SpawnCheck? || x.SpawnRegister? }

  /** Nothing has happened to the process yet. */
  predicate Unspawned(s: Process) { s.c.state == Bottom && !s.c.registered && s.c.owner == Nobody }

  ghost predicate InvSpawn(s: Process, calls: nat) {
    && (calls == 0 ==> Unspawned(s) && forall a :: a in s.acts ==> !Spawning(s.acts[a]))
    && (forall a :: a in s.acts && Spawning(s.acts[a]) ==> Unspawned(s))
    && (forall a, b :: a in s.acts && b in s.acts && Spawning(s.acts[a]) && Spawning(s.acts[b]) ==> a == b)
  }

  /** Only registration ends the time before spawn. */
  lemma {:induction false} UnspawnedKept(pol: Policy, s: Process, x: Action)
    requires Safe(s) && Unspawned(s) && Enabled(pol, s, x)
    requires x.Step? ==> !s.acts[x.a].SpawnRegister?
    ensures Unspawned(Do(pol, s, x))
  {
    if x.Step? {
      var y := s.acts[x.a];
      match y {
        case Enq(_, _, _) =>
        case Resume(_) =>
        case Serve(_, _) =>
        case Clean(_) =>
        case _ =>
      }
    }
  }

  /** Nobody but spawn gets to where spawn is. */
  lemma {:induction false} SpawningBefore(pol: Policy, s: Process, x: Action, a: int)
    requires Enabled(pol, s, x) && a in Do(pol, s, x).acts && Spawning(Do(pol, s, x).acts[a])
    ensures (a in s.acts && Spawning(s.acts[a])) || (x.Begin? && x.a == a && x.x.SpawnCheck?)
    ensures x.Step? ==> x.a != a || s.acts[a].SpawnCheck?
  {
    if x.Step? && x.a == a {
      var y := s.acts[a];
      match y {
        case Enq(_, _, _) =>
        case Resume(_) =>
        case Serve(_, _) =>
        case Clean(_) =>
        case _ =>
      }
    }
  }

  lemma {:induction false} SpawnKept(pol: Policy, s: Process, x: Action, calls: nat)
    requires Safe(s) && InvSpawn(s, calls) && Enabled(pol, s, x)
    requires x.Begin? && x.x.SpawnCheck? ==> calls == 0
    ensures InvSpawn(Do(pol, s, x), if x.Begin? && x.x.SpawnCheck? then 1 else calls)
  {
    var t := Do(pol, s, x);
    if Unspawned(s) && (x.Step? ==> !s.acts[x.a].SpawnRegister?) {
      UnspawnedKept(pol, s, x);
    }
    forall a | a in t.acts && Spawning(t.acts[a]) ensures Unspawned(t) {
      SpawningBefore(pol, s, x, a);
    }
    forall a, b | a in t.acts && b in t.acts && Spawning(t.acts[a]) && Spawning(t.acts[b]) ensures a == b {
      SpawningBefore(pol, s, x, a);
      SpawningBefore(pol, s, x, b);
    }
    if calls == 0 && !(x.Begin? && x.x.SpawnCheck?) {
      forall a | a in t.acts ensures !Spawning(t.acts[a]) {
        if Spawning(t.acts[a]) { SpawningBefore(pol, s, x, a); }
      }
    }
  }

  /** With one call of spawn, the test in its locked block is never needed. */
  lemma {:induction false} OneSpawnIsGuarded(pol: Policy, run: seq<Action>)
    requires SpawnCalls(run) <= 1 && Exec(pol, run).At?
    ensures Exec(pol.(guardedSpawn := true), run) == Exec(pol, run)
    ensures InvSpawn(Exec(pol, run).s, SpawnCalls(run))
  {
    if run != [] {
      var before, x := run[..|run| - 1], run[|run| - 1];
      var guarded := pol.(guardedSpawn := true);
      OneSpawnIsGuarded(pol, before);
      var s := Exec(pol, before).s;
      RunKeepsInv(guarded, before);
      SpawnKept(pol, s, x, SpawnCalls(before));
    }
  }

  /** If spawn is called at most once for an object, no CHECK fails in any run in which no filter drops an
      injected terminate event; and in every run, whatever filters do, there is never a second token. */
  lemma {:induction false} OneSpawnIsSafe(pol: Policy, run: seq<Action>, a: int)
    requires SpawnCalls(run) <= 1 && Exec(pol, run).At?
    ensures var s := Exec(pol, run).s;
      && |Holders(s)| + s.c.queued == (if HasOwner(s) then 1 else 0)
      && (a in s.acts && (forall e :: Injected(e) ==> !pol.drops(e)) ==> !Fault(s, a))
  {
    var guarded, s := pol.(guardedSpawn := true), Exec(pol, run).s;
    OneSpawnIsGuarded(pol, run);
    OneToken(guarded, s);
    InvAlways(guarded, s);
    if a in s.acts && (forall e :: Injected(e) ==> !pol.drops(e)) {
      NoFault(s, a);
    }
  }
}
