/**
  Futures, promises, association, `then`, `recover` and `undiscardable` as a transition system.

  Every locked block is one step. What a thread still has to do after leaving a block (callbacks to
  invoke, registrations to make) is a bag of tasks, performed in any order and by anyone, so every
  interleaving of threads is a run of the model.
 */
module Futures {

  type Value(==, !new)

  datatype Outcome = Ready(v: Value) | Failed(message: string) | Discarded

  datatype Status = Pending | Done(o: Outcome)

  datatype Option<T> = None | Some(value: T)

  /** Who completes a future: a promise in user hands, or the callback that `then`, `recover` or
      `undiscardable` put on `src`. */
  datatype Origin = Promised | Then(src: nat) | Rescue(src: nat) | Shield(src: nat)

  /** `source` is set when the promise has been associated. `marked` is auxiliary: a discard was requested at
      some time, even if `recover` has cleared the flag since. */
  datatype Cell = Cell(status: Status, discard: bool, abandoned: bool, source: Option<nat>, origin: Origin,
                       marked: bool)

  datatype Kind = OnReady | OnFailed | OnDiscarded | OnAny | OnDiscard | OnAbandoned

  datatype Callback =
    | User(id: int)
    | Forward(to: nat)                       // associate(): give `to` the outcome of this future
    | Discarder(to: nat)                     // request a discard of `to`
    | Abandoner(to: nat, propagating: bool)
    | Continue(to: nat)                      // then(): run the continuation that completes `to`
    | Recover(to: nat)                       // recover(): complete `to`, by its continuation if this one is no good
    | Undiscard(to: nat)                     // undiscardable(): associate `to` with this future

  /** A callback with the future and the list it was registered on. */
  datatype Key = Key(on: nat, kind: Kind, cb: Callback)

  datatype Task =
    | Register(k: Key)
    | Run(k: Key)
    | Promise(f: nat, o: Outcome)            // Promise::set, fail, discard
    | Complete(f: nat, o: Outcome)           // Future::set, fail, Promise::discard(Future)
    | Discard(f: nat)
    | Abandon(f: nat, propagating: bool)
    | Associate(f: nat, g: nat)
    | Reset(f: nat, reply: Reply)            // recover(): clear `discard`, then set the promise to `reply`

  /** Auxiliary: callbacks ever registered, invoked, and destroyed uninvoked; futures a user asked to
      discard; and what the continuations called so far, of `then` and of `recover`, returned, by the future they
      were to complete. */
  datatype Book = Book(registered: multiset<Key>, ran: multiset<Key>, dropped: multiset<Key>,
                       asked: set<nat>, called: map<nat, Reply>)

  datatype State = State(cells: seq<Cell>, tasks: seq<Task>, stored: seq<Key>, book: Book)

  const INITIAL: State := State([], [], [], Book(multiset{}, multiset{}, multiset{}, {}, map[]))

  /** What a continuation returns. */
  datatype Reply = Plain(v: Value) | Chained(g: nat)

  datatype Action =
    | Make(status: Status, abandoned: bool)
    | Call(t: Task)
    | ThenOn(src: nat)
    | RecoverOn(src: nat)
    | ShieldOn(src: nat)
    | Perform(i: nat, reply: Reply)

  // ---------------------------------------------------------------- cells only grow

  /** Outcome, association and origin are final once set, flags are never cleared, and a completed
      future changes no more; except that `recover` may clear `discard` on the future it returned. */
  predicate CellGrows(c: Cell, d: Cell) {
    && c.origin == d.origin
    && (c.source.Some? ==> d.source == c.source)
    && (c.discard && !c.origin.Rescue? ==> d.discard)
    && (c.marked ==> d.marked)
    && (c.abandoned ==> d.abandoned)
    && (c.status.Done? ==> d.status == c.status && d.abandoned == c.abandoned && d.source == c.source
                           && d.marked == c.marked && (d.discard ==> c.discard))
  }

  predicate Grows(cs: seq<Cell>, ds: seq<Cell>) {
    |cs| <= |ds| && forall i :: 0 <= i < |cs| ==> CellGrows(cs[i], ds[i])
  }

  /** A task makes no future and no request of its own. */
  predicate Moves(s: State, r: State) {
    Grows(s.cells, r.cells) && |r.cells| == |s.cells| && r.book.asked == s.book.asked
  }

  /** Nor does it discard anything. */
  predicate Keeps(s: State, r: State) {
    Moves(s, r) && forall i :: 0 <= i < |s.cells| ==> r.cells[i].marked == s.cells[i].marked
  }

  /** Nothing is invoked. */
  predicate SameCalls(s: State, r: State) { r.book.ran == s.book.ran && r.book.called == s.book.called }

  // ---------------------------------------------------------------- locked blocks

  predicate Matches(kind: Kind, c: Cell) {
    match kind
    case OnReady => c.status.Done? && c.status.o.Ready?
    case OnFailed => c.status.Done? && c.status.o.Failed?
    case OnDiscarded => c.status.Done? && c.status.o.Discarded?
    case OnAny => c.status.Done?
    case OnDiscard => c.discard
    case OnAbandoned => c.abandoned
  }

  function Pick(ks: seq<Key>, p: Key -> bool): seq<Key> {
    if ks == [] then [] else (if p(ks[0]) then [ks[0]] else []) + Pick(ks[1..], p)
  }

  function Runs(ks: seq<Key>): seq<Task> {
    if ks == [] then [] else [Run(ks[0])] + Runs(ks[1..])
  }

  function Fires(f: nat, c: Cell): Key -> bool { (k: Key) => k.on == f && Matches(k.kind, c) }
  function Dies(f: nat, c: Cell): Key -> bool {
    (k: Key) => k.on == f && !Matches(k.kind, c) && c.status.Done?
  }
  function Stays(f: nat, c: Cell): Key -> bool {
    (k: Key) => k.on != f || (!Matches(k.kind, c) && c.status.Pending?)
  }

  /** The cell of `f` becomes `c`: its matching callbacks become due, and completion clears the rest. */
  function Wake(s: State, f: nat, c: Cell): State
    requires f < |s.cells|
  {
    s.(cells := s.cells[f := c],
       tasks := s.tasks + Runs(Pick(s.stored, Fires(f, c))),
       stored := Pick(s.stored, Stays(f, c)),
       book := s.book.(dropped := s.book.dropped + multiset(Pick(s.stored, Dies(f, c)))))
  }

  function DoComplete(s: State, f: nat, o: Outcome): (r: State)
    requires f < |s.cells|
    ensures Keeps(s, r) && SameCalls(s, r)
  {
    var c := s.cells[f];
    if c.status.Pending? then Wake(s, f, c.(status := Done(o))) else s
  }

  function DoDiscard(s: State, f: nat): (r: State)
    requires f < |s.cells|
    ensures Moves(s, r) && SameCalls(s, r)
  {
    var c := s.cells[f];
    if c.status.Pending? && !c.discard then Wake(s, f, c.(discard := true, marked := true)) else s
  }

  function DoAbandon(s: State, f: nat, propagating: bool): (r: State)
    requires f < |s.cells|
    ensures Keeps(s, r) && SameCalls(s, r)
  {
    var c := s.cells[f];
    if !c.abandoned && c.status.Pending? && (c.source.None? || propagating)
    then Wake(s, f, c.(abandoned := true)) else s
  }

  function DoRegister(s: State, k: Key): (r: State)
    requires k.on < |s.cells|
    ensures Keeps(s, r) && SameCalls(s, r)
  {
    var c := s.cells[k.on];
    if Matches(k.kind, c) then s.(tasks := s.tasks + [Run(k)])
    else if c.status.Pending? then s.(stored := s.stored + [k])
    else s.(book := s.book.(dropped := s.book.dropped + multiset{k}))
  }

  /** The check of `associated` takes no lock; `serial` says that no associate comes between the check
      and the completion. */
  function DoPromise(s: State, serial: bool, f: nat, o: Outcome): (r: State)
    requires f < |s.cells|
    ensures Keeps(s, r) && SameCalls(s, r)
  {
    if s.cells[f].source.Some? then s
    else if serial then DoComplete(s, f, o)
    else s.(tasks := s.tasks + [Complete(f, o)])
  }

  function Enrol(s: State, ks: seq<Key>): State {
    s.(tasks := s.tasks + Registers(ks), book := s.book.(registered := s.book.registered + multiset(ks)))
  }

  function Registers(ks: seq<Key>): seq<Task> {
    if ks == [] then [] else [Register(ks[0])] + Registers(ks[1..])
  }

  function LinkKeys(f: nat, g: nat): seq<Key> {
    [Key(f, OnDiscard, Discarder(g)), Key(g, OnReady, Forward(f)), Key(g, OnFailed, Forward(f)),
     Key(g, OnDiscarded, Forward(f)), Key(g, OnAbandoned, Abandoner(f, true))]
  }

  function Tie(s: State, f: nat, g: nat): (r: State)
    requires f < |s.cells|
    ensures s.cells[f].status.Pending? && s.cells[f].source.None? ==> Keeps(s, r)
  {
    s.(cells := s.cells[f := s.cells[f].(source := Some(g))])
  }

  function DoAssociate(s: State, f: nat, g: nat): (r: State)
    requires f < |s.cells|
    ensures Keeps(s, r) && SameCalls(s, r)
  {
    var c := s.cells[f];
    if c.status.Pending? && c.source.None?
    then Enrol(Tie(s, f, g), LinkKeys(f, g))
    else s
  }

  /** The rest of a callback of recover(): the flag is cleared under the lock, then the promise is set to what the
      continuation returned. */
  function DoReset(s: State, f: nat, reply: Reply): (r: State)
    requires f < |s.cells| && s.cells[f].origin.Rescue?
    ensures Keeps(s, r) && SameCalls(s, r)
  {
    s.(cells := s.cells[f := s.cells[f].(discard := false)], tasks := s.tasks + [Answer(f, reply)])
  }

  /** Promise::set with a value or with a future. */
  function Answer(f: nat, reply: Reply): Task {
    if reply.Plain? then Promise(f, Ready(reply.v)) else Associate(f, reply.g)
  }

  /** The outcome that `then` passes on without calling its continuation. */
  function Settled(c: Cell): Option<Outcome> {
    if c.status.Pending? then None
    else if c.status.o.Ready? then if c.discard then Some(Discarded) else None
    else Some(c.status.o)
  }

  /** The one task a callback leaves behind. The promise owned by a `then` or `undiscardable` callback
      is destroyed after it; by then the future is completed or associated, so abandon() does nothing. */
  function Leaves(k: Key, c: Cell, reply: Reply): seq<Task> {
    match k.cb
    case User(_) => []
    case Forward(to) => if c.status.Done? then [Complete(to, c.status.o)] else []
    case Discarder(to) => [Discard(to)]
    case Abandoner(to, p) => [Abandon(to, p)]
    case Continue(to) =>
      if Settled(c).Some? then [Promise(to, Settled(c).value)]
      else [Answer(to, reply)]
    case Recover(to) =>
      if k.kind.OnAbandoned? || (c.status.Done? && !c.status.o.Ready?) then [Reset(to, reply)]
      else [Associate(to, k.on)]
    case Undiscard(to) => [Associate(to, k.on)]
  }

  /** Invoking `k` on a future in state `c` calls the user's continuation. */
  predicate CallsNow(k: Key, c: Cell) {
    || (k.cb.Continue? && Settled(c).None?)
    || (k.cb.Recover? && (k.kind.OnAbandoned? || (c.status.Done? && !c.status.o.Ready?)))
  }

  function DoRun(s: State, k: Key, reply: Reply): (r: State)
    requires k.on < |s.cells|
    ensures Keeps(s, r)
  {
    var c := s.cells[k.on];
    s.(tasks := s.tasks + Leaves(k, c, reply),
       book := s.book.(ran := s.book.ran + multiset{k},
                       called := if CallsNow(k, c) then s.book.called[k.cb.to := reply] else s.book.called))
  }

  function Target(t: Task): nat { if t.Register? || t.Run? then t.k.on else t.f }

  predicate CanRun(cs: seq<Cell>, t: Task) { Target(t) < |cs| && (t.Reset? ==> cs[t.f].origin.Rescue?) }

  function DoTask(s: State, serial: bool, t: Task, reply: Reply): (r: State)
    requires CanRun(s.cells, t)
    ensures Moves(s, r) && (t.Discard? || Keeps(s, r))
  {
    match t
    case Register(k) => DoRegister(s, k)
    case Run(k) => DoRun(s, k, reply)
    case Promise(f, o) => DoPromise(s, serial, f, o)
    case Complete(f, o) => DoComplete(s, f, o)
    case Discard(f) => DoDiscard(s, f)
    case Abandon(f, p) => DoAbandon(s, f, p)
    case Associate(f, g) => DoAssociate(s, f, g)
    case Reset(f, answer) => DoReset(s, f, answer)
  }

  function Without(ts: seq<Task>, i: nat): seq<Task>
    requires i < |ts|
  { ts[..i] + ts[i + 1..] }

  // ---------------------------------------------------------------- runs

  /** What callers may start. Promise operations need a promise in user hands. */
  predicate UserTask(s: State, t: Task) {
    && Target(t) < |s.cells|
    && !t.Run? && !t.Complete? && !t.Reset?
    && (t.Register? ==> t.k.cb.User?)
    && (t.Promise? || t.Abandon? || t.Associate? ==> s.cells[t.f].origin.Promised?)
    && (t.Abandon? ==> !t.propagating)
    && (t.Associate? ==> t.g < |s.cells|)
  }

  predicate Enabled(s: State, a: Action) {
    match a
    case Make(_, _) => true
    case Call(t) => UserTask(s, t)
    case ThenOn(src) => src < |s.cells|
    case RecoverOn(src) => src < |s.cells|
    case ShieldOn(src) => src < |s.cells|
    case Perform(i, reply) =>
      i < |s.tasks| && CanRun(s.cells, s.tasks[i]) && (reply.Chained? ==> reply.g < |s.cells|)
  }

  function New(origin: Origin): Cell { Cell(Pending, false, false, None, origin, false) }

  function Fresh(s: State, origin: Origin): State {
    s.(cells := s.cells + [New(origin)])
  }

  function Called(s: State, t: Task): State {
    match t
    case Register(k) => Enrol(s, [k])
    case Discard(f) => s.(tasks := s.tasks + [t], book := s.book.(asked := s.book.asked + {f}))
    case _ => s.(tasks := s.tasks + [t])
  }

  function ThenKeys(src: nat, f: nat): seq<Key> {
    [Key(src, OnAny, Continue(f)), Key(src, OnAbandoned, Abandoner(f, false)), Key(f, OnDiscard, Discarder(src))]
  }

  function RecoverKeys(src: nat, f: nat): seq<Key> {
    [Key(src, OnAny, Recover(f)), Key(src, OnAbandoned, Recover(f)), Key(f, OnDiscard, Discarder(src))]
  }

  function Do(s: State, serial: bool, a: Action): State
    requires Enabled(s, a)
  {
    match a
    case Make(status, abandoned) => s.(cells := s.cells + [Cell(status, false, abandoned, None, Promised, false)])
    case Call(t) => Called(s, t)
    case ThenOn(src) => Enrol(Fresh(s, Then(src)), ThenKeys(src, |s.cells|))
    case RecoverOn(src) => Enrol(Fresh(s, Rescue(src)), RecoverKeys(src, |s.cells|))
    case ShieldOn(src) => Enrol(Fresh(s, Shield(src)), [Key(src, OnAny, Undiscard(|s.cells|))])
    case Perform(i, reply) => DoTask(s.(tasks := Without(s.tasks, i)), serial, s.tasks[i], reply)
  }

  datatype End = Stuck | At(s: State)

  /** Where a run leads, from state `from`. */
  function Exec(from: State, serial: bool, run: seq<Action>): End
    decreases |run|
  {
    if run == [] then At(from) else Next(Exec(from, serial, run[..|run| - 1]), serial, run[|run| - 1])
  }

  function Next(e: End, serial: bool, a: Action): End {
    if e.At? && Enabled(e.s, a) then At(Do(e.s, serial, a)) else Stuck
  }

  ghost predicate Reachable(s: State, serial: bool) { exists run :: Exec(INITIAL, serial, run) == At(s) }

  /** `t` may still change `f`, or pass a discard of `f` on. */
  predicate About(t: Task, f: nat) {
    if t.Register? || t.Run? then (!t.k.cb.User? && t.k.cb.to == f) || (t.k.cb.Discarder? && t.k.on == f)
    else t.f == f
  }

  /** Nobody has anything in hand about `f`; what is under way elsewhere does not matter. */
  predicate Idle(s: State, f: nat) { forall t :: t in s.tasks ==> !About(t, f) }

  // ---------------------------------------------------------------- single assignment

  lemma AppendGrows(cs: seq<Cell>, c: Cell)
    ensures Grows(cs, cs + [c])
  {
  }

  lemma StepGrows(s: State, serial: bool, a: Action)
    requires Enabled(s, a)
    ensures Grows(s.cells, Do(s, serial, a).cells)
    ensures s.book.asked <= Do(s, serial, a).book.asked
  {
    match a {
      case Make(status, abandoned) => AppendGrows(s.cells, Cell(status, false, abandoned, None, Promised, false));
      case Call(t) =>
      case ThenOn(src) => AppendGrows(s.cells, New(Then(src)));
      case RecoverOn(src) => AppendGrows(s.cells, New(Rescue(src)));
      case ShieldOn(src) => AppendGrows(s.cells, New(Shield(src)));
      case Perform(i, reply) =>
        assert Moves(s.(tasks := Without(s.tasks, i)), Do(s, serial, a));
    }
  }

  /** Single assignment over whole runs: nothing that was settled is ever unsettled. */
  lemma {:induction false} NeverUnset(s: State, serial: bool, run: seq<Action>, d: State)
    requires Exec(s, serial, run) == At(d)
    ensures Grows(s.cells, d.cells) && s.book.asked <= d.book.asked
    decreases |run|
  {
    if run != [] {
      var b := Exec(s, serial, run[..|run| - 1]).s;
      NeverUnset(s, serial, run[..|run| - 1], b);
      StepGrows(b, serial, run[|run| - 1]);
    }
  }

  // ---------------------------------------------------------------- what tasks and callbacks stand for

  /** A discard of `y` is passed on to `x`. */
  predicate Carrier(cs: seq<Cell>, y: nat, x: nat) {
    && y < |cs|
    && (|| cs[y].origin == Then(x) || cs[y].origin == Rescue(x)
        || (cs[y].source == Some(x) && cs[y].origin != Shield(x)))
  }

  predicate KeyOk(cs: seq<Cell>, k: Key) {
    && k.on < |cs|
    && (k.cb.User? || k.cb.to < |cs|)
    && (k.cb.Forward? ==> (k.kind.OnReady? || k.kind.OnFailed? || k.kind.OnDiscarded?)
                          && cs[k.cb.to].source == Some(k.on))
    && (k.cb.Discarder? ==> k.kind.OnDiscard?
                            && (|| cs[k.on].origin == Then(k.cb.to) || cs[k.on].origin == Rescue(k.cb.to)
                                || cs[k.on].source == Some(k.cb.to)))
    && (k.cb.Abandoner? ==> k.kind.OnAbandoned?)
    && (k.cb.Continue? ==> k.kind.OnAny? && cs[k.cb.to].origin == Then(k.on))
    && (k.cb.Recover? ==> (k.kind.OnAny? || k.kind.OnAbandoned?) && cs[k.cb.to].origin == Rescue(k.on))
    && (k.cb.Undiscard? ==> k.kind.OnAny? && cs[k.cb.to].origin == Shield(k.on))
  }

  /** What `then` passes on and cannot change any more. */
  function Known(c: Cell): Option<Outcome> {
    if c.origin.Rescue? && c.status.Done? && c.status.o.Ready? then None else Settled(c)
  }

  /** The continuation of recover() may have been called for `x`. */
  predicate MayRescue(cs: seq<Cell>, x: nat) {
    x < |cs| && (cs[x].abandoned || (cs[x].status.Done? && !cs[x].status.o.Ready?))
  }

  /** `o` is an outcome that the callback behind `f` may give it. */
  predicate Lawful(cs: seq<Cell>, f: nat, o: Outcome)
    requires f < |cs|
  {
    && (cs[f].origin.Then? ==>
          var src := cs[f].origin.src;
          src < |cs| && cs[src].status.Done? && (Known(cs[src]).Some? ==> o == Known(cs[src]).value))
    && (cs[f].origin.Rescue? && cs[f].source.None? ==> MayRescue(cs, cs[f].origin.src))
  }

  /** `f` may be tied to `g`. */
  predicate Linkable(cs: seq<Cell>, f: nat, g: nat)
    requires f < |cs|
  {
    && g < |cs|
    && (cs[f].origin.Then? ==>
          var src := cs[f].origin.src;
          src < |cs| && cs[src].status.Done? && Known(cs[src]).None?)
    && (cs[f].origin.Rescue? ==>
          MayRescue(cs, cs[f].origin.src) || (g == cs[f].origin.src && cs[g].status.Done?))
    && (cs[f].origin.Shield? ==> g == cs[f].origin.src && cs[g].status.Done?)
  }

  /** `f` has taken `o` from the future it is associated with. */
  predicate Inherited(cs: seq<Cell>, f: nat, o: Outcome)
    requires f < |cs|
  {
    cs[f].source.Some? && cs[f].source.value < |cs| && cs[cs[f].source.value].status == Done(o)
  }

  ghost predicate Wanted(cs: seq<Cell>, asked: set<nat>, x: nat) {
    x in asked || exists y: nat :: Carrier(cs, y, x) && cs[y].marked
  }

  ghost predicate TaskOk(cs: seq<Cell>, asked: set<nat>, serial: bool, t: Task) {
    match t
    case Register(k) => KeyOk(cs, k)
    case Run(k) => Fired(cs, k)
    case Promise(f, o) => f < |cs| && Lawful(cs, f, o) && !cs[f].origin.Shield?
    case Complete(f, o) =>
      f < |cs| && Lawful(cs, f, o) && (serial || cs[f].origin.Shield? ==> Inherited(cs, f, o))
    case Discard(f) => f < |cs| && (cs[f].status.Done? || Wanted(cs, asked, f))
    case Abandon(f, _) => f < |cs|
    case Associate(f, g) => f < |cs| && Linkable(cs, f, g)
    case Reset(f, reply) =>
      f < |cs| && cs[f].origin.Rescue? && MayRescue(cs, cs[f].origin.src) && (reply.Chained? ==> reply.g < |cs|)
  }

  ghost predicate CellOk(cs: seq<Cell>, asked: set<nat>, serial: bool, f: nat)
    requires f < |cs|
  {
    && (!cs[f].origin.Promised? ==> cs[f].origin.src < f)
    && (cs[f].source.Some? ==> Linkable(cs, f, cs[f].source.value))
    && (cs[f].status.Done? ==> Lawful(cs, f, cs[f].status.o))
    && (cs[f].status.Done? && cs[f].origin.Shield? ==> cs[f].source.Some?)
    && (cs[f].status.Done? && cs[f].source.Some? && (serial || cs[f].origin.Shield?) ==>
          Inherited(cs, f, cs[f].status.o))
    && (cs[f].marked ==> Wanted(cs, asked, f))
    && (cs[f].discard ==> cs[f].marked) && (cs[f].marked && !cs[f].origin.Rescue? ==> cs[f].discard)
  }

  /** A callback whose future is complete without having called for it. */
  predicate Dead(cs: seq<Cell>, k: Key) {
    k.on < |cs| && cs[k.on].status.Done? && !Matches(k.kind, cs[k.on])
  }

  /** A callback whose cause has come to pass, even if `recover` has cleared it since. */
  predicate Fired(cs: seq<Cell>, k: Key) {
    KeyOk(cs, k) && (if k.kind.OnDiscard? then cs[k.on].marked else Matches(k.kind, cs[k.on]))
  }

  predicate Waiting(cs: seq<Cell>, k: Key) {
    KeyOk(cs, k) && cs[k.on].status.Pending? && !Matches(k.kind, cs[k.on])
  }

  /** The continuation of `f` may have been called. */
  predicate Callable(cs: seq<Cell>, f: nat) {
    && f < |cs| && (cs[f].origin.Then? || cs[f].origin.Rescue?) && cs[f].origin.src < |cs|
    && (cs[f].origin.Then? ==> cs[cs[f].origin.src].status.Done? && Known(cs[cs[f].origin.src]).None?)
    && (cs[f].origin.Rescue? ==> MayRescue(cs, cs[f].origin.src))
  }

  ghost predicate BookOk(cs: seq<Cell>, b: Book) {
    && (forall k :: k in b.registered ==> KeyOk(cs, k))
    && (forall k :: k in b.ran ==> Fired(cs, k))
    && (forall k :: k in b.dropped ==> Dead(cs, k))
    && (forall f :: f in b.called ==> Callable(cs, f))
  }

  ghost predicate Safe(s: State, serial: bool) {
    && (forall f: nat :: f < |s.cells| ==> CellOk(s.cells, s.book.asked, serial, f))
    && (forall t :: t in s.tasks ==> TaskOk(s.cells, s.book.asked, serial, t))
    && (forall k :: k in s.stored ==> Waiting(s.cells, k))
    && BookOk(s.cells, s.book)
  }

  lemma {:induction false} PickIn(ks: seq<Key>, p: Key -> bool, k: Key)
    ensures k in Pick(ks, p) <==> k in ks && p(k)
  {
    if ks != [] {
      PickIn(ks[1..], p, k);
    }
  }

  lemma {:induction false} RunsIn(ks: seq<Key>, t: Task)
    ensures t in Runs(ks) <==> t.Run? && t.k in ks
  {
    if ks != [] {
      RunsIn(ks[1..], t);
    }
  }

  lemma {:induction false} RegistersIn(ks: seq<Key>, t: Task)
    ensures t in Registers(ks) <==> t.Register? && t.k in ks
  {
    if ks != [] {
      RegistersIn(ks[1..], t);
    }
  }

  lemma WantedStable(cs: seq<Cell>, ds: seq<Cell>, asked: set<nat>, asked': set<nat>, x: nat)
    requires Grows(cs, ds) && asked <= asked' && Wanted(cs, asked, x)
    ensures Wanted(ds, asked', x)
  {
    if x !in asked {
      var y: nat :| Carrier(cs, y, x) && cs[y].marked;
      assert CellGrows(cs[y], ds[y]);
      assert Carrier(ds, y, x) && ds[y].marked;
    }
  }

  lemma TaskStable(cs: seq<Cell>, ds: seq<Cell>, asked: set<nat>, asked': set<nat>, serial: bool, t: Task)
    requires Grows(cs, ds) && asked <= asked' && TaskOk(cs, asked, serial, t)
    ensures TaskOk(ds, asked', serial, t)
  {
    match t {
      case Register(k) =>
      case Run(k) =>
      case Promise(f, o) =>
      case Complete(f, o) =>
      case Discard(f) =>
        if cs[f].status.Pending? { WantedStable(cs, ds, asked, asked', f); }
      case Abandon(f, p) =>
      case Associate(f, g) =>
      case Reset(f, _) =>
    }
  }

  lemma CellStable(cs: seq<Cell>, ds: seq<Cell>, asked: set<nat>, asked': set<nat>, serial: bool, f: nat)
    requires Grows(cs, ds) && asked <= asked'
    requires f < |cs| && cs[f] == ds[f] && CellOk(cs, asked, serial, f)
    ensures CellOk(ds, asked', serial, f)
  {
    if cs[f].marked { WantedStable(cs, ds, asked, asked', f); }
  }

  lemma BookStable(cs: seq<Cell>, ds: seq<Cell>, b: Book)
    requires Grows(cs, ds) && BookOk(cs, b)
    ensures BookOk(ds, b)
  {
    forall k | k in b.registered ensures KeyOk(ds, k) {}
    forall k | k in b.ran ensures Fired(ds, k) {}
    forall k | k in b.dropped ensures Dead(ds, k) {}
    forall f | f in b.called ensures Callable(ds, f) {}
  }

  // ---------------------------------------------------------------- safety is kept

  /** Old cells and tasks stay in order; only what is new needs a look. */
  lemma Carry(s: State, serial: bool, r: State)
    requires Safe(s, serial) && Grows(s.cells, r.cells) && s.book.asked <= r.book.asked
    requires forall f: nat :: f < |r.cells| && (f >= |s.cells| || s.cells[f] != r.cells[f]) ==>
               CellOk(r.cells, r.book.asked, serial, f)
    requires forall t :: t in r.tasks ==> t in s.tasks || TaskOk(r.cells, r.book.asked, serial, t)
    requires forall k :: k in r.stored ==> Waiting(r.cells, k)
    requires BookOk(r.cells, r.book)
    ensures Safe(r, serial)
  {
    forall f: nat | f < |r.cells| ensures CellOk(r.cells, r.book.asked, serial, f) {
      if f < |s.cells| && s.cells[f] == r.cells[f] {
        CellStable(s.cells, r.cells, s.book.asked, r.book.asked, serial, f);
      }
    }
    forall t | t in r.tasks ensures TaskOk(r.cells, r.book.asked, serial, t) {
      if t in s.tasks {
        TaskStable(s.cells, r.cells, s.book.asked, r.book.asked, serial, t);
      }
    }
  }

  /** Where a stored callback goes when the cell of `f` becomes `c`. */
  lemma Sorted(cs: seq<Cell>, f: nat, c: Cell, k: Key)
    requires f < |cs| && cs[f].status.Pending? && CellGrows(cs[f], c) && Waiting(cs, k)
    requires c.discard ==> c.marked
    ensures Fires(f, c)(k) ==> Fired(cs[f := c], k)
    ensures Stays(f, c)(k) ==> Waiting(cs[f := c], k)
    ensures Dies(f, c)(k) ==> Dead(cs[f := c], k)
  {
  }

  lemma WakeSafe(s: State, serial: bool, f: nat, c: Cell)
    requires Safe(s, serial) && f < |s.cells| && s.cells[f].status.Pending? && CellGrows(s.cells[f], c)
    requires CellOk(s.cells[f := c], s.book.asked, serial, f)
    ensures Safe(Wake(s, f, c), serial)
  {
    var cs := s.cells[f := c];
    var due, kept, dead := Pick(s.stored, Fires(f, c)), Pick(s.stored, Stays(f, c)), Pick(s.stored, Dies(f, c));
    forall t | t in Runs(due) ensures TaskOk(cs, s.book.asked, serial, t) {
      RunsIn(due, t);
      PickIn(s.stored, Fires(f, c), t.k);
      Sorted(s.cells, f, c, t.k);
    }
    forall k | k in kept ensures Waiting(cs, k) {
      PickIn(s.stored, Stays(f, c), k);
      Sorted(s.cells, f, c, k);
    }
    forall k | k in dead ensures Dead(cs, k) {
      PickIn(s.stored, Dies(f, c), k);
      Sorted(s.cells, f, c, k);
    }
    WakeCarry(s, serial, f, c, due, kept, dead);
  }

  lemma WakeCarry(s: State, serial: bool, f: nat, c: Cell, due: seq<Key>, kept: seq<Key>, dead: seq<Key>)
    requires Safe(s, serial) && f < |s.cells| && CellGrows(s.cells[f], c)
    requires CellOk(s.cells[f := c], s.book.asked, serial, f)
    requires forall t :: t in Runs(due) ==> TaskOk(s.cells[f := c], s.book.asked, serial, t)
    requires forall k :: k in kept ==> Waiting(s.cells[f := c], k)
    requires forall k :: k in dead ==> Dead(s.cells[f := c], k)
    ensures Safe(State(s.cells[f := c], s.tasks + Runs(due), kept,
                       s.book.(dropped := s.book.dropped + multiset(dead))), serial)
  {
    var r := State(s.cells[f := c], s.tasks + Runs(due), kept,
                   s.book.(dropped := s.book.dropped + multiset(dead)));
    BookStable(s.cells, r.cells, s.book);
    forall k | k in r.book.dropped ensures Dead(r.cells, k) {
      assert k in s.book.dropped || k in dead;
    }
    Carry(s, serial, r);
  }

  lemma CompleteSafe(s: State, serial: bool, f: nat, o: Outcome)
    requires Safe(s, serial) && f < |s.cells| && Lawful(s.cells, f, o)
    requires s.cells[f].origin.Shield? ==> Inherited(s.cells, f, o)
    requires serial && s.cells[f].source.Some? ==> Inherited(s.cells, f, o)
    ensures Safe(DoComplete(s, f, o), serial)
  {
    var c := s.cells[f];
    if c.status.Pending? {
      var cs := s.cells[f := c.(status := Done(o))];
      assert Grows(s.cells, cs);
      assert CellOk(s.cells, s.book.asked, serial, f);
      if c.marked { WantedStable(s.cells, cs, s.book.asked, s.book.asked, f); }
      WakeSafe(s, serial, f, c.(status := Done(o)));
    }
  }

  lemma DiscardSafe(s: State, serial: bool, f: nat)
    requires Safe(s, serial) && TaskOk(s.cells, s.book.asked, serial, Discard(f))
    ensures Safe(DoDiscard(s, f), serial)
  {
    var c := s.cells[f];
    if c.status.Pending? && !c.discard {
      var cs := s.cells[f := c.(discard := true, marked := true)];
      assert Grows(s.cells, cs);
      assert CellOk(s.cells, s.book.asked, serial, f);
      WantedStable(s.cells, cs, s.book.asked, s.book.asked, f);
      WakeSafe(s, serial, f, c.(discard := true, marked := true));
    }
  }

  lemma AbandonSafe(s: State, serial: bool, f: nat, p: bool)
    requires Safe(s, serial) && f < |s.cells|
    ensures Safe(DoAbandon(s, f, p), serial)
  {
    var c := s.cells[f];
    var d := c.(abandoned := true);
    if !c.abandoned && c.status.Pending? {
      assert Grows(s.cells, s.cells[f := d]);
      assert CellOk(s.cells, s.book.asked, serial, f);
      if c.marked { WantedStable(s.cells, s.cells[f := d], s.book.asked, s.book.asked, f); }
      WakeSafe(s, serial, f, d);
    }
  }

  lemma RegisterSafe(s: State, serial: bool, k: Key)
    requires Safe(s, serial) && KeyOk(s.cells, k)
    ensures Safe(DoRegister(s, k), serial)
  {
    assert CellOk(s.cells, s.book.asked, serial, k.on);
    Carry(s, serial, DoRegister(s, k));
  }

  lemma LeavesOk(s: State, serial: bool, k: Key, reply: Reply, t: Task)
    requires Safe(s, serial) && Fired(s.cells, k) && (reply.Chained? ==> reply.g < |s.cells|)
    requires t in Leaves(k, s.cells[k.on], reply)
    ensures TaskOk(s.cells, s.book.asked, serial, t)
  {
    assert CellOk(s.cells, s.book.asked, serial, k.on);
    if !k.cb.User? { assert CellOk(s.cells, s.book.asked, serial, k.cb.to); }
    match k.cb {
      case User(_) =>
      case Forward(to) =>
      case Discarder(to) =>
        if s.cells[to].status.Pending? { assert Carrier(s.cells, k.on, to); }
      case Abandoner(to, p) =>
      case Continue(to) =>
      case Recover(to) =>
      case Undiscard(to) =>
    }
  }

  lemma RunSafe(s: State, serial: bool, k: Key, reply: Reply)
    requires Safe(s, serial) && Fired(s.cells, k) && (reply.Chained? ==> reply.g < |s.cells|)
    ensures Safe(DoRun(s, k, reply), serial)
  {
    var r := DoRun(s, k, reply);
    forall t | t in r.tasks && t !in s.tasks ensures TaskOk(r.cells, r.book.asked, serial, t) {
      LeavesOk(s, serial, k, reply, t);
    }
    Carry(s, serial, r);
  }

  lemma EnrolSafe(s: State, serial: bool, ks: seq<Key>)
    requires Safe(s, serial) && forall k :: k in ks ==> KeyOk(s.cells, k)
    ensures Safe(Enrol(s, ks), serial)
  {
    var r := Enrol(s, ks);
    forall t | t in r.tasks && t !in s.tasks ensures TaskOk(r.cells, r.book.asked, serial, t) {
      RegistersIn(ks, t);
    }
    forall k | k in r.book.registered ensures KeyOk(r.cells, k) {
      assert k in s.book.registered || k in ks;
    }
    Carry(s, serial, r);
  }

  lemma AssociateSafe(s: State, serial: bool, f: nat, g: nat)
    requires Safe(s, serial) && f < |s.cells| && Linkable(s.cells, f, g)
    ensures Safe(DoAssociate(s, f, g), serial)
  {
    var c := s.cells[f];
    if c.status.Pending? && c.source.None? {
      var d := c.(source := Some(g));
      var m := s.(cells := s.cells[f := d]);
      assert Grows(s.cells, m.cells);
      assert CellOk(s.cells, s.book.asked, serial, f);
      if c.marked { WantedStable(s.cells, m.cells, s.book.asked, s.book.asked, f); }
      BookStable(s.cells, m.cells, s.book);
      forall k | k in m.stored ensures Waiting(m.cells, k) {
        assert Waiting(s.cells, k);
      }
      Carry(s, serial, m);
      EnrolSafe(m, serial, LinkKeys(f, g));
    }
  }

  lemma ResetSafe(s: State, serial: bool, f: nat, reply: Reply)
    requires Safe(s, serial) && TaskOk(s.cells, s.book.asked, serial, Reset(f, reply))
    ensures Safe(DoReset(s, f, reply), serial)
  {
    var r := DoReset(s, f, reply);
    assert CellOk(s.cells, s.book.asked, serial, f);
    if s.cells[f].marked { WantedStable(s.cells, r.cells, s.book.asked, s.book.asked, f); }
    BookStable(s.cells, r.cells, s.book);
    assert TaskOk(r.cells, s.book.asked, serial, Answer(f, reply));
    forall k | k in r.stored ensures Waiting(r.cells, k) {
      assert Waiting(s.cells, k);
    }
    Carry(s, serial, r);
  }

  lemma TaskSafe(s: State, serial: bool, t: Task, reply: Reply)
    requires Safe(s, serial) && TaskOk(s.cells, s.book.asked, serial, t)
    requires CanRun(s.cells, t) && (reply.Chained? ==> reply.g < |s.cells|)
    ensures Safe(DoTask(s, serial, t, reply), serial)
  {
    match t {
      case Register(k) => RegisterSafe(s, serial, k);
      case Run(k) => RunSafe(s, serial, k, reply);
      case Promise(f, o) =>
        if s.cells[f].source.None? {
          if serial { CompleteSafe(s, serial, f, o); }
          else { Carry(s, serial, DoPromise(s, serial, f, o)); }
        }
      case Complete(f, o) => CompleteSafe(s, serial, f, o);
      case Discard(f) => DiscardSafe(s, serial, f);
      case Abandon(f, p) => AbandonSafe(s, serial, f, p);
      case Associate(f, g) => AssociateSafe(s, serial, f, g);
      case Reset(f, answer) => ResetSafe(s, serial, f, answer);
    }
  }

  lemma FreshSafe(s: State, serial: bool, c: Cell)
    requires Safe(s, serial) && !c.discard && !c.marked && c.source.None?
    requires c.origin.Promised? || (c.origin.src < |s.cells| && c.status.Pending?)
    ensures Safe(s.(cells := s.cells + [c]), serial)
  {
    var r := s.(cells := s.cells + [c]);
    BookStable(s.cells, r.cells, s.book);
    forall k | k in r.stored ensures Waiting(r.cells, k) {
      assert Waiting(s.cells, k);
    }
    Carry(s, serial, r);
  }

  lemma CallSafe(s: State, serial: bool, t: Task)
    requires Safe(s, serial) && UserTask(s, t)
    ensures Safe(Called(s, t), serial)
  {
    if t.Register? { EnrolSafe(s, serial, [t.k]); }
    else { Carry(s, serial, Called(s, t)); }
  }

  lemma ThenSafe(s: State, serial: bool, src: nat)
    requires Safe(s, serial) && src < |s.cells|
    ensures Safe(Do(s, serial, ThenOn(src)), serial)
  {
    FreshSafe(s, serial, New(Then(src)));
    EnrolSafe(Fresh(s, Then(src)), serial, ThenKeys(src, |s.cells|));
  }

  lemma RecoverSafe(s: State, serial: bool, src: nat)
    requires Safe(s, serial) && src < |s.cells|
    ensures Safe(Do(s, serial, RecoverOn(src)), serial)
  {
    FreshSafe(s, serial, New(Rescue(src)));
    EnrolSafe(Fresh(s, Rescue(src)), serial, RecoverKeys(src, |s.cells|));
  }

  lemma ShieldSafe(s: State, serial: bool, src: nat)
    requires Safe(s, serial) && src < |s.cells|
    ensures Safe(Do(s, serial, ShieldOn(src)), serial)
  {
    FreshSafe(s, serial, New(Shield(src)));
    EnrolSafe(Fresh(s, Shield(src)), serial, [Key(src, OnAny, Undiscard(|s.cells|))]);
  }

  lemma StepSafe(s: State, serial: bool, a: Action)
    requires Safe(s, serial) && Enabled(s, a)
    ensures Safe(Do(s, serial, a), serial)
  {
    match a {
      case Make(status, abandoned) => FreshSafe(s, serial, Cell(status, false, abandoned, None, Promised, false));
      case Call(t) => CallSafe(s, serial, t);
      case ThenOn(src) => ThenSafe(s, serial, src);
      case RecoverOn(src) => RecoverSafe(s, serial, src);
      case ShieldOn(src) => ShieldSafe(s, serial, src);
      case Perform(i, reply) =>
        var m := s.(tasks := Without(s.tasks, i));
        Carry(s, serial, m);
        TaskSafe(m, serial, s.tasks[i], reply);
    }
  }

  // ---------------------------------------------------------------- the ledger of callbacks

  function Holds(t: Task, k: Key): nat { if (t.Register? || t.Run?) && t.k == k then 1 else 0 }

  function Held(ts: seq<Task>, k: Key): nat { if ts == [] then 0 else Holds(ts[0], k) + Held(ts[1..], k) }

  /** How often `k` was registered beyond the places where it can be found. */
  function Lag(s: State, k: Key): int {
    s.book.registered[k] - Held(s.tasks, k) - multiset(s.stored)[k] - s.book.dropped[k] - s.book.ran[k]
  }

  /** Every registered callback is about to be registered, stored, due, invoked or destroyed, once. */
  ghost predicate Ledger(s: State) { forall k :: Lag(s, k) == 0 }

  lemma {:induction false} HeldApp(a: seq<Task>, b: seq<Task>, k: Key)
    ensures Held(a + b, k) == Held(a, k) + Held(b, k)
  {
    if a == [] {
      assert a + b == b;
    } else {
      assert (a + b)[1..] == a[1..] + b;
      HeldApp(a[1..], b, k);
    }
  }

  lemma HeldMiddle(ts: seq<Task>, a: seq<Task>, t: Task, b: seq<Task>, k: Key)
    requires ts == a + ([t] + b)
    ensures Held(ts, k) == Held(a + b, k) + Holds(t, k)
  {
    var c := [t] + b;
    assert c[1..] == b;
    HeldApp(a, c, k);
    HeldApp(a, b, k);
  }

  lemma {:induction false} HeldRuns(ks: seq<Key>, k: Key)
    ensures Held(Runs(ks), k) == multiset(ks)[k]
  {
    if ks != [] {
      HeldRuns(ks[1..], k);
      assert ks == [ks[0]] + ks[1..];
      assert Runs(ks)[1..] == Runs(ks[1..]);
    }
  }

  lemma {:induction false} HeldRegisters(ks: seq<Key>, k: Key)
    ensures Held(Registers(ks), k) == multiset(ks)[k]
  {
    if ks != [] {
      HeldRegisters(ks[1..], k);
      assert ks == [ks[0]] + ks[1..];
      assert Registers(ks)[1..] == Registers(ks[1..]);
    }
  }

  lemma {:induction false} PickSplits(ks: seq<Key>, f: nat, c: Cell)
    ensures multiset(ks) == multiset(Pick(ks, Fires(f, c))) + multiset(Pick(ks, Stays(f, c)))
                            + multiset(Pick(ks, Dies(f, c)))
  {
    if ks != [] {
      assert ks == [ks[0]] + ks[1..];
      PickSplits(ks[1..], f, c);
    }
  }

  lemma WakeLag(s: State, f: nat, c: Cell, k: Key)
    requires f < |s.cells|
    ensures Lag(Wake(s, f, c), k) == Lag(s, k)
  {
    var due := Pick(s.stored, Fires(f, c));
    HeldApp(s.tasks, Runs(due), k);
    HeldRuns(due, k);
    PickSplits(s.stored, f, c);
  }

  lemma EnrolLag(s: State, ks: seq<Key>, k: Key)
    ensures Lag(Enrol(s, ks), k) == Lag(s, k)
  {
    HeldApp(s.tasks, Registers(ks), k);
    HeldRegisters(ks, k);
  }

  lemma RegisterLag(s: State, k0: Key, k: Key)
    requires k0.on < |s.cells|
    ensures Lag(DoRegister(s, k0), k) == Lag(s, k) - Holds(Register(k0), k)
  {
    HeldApp(s.tasks, [Run(k0)], k);
  }

  lemma RunLag(s: State, k0: Key, reply: Reply, k: Key)
    requires k0.on < |s.cells|
    ensures Lag(DoRun(s, k0, reply), k) == Lag(s, k) - Holds(Run(k0), k)
  {
    var left := Leaves(k0, s.cells[k0.on], reply);
    assert Held(left, k) == 0;
    HeldApp(s.tasks, left, k);
  }

  lemma PromiseLag(s: State, serial: bool, f: nat, o: Outcome, k: Key)
    requires f < |s.cells|
    ensures Lag(DoPromise(s, serial, f, o), k) == Lag(s, k) == Lag(DoComplete(s, f, o), k)
  {
    WakeLag(s, f, s.cells[f].(status := Done(o)), k);
    HeldApp(s.tasks, [Complete(f, o)], k);
  }

  lemma AssociateLag(s: State, f: nat, g: nat, k: Key)
    requires f < |s.cells|
    ensures Lag(DoAssociate(s, f, g), k) == Lag(s, k)
  {
    var m := s.(cells := s.cells[f := s.cells[f].(source := Some(g))]);
    assert Lag(m, k) == Lag(s, k);
    EnrolLag(m, LinkKeys(f, g), k);
  }

  lemma TaskLag(s: State, serial: bool, t: Task, reply: Reply, k: Key)
    requires CanRun(s.cells, t)
    ensures Lag(DoTask(s, serial, t, reply), k) == Lag(s, k) - Holds(t, k)
  {
    match t {
      case Register(k0) => RegisterLag(s, k0, k);
      case Run(k0) => RunLag(s, k0, reply, k);
      case Promise(f, o) => PromiseLag(s, serial, f, o, k);
      case Complete(f, o) => PromiseLag(s, serial, f, o, k);
      case Discard(f) => WakeLag(s, f, s.cells[f].(discard := true, marked := true), k);
      case Abandon(f, p) => WakeLag(s, f, s.cells[f].(abandoned := true), k);
      case Associate(f, g) => AssociateLag(s, f, g, k);
      case Reset(f, answer) => HeldApp(s.tasks, [Answer(f, answer)], k);
    }
  }

  lemma PerformLag(s: State, serial: bool, i: nat, reply: Reply, k: Key)
    requires Enabled(s, Perform(i, reply))
    ensures Lag(Do(s, serial, Perform(i, reply)), k) == Lag(s, k)
  {
    HeldMiddle(s.tasks, s.tasks[..i], s.tasks[i], s.tasks[i + 1..], k);
    TaskLag(s.(tasks := Without(s.tasks, i)), serial, s.tasks[i], reply, k);
  }

  lemma FreshLag(s: State, origin: Origin, ks: seq<Key>, k: Key)
    ensures Lag(Enrol(Fresh(s, origin), ks), k) == Lag(s, k)
  {
    EnrolLag(Fresh(s, origin), ks, k);
  }

  lemma CallLag(s: State, t: Task, k: Key)
    requires UserTask(s, t)
    ensures Lag(Called(s, t), k) == Lag(s, k)
  {
    if t.Register? { EnrolLag(s, [t.k], k); } else { HeldApp(s.tasks, [t], k); }
  }

  lemma StepLag(s: State, serial: bool, a: Action, k: Key)
    requires Enabled(s, a)
    ensures Lag(Do(s, serial, a), k) == Lag(s, k)
  {
    match a {
      case Make(_, _) =>
      case Call(t) => CallLag(s, t, k);
      case ThenOn(src) => FreshLag(s, Then(src), ThenKeys(src, |s.cells|), k);
      case RecoverOn(src) => FreshLag(s, Rescue(src), RecoverKeys(src, |s.cells|), k);
      case ShieldOn(src) => FreshLag(s, Shield(src), [Key(src, OnAny, Undiscard(|s.cells|))], k);
      case Perform(i, reply) => PerformLag(s, serial, i, reply, k);
    }
  }

  // ---------------------------------------------------------------- the cascade ends

  /** How many steps a callback can still cause, from its invocation on. */
  function Price(k: Key): nat {
    match k.cb
    case User(_) => 1
    case Continue(_) => 17
    case Recover(_) => 18
    case Undiscard(_) => 17
    case _ => 2
  }

  function Cost(t: Task): nat {
    match t
    case Register(k) => Price(k) + 1
    case Run(k) => Price(k)
    case Promise(_, _) => 2
    case Associate(_, _) => 16
    case Reset(_, _) => 17
    case _ => 1
  }

  function Load(ts: seq<Task>): nat { if ts == [] then 0 else Cost(ts[0]) + Load(ts[1..]) }

  /** Bounds the steps left to take. */
  function Work(s: State): nat { Load(s.tasks) + Load(Runs(s.stored)) }

  lemma {:induction false} LoadApp(a: seq<Task>, b: seq<Task>)
    ensures Load(a + b) == Load(a) + Load(b)
  {
    if a == [] {
      assert a + b == b;
    } else {
      assert (a + b)[1..] == a[1..] + b;
      LoadApp(a[1..], b);
    }
  }

  lemma LoadMiddle(ts: seq<Task>, a: seq<Task>, t: Task, b: seq<Task>)
    requires ts == a + ([t] + b)
    ensures Load(ts) == Load(a + b) + Cost(t)
  {
    var c := [t] + b;
    assert c[1..] == b;
    LoadApp(a, c);
    LoadApp(a, b);
  }

  lemma {:induction false} LoadPicks(ks: seq<Key>, f: nat, c: Cell)
    ensures Load(Runs(Pick(ks, Fires(f, c)))) + Load(Runs(Pick(ks, Stays(f, c)))) <= Load(Runs(ks))
  {
    if ks != [] {
      var k := ks[0];
      LoadPicks(ks[1..], f, c);
      LoadCons(k, ks[1..]);
      LoadCons(k, Pick(ks[1..], Fires(f, c)));
      LoadCons(k, Pick(ks[1..], Stays(f, c)));
      assert ks == [k] + ks[1..];
    }
  }

  lemma LoadCons(k: Key, ks: seq<Key>)
    ensures Load(Runs([k] + ks)) == Price(k) + Load(Runs(ks))
    ensures [] + ks == ks
  {
    assert ([k] + ks)[1..] == ks;
    assert ([Run(k)] + Runs(ks))[1..] == Runs(ks);
  }

  lemma {:induction false} LoadSnoc(ks: seq<Key>, k: Key)
    ensures Load(Runs(ks + [k])) == Load(Runs(ks)) + Price(k)
  {
    if ks == [] {
      assert ks + [k] == [k] + [];
      LoadCons(k, []);
    } else {
      assert ks + [k] == [ks[0]] + (ks[1..] + [k]);
      assert ks == [ks[0]] + ks[1..];
      LoadCons(ks[0], ks[1..] + [k]);
      LoadCons(ks[0], ks[1..]);
      LoadSnoc(ks[1..], k);
    }
  }

  lemma WakeWork(s: State, f: nat, c: Cell)
    requires f < |s.cells|
    ensures Work(Wake(s, f, c)) <= Work(s)
  {
    LoadApp(s.tasks, Runs(Pick(s.stored, Fires(f, c))));
    LoadPicks(s.stored, f, c);
  }

  lemma {:induction false} RegistersWork(ks: seq<Key>)
    requires forall k :: k in ks ==> Price(k) <= 2
    ensures Load(Registers(ks)) <= 3 * |ks|
  {
    if ks != [] {
      RegistersWork(ks[1..]);
      assert Registers(ks)[1..] == Registers(ks[1..]);
    }
  }

  lemma EnrolWork(s: State, ks: seq<Key>)
    requires forall k :: k in ks ==> Price(k) <= 2
    ensures Work(Enrol(s, ks)) <= Work(s) + 3 * |ks|
  {
    LoadApp(s.tasks, Registers(ks));
    RegistersWork(ks);
  }

  lemma AssociateWork(s: State, f: nat, g: nat)
    requires f < |s.cells|
    ensures Work(DoAssociate(s, f, g)) <= Work(s) + 15
  {
    EnrolWork(Tie(s, f, g), LinkKeys(f, g));
  }

  lemma RegisterWork(s: State, k: Key)
    requires k.on < |s.cells|
    ensures Work(DoRegister(s, k)) <= Work(s) + Price(k)
  {
    LoadApp(s.tasks, [Run(k)]);
    LoadSnoc(s.stored, k);
  }

  lemma RunWork(s: State, k: Key, reply: Reply)
    requires k.on < |s.cells|
    ensures Work(DoRun(s, k, reply)) < Work(s) + Price(k)
  {
    var left := Leaves(k, s.cells[k.on], reply);
    assert Load(left) < Price(k);
    LoadApp(s.tasks, left);
  }

  lemma PromiseWork(s: State, serial: bool, f: nat, o: Outcome)
    requires f < |s.cells|
    ensures Work(DoPromise(s, serial, f, o)) <= Work(s) + 1 && Work(DoComplete(s, f, o)) <= Work(s)
  {
    WakeWork(s, f, s.cells[f].(status := Done(o)));
    LoadApp(s.tasks, [Complete(f, o)]);
  }

  lemma TaskWork(s: State, serial: bool, t: Task, reply: Reply)
    requires CanRun(s.cells, t)
    ensures Work(DoTask(s, serial, t, reply)) < Work(s) + Cost(t)
  {
    match t {
      case Register(k) => RegisterWork(s, k);
      case Run(k) => RunWork(s, k, reply);
      case Promise(f, o) => PromiseWork(s, serial, f, o);
      case Complete(f, o) => PromiseWork(s, serial, f, o);
      case Discard(f) => WakeWork(s, f, s.cells[f].(discard := true, marked := true));
      case Abandon(f, p) => WakeWork(s, f, s.cells[f].(abandoned := true));
      case Associate(f, g) => AssociateWork(s, f, g);
      case Reset(f, answer) => LoadApp(s.tasks, [Answer(f, answer)]);
    }
  }

  lemma PerformWork(s: State, serial: bool, i: nat, reply: Reply)
    requires Enabled(s, Perform(i, reply))
    ensures Work(Do(s, serial, Perform(i, reply))) < Work(s)
  {
    LoadMiddle(s.tasks, s.tasks[..i], s.tasks[i], s.tasks[i + 1..]);
    TaskWork(s.(tasks := Without(s.tasks, i)), serial, s.tasks[i], reply);
  }

  /** Whatever is performed, and in whatever order, the cascade ends within Work(s) steps. */
  lemma {:induction false} CascadeEnds(s: State, serial: bool, run: seq<Action>, d: State)
    requires Exec(s, serial, run) == At(d) && forall a :: a in run ==> a.Perform?
    ensures |run| + Work(d) <= Work(s)
    decreases |run|
  {
    if run != [] {
      var n := |run| - 1;
      var b := Exec(s, serial, run[..n]).s;
      CascadeEnds(s, serial, run[..n], b);
      assert run[n] in run;
      PerformWork(b, serial, run[n].i, run[n].reply);
    }
  }

  // ---------------------------------------------------------------- callbacks have effects

  predicate Drives(t: Task, f: nat) { (t.Promise? || t.Complete? || t.Associate? || t.Reset?) && t.f == f }

  /** What invoking `k` set off has happened or is still under way. */
  predicate Served(cs: seq<Cell>, ts: seq<Task>, k: Key) {
    KeyOk(cs, k) &&
    match k.cb
    case Forward(to) => cs[to].status.Done? || exists t :: t in ts && t.Complete? && t.f == to
    case Discarder(to) => cs[to].marked || cs[to].status.Done? || Discard(to) in ts
    case Abandoner(to, p) =>
      cs[to].abandoned || cs[to].status.Done? || (!p && cs[to].source.Some?) || Abandon(to, p) in ts
    case Continue(to) => cs[to].status.Done? || cs[to].source.Some? || exists t :: t in ts && Drives(t, to)
    case Recover(to) => cs[to].status.Done? || cs[to].source.Some? || exists t :: t in ts && Drives(t, to)
    case Undiscard(to) => cs[to].source.Some? || Associate(to, k.on) in ts
    case _ => true
  }

  predicate Effects(s: State) { forall k :: k in s.book.ran ==> Served(s.cells, s.tasks, k) }

  lemma ServedStable(cs: seq<Cell>, ts: seq<Task>, ds: seq<Cell>, us: seq<Task>, k: Key)
    requires Grows(cs, ds) && (forall t :: t in ts ==> t in us) && Served(cs, ts, k)
    ensures Served(ds, us, k)
  {
  }

  /** Performing `t` makes good what it stood for. */
  lemma ServedTask(s: State, serial: bool, t: Task, reply: Reply, k: Key)
    requires Safe(s, serial) && TaskOk(s.cells, s.book.asked, serial, t) && CanRun(s.cells, t)
    requires Served(s.cells, s.tasks + [t], k)
    ensures var r := DoTask(s, serial, t, reply); Served(r.cells, r.tasks, k)
  {
    var r := DoTask(s, serial, t, reply);
    assert s.tasks <= r.tasks;
    if Served(s.cells, s.tasks, k) {
      ServedStable(s.cells, s.tasks, r.cells, r.tasks, k);
    } else {
      Discharged(s, serial, t, reply, k);
    }
  }

  /** A task that drives `to` completes or associates it, or leaves a task that does. */
  lemma DrivenOn(s: State, serial: bool, t: Task, reply: Reply, to: nat)
    requires CanRun(s.cells, t) && Drives(t, to)
    ensures var r := DoTask(s, serial, t, reply);
      r.cells[to].status.Done? || r.cells[to].source.Some? || exists u :: u in r.tasks && Drives(u, to)
  {
    var r := DoTask(s, serial, t, reply);
    match t {
      case Promise(f, o) =>
        if s.cells[f].source.None? && !serial { assert Complete(f, o) in r.tasks && Drives(Complete(f, o), to); }
      case Complete(f, o) =>
      case Associate(f, g) =>
      case Reset(f, answer) =>
        assert Answer(f, answer) in r.tasks && Drives(Answer(f, answer), to);
    }
  }

  lemma Discharged(s: State, serial: bool, t: Task, reply: Reply, k: Key)
    requires Safe(s, serial) && TaskOk(s.cells, s.book.asked, serial, t) && CanRun(s.cells, t)
    requires Served(s.cells, s.tasks + [t], k) && !Served(s.cells, s.tasks, k)
    ensures var r := DoTask(s, serial, t, reply); Served(r.cells, r.tasks, k)
  {
    var to := k.cb.to;
    assert CellOk(s.cells, s.book.asked, serial, to);
    match k.cb {
      case Forward(_) => assert t.Complete? && t.f == to;
      case Discarder(_) => assert t == Discard(to);
      case Abandoner(_, p) => assert t == Abandon(to, p);
      case Continue(_) => DrivenOn(s, serial, t, reply, to);
      case Recover(_) => DrivenOn(s, serial, t, reply, to);
      case Undiscard(_) => assert t == Associate(to, k.on);
    }
  }

  lemma TakeSafe(s: State, serial: bool, i: nat)
    requires Safe(s, serial) && i < |s.tasks|
    ensures var m := s.(tasks := Without(s.tasks, i));
            Safe(m, serial) && TaskOk(m.cells, m.book.asked, serial, s.tasks[i])
            && forall u :: u in s.tasks ==> u in m.tasks + [s.tasks[i]]
  {
    assert s.tasks[i] in s.tasks;
    Carry(s, serial, s.(tasks := Without(s.tasks, i)));
  }

  lemma EffectsPerform(s: State, serial: bool, i: nat, reply: Reply)
    requires Safe(s, serial) && Effects(s) && Enabled(s, Perform(i, reply))
    ensures Effects(Do(s, serial, Perform(i, reply)))
  {
    var t := s.tasks[i];
    var m := s.(tasks := Without(s.tasks, i));
    var r := DoTask(m, serial, t, reply);
    TakeSafe(s, serial, i);
    forall k | k in r.book.ran ensures Served(r.cells, r.tasks, k) {
      EffectOfOne(s, m, serial, t, reply, k);
    }
  }

  lemma EffectOfOne(s: State, m: State, serial: bool, t: Task, reply: Reply, k: Key)
    requires Effects(s) && Safe(m, serial) && TaskOk(m.cells, m.book.asked, serial, t) && CanRun(m.cells, t)
    requires m.cells == s.cells && m.book == s.book && forall u :: u in s.tasks ==> u in m.tasks + [t]
    requires k in DoTask(m, serial, t, reply).book.ran
    ensures var r := DoTask(m, serial, t, reply); Served(r.cells, r.tasks, k)
  {
    if k in s.book.ran {
      ServedStable(s.cells, s.tasks, s.cells, m.tasks + [t], k);
      ServedTask(m, serial, t, reply, k);
    } else {
      RanIs(m, serial, t, reply, k);
      RunServes(m, k, reply);
    }
  }

  /** Only invoking `k` records it as invoked. */
  lemma RanIs(s: State, serial: bool, t: Task, reply: Reply, k: Key)
    requires CanRun(s.cells, t) && k !in s.book.ran && k in DoTask(s, serial, t, reply).book.ran
    ensures t == Run(k)
  {
    match t {
      case Register(_) =>
      case Run(_) =>
      case Promise(f, o) =>
      case Complete(f, o) =>
      case Discard(f) =>
      case Abandon(f, p) =>
      case Associate(f, g) =>
      case Reset(f, answer) =>
    }
  }

  lemma RunServes(s: State, k: Key, reply: Reply)
    requires Fired(s.cells, k)
    ensures var r := DoRun(s, k, reply); Served(r.cells, r.tasks, k)
  {
    var left := Leaves(k, s.cells[k.on], reply);
    var r := DoRun(s, k, reply);
    if left != [] {
      assert left[0] in r.tasks;
      assert k.cb.Continue? || k.cb.Recover? ==> Drives(left[0], k.cb.to);
    }
  }

  lemma EffectsStep(s: State, serial: bool, a: Action)
    requires Safe(s, serial) && Effects(s) && Enabled(s, a)
    ensures Effects(Do(s, serial, a))
  {
    if a.Perform? {
      EffectsPerform(s, serial, a.i, a.reply);
    } else {
      var r := Do(s, serial, a);
      StepGrows(s, serial, a);
      assert s.tasks <= r.tasks && r.book.ran == s.book.ran;
      forall k | k in r.book.ran ensures Served(r.cells, r.tasks, k) {
        ServedStable(s.cells, s.tasks, r.cells, r.tasks, k);
      }
    }
  }

  /** The callbacks that association, `then` and `undiscardable` rely on are registered. */
  predicate Wired(b: Book, f: nat, c: Cell) {
    && (c.source.Some? ==>
          var g := c.source.value;
          && Key(g, OnReady, Forward(f)) in b.registered && Key(g, OnFailed, Forward(f)) in b.registered
          && Key(g, OnDiscarded, Forward(f)) in b.registered && Key(f, OnDiscard, Discarder(g)) in b.registered
          && Key(g, OnAbandoned, Abandoner(f, true)) in b.registered)
    && (c.origin.Then? ==> b.registered[Key(c.origin.src, OnAny, Continue(f))] == 1
                           && Key(f, OnDiscard, Discarder(c.origin.src)) in b.registered
                           && Key(c.origin.src, OnAbandoned, Abandoner(f, false)) in b.registered)
    && (c.origin.Rescue? ==> b.registered[Key(c.origin.src, OnAny, Recover(f))] == 1
                             && Key(c.origin.src, OnAbandoned, Recover(f)) in b.registered
                             && Key(f, OnDiscard, Discarder(c.origin.src)) in b.registered)
    && (c.origin.Shield? ==> Key(c.origin.src, OnAny, Undiscard(f)) in b.registered)
  }

  predicate AllWired(s: State) { forall f: nat :: f < |s.cells| ==> Wired(s.book, f, s.cells[f]) }

  /** More registrations do no harm, as long as the callback of a `then` or a `recover` is not registered again. */
  lemma WiredMore(b: Book, ks: seq<Key>, f: nat, c: Cell)
    requires Wired(b, f, c) && forall k :: k in ks && (k.cb.Continue? || k.cb.Recover?) ==> k.cb.to != f
    ensures Wired(b.(registered := b.registered + multiset(ks)), f, c)
  {
    if c.origin.Then? {
      var k := Key(c.origin.src, OnAny, Continue(f));
      assert multiset(ks)[k] == 0 by { assert k !in ks; }
    } else if c.origin.Rescue? {
      var k := Key(c.origin.src, OnAny, Recover(f));
      assert multiset(ks)[k] == 0 by { assert k !in ks; }
    }
  }

  lemma EnrolWired(s: State, ks: seq<Key>)
    requires AllWired(s) && forall k :: k in ks ==> !k.cb.Continue? && !k.cb.Recover?
    ensures AllWired(Enrol(s, ks))
  {
    forall f: nat | f < |s.cells| ensures Wired(Enrol(s, ks).book, f, s.cells[f]) {
      WiredMore(s.book, ks, f, s.cells[f]);
    }
  }

  lemma WakeWired(s: State, f: nat, c: Cell)
    requires AllWired(s) && f < |s.cells| && c.source == s.cells[f].source && c.origin == s.cells[f].origin
    ensures AllWired(Wake(s, f, c))
  {
    var r := Wake(s, f, c);
    forall g: nat | g < |r.cells| ensures Wired(r.book, g, r.cells[g]) {
      assert Wired(s.book, g, s.cells[g]);
    }
  }

  lemma AssociateWired(s: State, f: nat, g: nat)
    requires AllWired(s) && f < |s.cells|
    ensures AllWired(DoAssociate(s, f, g))
  {
    var r := DoAssociate(s, f, g);
    if s.cells[f].status.Pending? && s.cells[f].source.None? {
      forall h: nat | h < |r.cells| ensures Wired(r.book, h, r.cells[h]) {
        LinkedWired(s.book, f, g, h, s.cells[h]);
      }
    }
  }

  lemma LinkedWired(b: Book, f: nat, g: nat, h: nat, c: Cell)
    requires Wired(b, h, c)
    ensures var r := b.(registered := b.registered + multiset(LinkKeys(f, g)));
      Wired(r, h, if h == f then c.(source := Some(g)) else c)
  {
    WiredMore(b, LinkKeys(f, g), h, c);
    if h == f { WiredLink(b, f, g, c); }
  }

  lemma WiredLink(b: Book, f: nat, g: nat, c: Cell)
    requires Wired(b.(registered := b.registered + multiset(LinkKeys(f, g))), f, c)
    ensures Wired(b.(registered := b.registered + multiset(LinkKeys(f, g))), f, c.(source := Some(g)))
  {
    forall k | k in LinkKeys(f, g) ensures k in b.registered + multiset(LinkKeys(f, g)) {
      assert k in multiset(LinkKeys(f, g));
    }
  }

  lemma ResetWired(s: State, f: nat, reply: Reply)
    requires AllWired(s) && f < |s.cells| && s.cells[f].origin.Rescue?
    ensures AllWired(DoReset(s, f, reply))
  {
    var r := DoReset(s, f, reply);
    forall g: nat | g < |r.cells| ensures Wired(r.book, g, r.cells[g]) {
      assert Wired(s.book, g, s.cells[g]);
    }
  }

  lemma PromiseWired(s: State, serial: bool, f: nat, o: Outcome)
    requires AllWired(s) && f < |s.cells|
    ensures AllWired(DoPromise(s, serial, f, o)) && AllWired(DoComplete(s, f, o))
  {
    WakeWired(s, f, s.cells[f].(status := Done(o)));
  }

  lemma SameWired(s: State, r: State)
    requires AllWired(s) && r.cells == s.cells && r.book.registered == s.book.registered
    ensures AllWired(r)
  {
    forall f: nat | f < |r.cells| ensures Wired(r.book, f, r.cells[f]) {
      assert Wired(s.book, f, s.cells[f]);
    }
  }

  lemma TaskWired(s: State, serial: bool, t: Task, reply: Reply)
    requires AllWired(s) && CanRun(s.cells, t)
    ensures AllWired(DoTask(s, serial, t, reply))
  {
    match t {
      case Register(k) => SameWired(s, DoRegister(s, k));
      case Run(k) => SameWired(s, DoRun(s, k, reply));
      case Promise(f, o) => PromiseWired(s, serial, f, o);
      case Complete(f, o) => PromiseWired(s, serial, f, o);
      case Discard(f) => WakeWired(s, f, s.cells[f].(discard := true, marked := true));
      case Abandon(f, p) => WakeWired(s, f, s.cells[f].(abandoned := true));
      case Associate(f, g) => AssociateWired(s, f, g);
      case Reset(f, answer) => ResetWired(s, f, answer);
    }
  }

  lemma FreshWired(s: State, c: Cell, ks: seq<Key>)
    requires AllWired(s) && BookOk(s.cells, s.book)
    requires Wired(Book(multiset(ks), multiset{}, multiset{}, {}, map[]), |s.cells|, c)
    requires forall k :: k in ks && (k.cb.Continue? || k.cb.Recover?) ==> k.cb.to == |s.cells|
    ensures AllWired(Enrol(s.(cells := s.cells + [c]), ks))
  {
    var r := Enrol(s.(cells := s.cells + [c]), ks);
    forall f: nat | f < |r.cells| ensures Wired(r.book, f, r.cells[f]) {
      if f < |s.cells| {
        WiredMore(s.book, ks, f, s.cells[f]);
      } else if c.origin.Then? {
        var k := Key(c.origin.src, OnAny, Continue(f));
        assert s.book.registered[k] == 0 by { assert !KeyOk(s.cells, k); }
      } else if c.origin.Rescue? {
        var k := Key(c.origin.src, OnAny, Recover(f));
        assert s.book.registered[k] == 0 by { assert !KeyOk(s.cells, k); }
      }
    }
  }

  lemma ThenWired(s: State, serial: bool, src: nat)
    requires AllWired(s) && BookOk(s.cells, s.book) && src < |s.cells|
    ensures AllWired(Do(s, serial, ThenOn(src)))
  {
    FreshWired(s, New(Then(src)), ThenKeys(src, |s.cells|));
  }

  lemma RecoverWired(s: State, serial: bool, src: nat)
    requires AllWired(s) && BookOk(s.cells, s.book) && src < |s.cells|
    ensures AllWired(Do(s, serial, RecoverOn(src)))
  {
    FreshWired(s, New(Rescue(src)), RecoverKeys(src, |s.cells|));
  }

  lemma ShieldWired(s: State, serial: bool, src: nat)
    requires AllWired(s) && BookOk(s.cells, s.book) && src < |s.cells|
    ensures AllWired(Do(s, serial, ShieldOn(src)))
  {
    FreshWired(s, New(Shield(src)), [Key(src, OnAny, Undiscard(|s.cells|))]);
  }

  lemma StepWired(s: State, serial: bool, a: Action)
    requires AllWired(s) && BookOk(s.cells, s.book) && Enabled(s, a)
    ensures AllWired(Do(s, serial, a))
  {
    match a {
      case Make(_, _) =>
      case Call(t) => if t.Register? { EnrolWired(s, [t.k]); }
      case ThenOn(src) => ThenWired(s, serial, src);
      case RecoverOn(src) => RecoverWired(s, serial, src);
      case ShieldOn(src) => ShieldWired(s, serial, src);
      case Perform(i, reply) => TaskWired(s.(tasks := Without(s.tasks, i)), serial, s.tasks[i], reply);
    }
  }

  // ---------------------------------------------------------------- the whole invariant, over all runs

  ghost predicate Inv(s: State, serial: bool) { Safe(s, serial) && Ledger(s) && Effects(s) && AllWired(s) }

  lemma InvKept(s: State, serial: bool, a: Action)
    requires Inv(s, serial) && Enabled(s, a)
    ensures Inv(Do(s, serial, a), serial)
  {
    StepSafe(s, serial, a);
    EffectsStep(s, serial, a);
    StepWired(s, serial, a);
    forall k ensures Lag(Do(s, serial, a), k) == 0 {
      StepLag(s, serial, a, k);
    }
  }

  lemma {:induction false} RunKeepsInv(s: State, serial: bool, run: seq<Action>, d: State)
    requires Inv(s, serial) && Exec(s, serial, run) == At(d)
    ensures Inv(d, serial)
    decreases |run|
  {
    if run != [] {
      var b := Exec(s, serial, run[..|run| - 1]).s;
      RunKeepsInv(s, serial, run[..|run| - 1], b);
      InvKept(b, serial, run[|run| - 1]);
    }
  }

  lemma InvAlways(s: State, serial: bool)
    requires Reachable(s, serial)
    ensures Inv(s, serial)
  {
    var run :| Exec(INITIAL, serial, run) == At(s);
    RunKeepsInv(INITIAL, serial, run, s);
  }

  /** As long as anything is in hand, any of it can be performed. */
  lemma NeverStuck(s: State, serial: bool, i: nat, v: Value)
    requires Reachable(s, serial) && i < |s.tasks|
    ensures Enabled(s, Perform(i, Plain(v)))
  {
    InvAlways(s, serial);
    assert s.tasks[i] in s.tasks;
  }

  // ---------------------------------------------------------------- callbacks run exactly once

  lemma {:induction false} HeldIn(ts: seq<Task>, k: Key)
    ensures Held(ts, k) > 0 <==> Register(k) in ts || Run(k) in ts
  {
    if ts != [] {
      HeldIn(ts[1..], k);
      assert ts == [ts[0]] + ts[1..];
    }
  }

  /** A callback that nobody is about to register or to run has been invoked exactly as often as it was
      registered if what it waits for came to pass, and otherwise never. */
  lemma CallbacksRunOnce(s: State, serial: bool, k: Key)
    requires Reachable(s, serial) && k in s.book.registered && Register(k) !in s.tasks && Run(k) !in s.tasks
    ensures k.on < |s.cells|
    ensures !(k.kind.OnDiscard? && s.cells[k.on].origin.Rescue?) ==>
              s.book.ran[k] == if Matches(k.kind, s.cells[k.on]) then s.book.registered[k] else 0
  {
    InvAlways(s, serial);
    HeldIn(s.tasks, k);
    assert KeyOk(s.cells, k) && CellOk(s.cells, s.book.asked, serial, k.on);
    assert Lag(s, k) == 0;
    assert k in s.stored ==> Waiting(s.cells, k);
    assert k in s.book.dropped ==> Dead(s.cells, k);
    assert k in s.book.ran ==> Fired(s.cells, k);
  }

  lemma {:induction false} PickCount(ks: seq<Key>, p: Key -> bool, k: Key)
    ensures multiset(Pick(ks, p))[k] == if p(k) then multiset(ks)[k] else 0
  {
    if ks != [] {
      assert ks == [ks[0]] + ks[1..];
      PickCount(ks[1..], p, k);
    }
  }

  /** A completion makes due exactly the stored callbacks of its own kind and the on-any ones, each as often as
      it was stored, and leaves none behind. */
  lemma CompletionWakes(s: State, serial: bool, f: nat, o: Outcome, k: Key)
    requires Reachable(s, serial) && f < |s.cells| && s.cells[f].status.Pending? && k.on == f
    ensures var r := DoComplete(s, f, o);
            var kind := if o.Ready? then OnReady else if o.Failed? then OnFailed else OnDiscarded;
            && Held(r.tasks, k) == Held(s.tasks, k)
                                   + (if k.kind.OnAny? || k.kind == kind then multiset(s.stored)[k] else 0)
            && k !in r.stored
  {
    InvAlways(s, serial);
    var c := s.cells[f].(status := Done(o));
    assert k in s.stored ==> Waiting(s.cells, k);
    assert k !in s.stored ==> multiset(s.stored)[k] == 0;
    var due := Pick(s.stored, Fires(f, c));
    HeldApp(s.tasks, Runs(due), k);
    HeldRuns(due, k);
    PickCount(s.stored, Fires(f, c), k);
    PickIn(s.stored, Stays(f, c), k);
  }

  /** At any time, a callback is invoked no more often than registered, and only for cause. */
  lemma NoStrayCallback(s: State, serial: bool, k: Key)
    requires Reachable(s, serial) && k in s.book.ran
    ensures k.on < |s.cells| && (Matches(k.kind, s.cells[k.on]) || (k.kind.OnDiscard? && s.cells[k.on].marked))
    ensures s.book.ran[k] <= s.book.registered[k]
  {
    InvAlways(s, serial);
    assert Fired(s.cells, k);
    assert Lag(s, k) == 0;
  }

  /** A callback that is due and in nobody's hand has been invoked. */
  lemma Comes(s: State, serial: bool, k: Key)
    requires Inv(s, serial) && k in s.book.registered && KeyOk(s.cells, k) && Matches(k.kind, s.cells[k.on])
    requires Register(k) !in s.tasks && Run(k) !in s.tasks
    ensures Served(s.cells, s.tasks, k)
  {
    HeldIn(s.tasks, k);
    assert Lag(s, k) == 0;
    assert k in s.stored ==> Waiting(s.cells, k);
    assert k in s.book.dropped ==> Dead(s.cells, k);
    assert k in s.book.ran;
  }

  // ---------------------------------------------------------------- association

  predicate Path(s: State, p: seq<nat>) {
    && |p| > 0
    && (forall i :: 0 <= i < |p| ==> p[i] < |s.cells|)
    && (forall i :: 0 <= i < |p| - 1 ==> s.cells[p[i]].source == Some(p[i + 1]))
  }

  /** No future has an outcome that the future it is associated with does not have. */
  predicate Agrees(s: State) {
    forall f: nat :: f < |s.cells| && s.cells[f].source.Some? && s.cells[f].status.Done? ==>
                 Inherited(s.cells, f, s.cells[f].status.o)
  }

  lemma LinkSettles(s: State, f: nat)
    requires Inv(s, true) && f < |s.cells| && s.cells[f].source.Some? && Idle(s, f)
    ensures s.cells[f].source.value < |s.cells|
    ensures s.cells[f].status == s.cells[s.cells[f].source.value].status
  {
    assert CellOk(s.cells, s.book.asked, true, f);
    var g := s.cells[f].source.value;
    var c := s.cells[g];
    if c.status.Done? {
      var kind := if c.status.o.Ready? then OnReady else if c.status.o.Failed? then OnFailed else OnDiscarded;
      var k := Key(g, kind, Forward(f));
      assert Wired(s.book, f, s.cells[f]);
      assert k in LinkKeys(f, g);
      assert k in s.book.registered && KeyOk(s.cells, k);
      assert About(Register(k), f) && About(Run(k), f);
      Comes(s, true, k);
    }
  }

  /** However futures are associated, all of a path have the status of its end once nobody has anything in hand
      about those before the end. */
  lemma {:induction false} OutcomeTravels(s: State, p: seq<nat>)
    requires Reachable(s, true) && Path(s, p) && forall i :: 0 <= i < |p| - 1 ==> Idle(s, p[i])
    ensures s.cells[p[0]].status == s.cells[p[|p| - 1]].status
  {
    InvAlways(s, true);
    if |p| > 1 {
      assert s.cells[p[0]].source == Some(p[0 + 1]);
      LinkSettles(s, p[0]);
      OutcomeTravels(s, p[1..]);
    }
  }

  lemma OneMore(serial: bool, run: seq<Action>, s: State, a: Action)
    requires Exec(INITIAL, serial, run) == At(s) && Enabled(s, a)
    ensures Exec(INITIAL, serial, run + [a]) == At(Do(s, serial, a))
  {
    assert (run + [a])[..|run|] == run;
  }

  /** A promise completed by one thread while another associates it: it takes its own outcome, although
      the future it is now associated with has none. */
  lemma ClashDisagrees() returns (d: State)
    ensures Reachable(d, false) && !Agrees(d)
  {
    var run, s := Checked();
    run, s := Tied(run, s);
    run, d := Completed(run, s, Chained(0));
    assert !Inherited(d.cells, 0, d.cells[0].status.o);
  }

  /** Meanwhile the promise is associated. */
  lemma Tied(run: seq<Action>, s: State) returns (longer: seq<Action>, d: State)
    requires Exec(INITIAL, false, run) == At(s) && s.tasks == [Complete(0, Discarded)]
    requires |s.cells| == 2 && s.cells[0] == s.cells[1] == New(Promised)
    ensures Exec(INITIAL, false, longer) == At(d) && |d.tasks| > 0 && d.tasks[0] == Complete(0, Discarded)
    ensures |d.cells| == 2 && d.cells[0].source == Some(1)
    ensures d.cells[0].status.Pending? && d.cells[1].status.Pending?
  {
    var m;
    longer, m := Took(run, s, Call(Associate(0, 1)));
    assert m.tasks[1] == Associate(0, 1) && Without(m.tasks, 1) == s.tasks;
    longer, d := Took(longer, m, Perform(1, Chained(0)));
    assert d == DoAssociate(s, 0, 1);
  }

  /** The promise has passed its check and not yet taken the lock. */
  lemma Checked() returns (run: seq<Action>, d: State)
    ensures Exec(INITIAL, false, run) == At(d) && d.tasks == [Complete(0, Discarded)]
    ensures var c := New(Promised); d.cells == [c, c]
  {
    run, d := [], INITIAL;
    run, d := Took(run, d, Make(Pending, false));
    run, d := Took(run, d, Make(Pending, false));
    run, d := Took(run, d, Call(Promise(0, Discarded)));
    assert Without(d.tasks, 0) == [];
    run, d := Took(run, d, Perform(0, Chained(0)));
  }

  lemma Completed(run: seq<Action>, s: State, reply: Reply) returns (longer: seq<Action>, d: State)
    requires Exec(INITIAL, false, run) == At(s) && |s.tasks| > 0 && s.tasks[0] == Complete(0, Discarded)
    requires |s.cells| == 2 && s.cells[0].status.Pending? && reply == Chained(0)
    ensures Exec(INITIAL, false, longer) == At(d)
    ensures d.cells == s.cells[0 := s.cells[0].(status := Done(Discarded))]
  {
    longer, d := Took(run, s, Perform(0, reply));
  }

  lemma Took(run: seq<Action>, s: State, a: Action) returns (longer: seq<Action>, d: State)
    requires Exec(INITIAL, false, run) == At(s) && Enabled(s, a)
    ensures Exec(INITIAL, false, longer) == At(d) && d == Do(s, false, a)
  {
    longer, d := run + [a], Do(s, false, a);
    OneMore(false, run, s, a);
  }

  /** Associated futures agree in every run if and only if no promise is completed and associated at
      the same time. */
  lemma AgreeIffSerial(serial: bool)
    ensures (forall s :: Reachable(s, serial) ==> Agrees(s)) <==> serial
  {
    if serial {
      forall s | Reachable(s, serial) ensures Agrees(s) {
        InvAlways(s, serial);
        forall f: nat | f < |s.cells| && s.cells[f].source.Some? && s.cells[f].status.Done?
          ensures Inherited(s.cells, f, s.cells[f].status.o)
        {
          assert CellOk(s.cells, s.book.asked, serial, f);
        }
      }
    } else {
      var d := ClashDisagrees();
    }
  }

  // ---------------------------------------------------------------- chains of then

  predicate Chain(s: State, c: seq<nat>) {
    && |c| > 0
    && (forall i :: 0 <= i < |c| ==> c[i] < |s.cells|)
    && (forall i :: 0 < i < |c| ==> s.cells[c[i]].origin == Then(c[i - 1]))
  }

  lemma LinkOfChain(s: State, serial: bool, f: nat)
    requires Inv(s, serial) && f < |s.cells| && s.cells[f].origin.Then?
    ensures s.cells[f].origin.src < f
    ensures var src := s.cells[f].origin.src;
            var c := s.cells[src];
            && (s.cells[f].status.Done? ==> c.status.Done?)
            && (Known(c).Some? ==> f !in s.book.called)
            && (Known(c).Some? && Idle(s, f) ==> s.cells[f].status == Done(Known(c).value))
            && (s.cells[f].discard && c.status.Pending? && Idle(s, f) && Idle(s, src) ==> c.marked)
            && (c.marked && !c.origin.Rescue? ==> c.discard)
  {
    assert CellOk(s.cells, s.book.asked, serial, f);
    assert Wired(s.book, f, s.cells[f]);
    var src := s.cells[f].origin.src;
    assert CellOk(s.cells, s.book.asked, serial, src);
    assert f in s.book.called ==> Callable(s.cells, f);
    if Known(s.cells[src]).Some? && Idle(s, f) {
      var k := Key(src, OnAny, Continue(f));
      assert KeyOk(s.cells, k) && About(Register(k), f) && About(Run(k), f);
      Comes(s, serial, k);
    }
    if s.cells[f].discard && Idle(s, f) && Idle(s, src) {
      var k := Key(f, OnDiscard, Discarder(src));
      assert KeyOk(s.cells, k) && About(Register(k), f) && About(Run(k), f) && About(Discard(src), src);
      Comes(s, serial, k);
    }
  }

  /** What stops a chain at its head stops all of it up to any future behind which nobody has anything in hand,
      and no continuation was called. */
  lemma {:induction false} ChainStops(s: State, serial: bool, c: seq<nat>, i: nat)
    requires Reachable(s, serial) && Chain(s, c) && 0 < i < |c| && Known(s.cells[c[0]]).Some?
    requires forall j :: 0 < j <= i ==> Idle(s, c[j])
    ensures s.cells[c[i]].status == Done(Known(s.cells[c[0]]).value)
    ensures c[i] !in s.book.called
  {
    InvAlways(s, serial);
    assert s.cells[c[i]].origin == Then(c[i - 1]);
    LinkOfChain(s, serial, c[i]);
    if i > 1 {
      ChainStops(s, serial, c, i - 1);
    }
  }

  /** A discard requested at the end of a chain with a pending head has marked all of it once nobody has
      anything in hand about the chain. */
  lemma {:induction false} DiscardClimbs(s: State, serial: bool, c: seq<nat>, i: nat)
    requires Reachable(s, serial) && Chain(s, c) && i < |c| && forall j :: i <= j < |c| ==> Idle(s, c[j])
    requires s.cells[c[0]].status.Pending? && s.cells[c[|c| - 1]].discard
    ensures s.cells[c[i]].status.Pending? && s.cells[c[i]].marked
    ensures i > 0 || !s.cells[c[0]].origin.Rescue? ==> s.cells[c[i]].discard
    decreases |c| - i
  {
    InvAlways(s, serial);
    PendingBelow(s, serial, c, i);
    Marks(s, serial, c[i]);
    assert i > 0 ==> s.cells[c[i]].origin == Then(c[i - 1]);
    if i < |c| - 1 {
      DiscardClimbs(s, serial, c, i + 1);
      assert s.cells[c[i + 1]].origin == Then(c[i + 1 - 1]);
      LinkOfChain(s, serial, c[i + 1]);
    }
  }

  lemma Marks(s: State, serial: bool, f: nat)
    requires Inv(s, serial) && f < |s.cells|
    ensures s.cells[f].discard ==> s.cells[f].marked
    ensures s.cells[f].marked && !s.cells[f].origin.Rescue? ==> s.cells[f].discard
  {
    assert CellOk(s.cells, s.book.asked, serial, f);
  }

  lemma {:induction false} PendingBelow(s: State, serial: bool, c: seq<nat>, i: nat)
    requires Inv(s, serial) && Chain(s, c) && i < |c| && s.cells[c[0]].status.Pending?
    ensures s.cells[c[i]].status.Pending?
  {
    if i > 0 {
      PendingBelow(s, serial, c, i - 1);
      LinkOfChain(s, serial, c[i]);
    }
  }

  /** The callback of a `then` runs once if the future before it completes, and never otherwise. */
  lemma ContinuesOnce(s: State, serial: bool, f: nat)
    requires Reachable(s, serial) && f < |s.cells| && s.cells[f].origin.Then?
    ensures s.cells[f].origin.src < f
    ensures var k, c := Key(s.cells[f].origin.src, OnAny, Continue(f)), s.cells[s.cells[f].origin.src];
            && s.book.ran[k] <= (if c.status.Done? then 1 else 0)
            && (c.status.Done? && Register(k) !in s.tasks && Run(k) !in s.tasks ==> s.book.ran[k] == 1)
            && (c.status.Done? && Idle(s, f) ==> s.cells[f].status.Done? || s.cells[f].source.Some?)
  {
    InvAlways(s, serial);
    assert CellOk(s.cells, s.book.asked, serial, f);
    assert Wired(s.book, f, s.cells[f]);
    var k := Key(s.cells[f].origin.src, OnAny, Continue(f));
    assert KeyOk(s.cells, k);
    if k in s.book.ran {
      NoStrayCallback(s, serial, k);
    }
    assert About(Register(k), f) && About(Run(k), f);
    if Matches(OnAny, s.cells[k.on]) && Register(k) !in s.tasks && Run(k) !in s.tasks {
      CallbacksRunOnce(s, serial, k);
      Comes(s, serial, k);
    }
  }

  /** Once a discard has marked the pending futures of a chain before its last, nothing that happens then or
      later, to the head or to anything else, calls a continuation; a head that still becomes READY leaves
      everything after it DISCARDED, and one that fails leaves everything after it failed with the same message. */
  lemma DiscardedChain(s: State, serial: bool, later: seq<Action>, d: State, c: seq<nat>, i: nat)
    requires Reachable(s, serial) && Chain(s, c) && 0 < i < |c| && Exec(s, serial, later) == At(d)
    requires forall j :: 0 <= j < i ==> s.cells[c[j]].discard && s.cells[c[j]].status.Pending?
    requires !s.cells[c[0]].origin.Rescue?
    ensures Grows(s.cells, d.cells) && c[i] !in d.book.called
    ensures d.cells[c[0]].status.Done? && (forall j :: 0 < j <= i ==> Idle(d, c[j])) ==>
              d.cells[c[i]].status ==
              Done(if d.cells[c[0]].status.o.Ready? then Discarded else d.cells[c[0]].status.o)
  {
    InvAlways(s, serial);
    NeverUnset(s, serial, later, d);
    RunKeepsInv(s, serial, later, d);
    assert s.cells[c[i]].origin == Then(c[i - 1]);
    assert i - 1 > 0 ==> s.cells[c[i - 1]].origin == Then(c[i - 1 - 1]);
    StaysMarked(s, d, c[0]);
    StaysMarked(s, d, c[i - 1]);
    NotCalled(d, serial, c[i]);
    if d.cells[c[0]].status.Done? && (forall j :: 0 < j <= i ==> Idle(d, c[j])) {
      ChainGrows(s, d, c);
      Onward(s, serial, later, d);
      ChainStops(d, serial, c, i);
    }
  }

  lemma StaysMarked(s: State, d: State, f: nat)
    requires Grows(s.cells, d.cells) && f < |s.cells| && s.cells[f].discard && !s.cells[f].origin.Rescue?
    ensures d.cells[f].discard && !d.cells[f].origin.Rescue?
  {
  }

  lemma ChainGrows(s: State, d: State, c: seq<nat>)
    requires Grows(s.cells, d.cells) && Chain(s, c)
    ensures Chain(d, c)
  {
  }

  /** No continuation is called after a discard that is still in force. */
  lemma NotCalled(d: State, serial: bool, f: nat)
    requires Inv(d, serial) && f < |d.cells| && d.cells[f].origin.Then? && d.cells[f].origin.src < |d.cells|
    requires d.cells[d.cells[f].origin.src].discard && !d.cells[d.cells[f].origin.src].origin.Rescue?
    ensures f !in d.book.called
  {
    assert f in d.book.called ==> Callable(d.cells, f);
  }

  lemma {:induction false} Onward(s: State, serial: bool, later: seq<Action>, d: State)
    requires Reachable(s, serial) && Exec(s, serial, later) == At(d)
    ensures Reachable(d, serial)
    decreases |later|
  {
    if later != [] {
      var n := |later| - 1;
      var b := Exec(s, serial, later[..n]).s;
      Onward(s, serial, later[..n], b);
      StepReaches(b, serial, later[n]);
    }
  }

  lemma StepReaches(s: State, serial: bool, a: Action)
    requires Reachable(s, serial) && Enabled(s, a)
    ensures Reachable(Do(s, serial, a), serial)
  {
    var run :| Exec(INITIAL, serial, run) == At(s);
    OneMore(serial, run, s, a);
  }

  // ---------------------------------------------------------------- discards do not cross a shield

  /** undiscardable() passes every outcome on: its result has the status of its input once nobody has anything in
      hand about it. */
  lemma ShieldPasses(s: State, serial: bool, f: nat)
    requires Reachable(s, serial) && f < |s.cells| && s.cells[f].origin.Shield? && Idle(s, f)
    ensures s.cells[f].origin.src < f
    ensures s.cells[f].status == s.cells[s.cells[f].origin.src].status
  {
    InvAlways(s, serial);
    var src := s.cells[f].origin.src;
    assert CellOk(s.cells, s.book.asked, serial, f);
    assert Wired(s.book, f, s.cells[f]);
    if s.cells[src].status.Done? {
      var k := Key(src, OnAny, Undiscard(f));
      assert KeyOk(s.cells, k) && About(Register(k), f) && About(Run(k), f) && About(Associate(f, src), f);
      Comes(s, serial, k);
      var o := s.cells[src].status.o;
      var kind := if o.Ready? then OnReady else if o.Failed? then OnFailed else OnDiscarded;
      var j := Key(src, kind, Forward(f));
      assert j in LinkKeys(f, src);
      assert KeyOk(s.cells, j) && About(Register(j), f) && About(Run(j), f);
      Comes(s, serial, j);
    }
  }

  /** A discard of anything outside `region` reaches the inside only through undiscardable(). */
  ghost predicate Guarded(cs: seq<Cell>, region: set<nat>) {
    forall x, y: nat :: x in region && Carrier(cs, y, x) ==> y in region
  }

  lemma GuardedBefore(cs: seq<Cell>, ds: seq<Cell>, region: set<nat>)
    requires Grows(cs, ds) && Guarded(ds, region)
    ensures Guarded(cs, region)
  {
    forall z, y: nat | z in region && Carrier(cs, y, z) ensures y in region {
      assert CellGrows(cs[y], ds[y]);
      assert Carrier(ds, y, z);
    }
  }

  lemma {:induction false} NeverMarked(serial: bool, run: seq<Action>, s: State, region: set<nat>, x: nat)
    requires Exec(INITIAL, serial, run) == At(s)
    requires Guarded(s.cells, region) && region !! s.book.asked && x in region && x < |s.cells|
    ensures !s.cells[x].marked
    decreases |run|
  {
    if run != [] {
      var n := |run| - 1;
      var b := Exec(INITIAL, serial, run[..n]).s;
      StepGrows(b, serial, run[n]);
      GuardedBefore(b.cells, s.cells, region);
      InvAlways(b, serial);
      forall y | y in region && y < |b.cells| ensures !b.cells[y].marked {
        NeverMarked(serial, run[..n], b, region, y);
      }
      MarkStep(b, serial, run[n], region, x);
    }
  }

  /** Nothing in an unmarked region that nobody asked to discard becomes marked. */
  lemma MarkStep(s: State, serial: bool, a: Action, region: set<nat>, x: nat)
    requires Inv(s, serial) && Enabled(s, a) && Guarded(s.cells, region) && region !! s.book.asked
    requires forall y :: y in region && y < |s.cells| ==> !s.cells[y].marked
    requires x in region && x < |Do(s, serial, a).cells|
    ensures !Do(s, serial, a).cells[x].marked
  {
    if x >= |s.cells| {
      NewUnmarked(s, serial, a, x);
    } else if Do(s, serial, a).cells[x].marked {
      DiscardedBy(s, serial, a, x);
    }
  }

  lemma NewUnmarked(s: State, serial: bool, a: Action, x: nat)
    requires Enabled(s, a) && |s.cells| <= x < |Do(s, serial, a).cells|
    ensures !Do(s, serial, a).cells[x].marked
  {
    if a.Perform? {
      assert false;
    }
  }

  /** Futures that nobody asked to discard, and that are only used through undiscardable() from outside,
      never see a discard, whatever is discarded elsewhere. */
  lemma ShieldHolds(serial: bool, run: seq<Action>, s: State, region: set<nat>, x: nat)
    requires Exec(INITIAL, serial, run) == At(s)
    requires Guarded(s.cells, region) && region !! s.book.asked && x in region && x < |s.cells|
    ensures !s.cells[x].discard && !s.cells[x].marked
  {
    NeverMarked(serial, run, s, region, x);
    InvAlways(s, serial);
    Marks(s, serial, x);
  }

  lemma DiscardedBy(s: State, serial: bool, a: Action, x: nat)
    requires Safe(s, serial) && Enabled(s, a) && x < |s.cells| && !s.cells[x].marked
    requires x < |Do(s, serial, a).cells| && Do(s, serial, a).cells[x].marked
    ensures Discard(x) in s.tasks && s.cells[x].status.Pending?
    ensures Wanted(s.cells, s.book.asked, x)
  {
    if a.Perform? {
      DiscardedByTask(s.(tasks := Without(s.tasks, a.i)), serial, s.tasks[a.i], a.reply, x);
      assert s.tasks[a.i] in s.tasks;
      assert TaskOk(s.cells, s.book.asked, serial, Discard(x));
    }
  }

  lemma DiscardedByTask(s: State, serial: bool, t: Task, reply: Reply, x: nat)
    requires CanRun(s.cells, t) && x < |s.cells| && !s.cells[x].marked
    requires DoTask(s, serial, t, reply).cells[x].marked
    ensures t == Discard(x) && s.cells[x].status.Pending?
  {
    if !t.Discard? { assert false; }
  }

  // ---------------------------------------------------------------- recover

  /** recover() completes or associates its future once the one before it is done; a READY outcome passes through
      as it is unless that future had been abandoned. */
  lemma RecoverPasses(s: State, serial: bool, f: nat)
    requires Reachable(s, serial) && f < |s.cells| && s.cells[f].origin.Rescue? && Idle(s, f)
    ensures s.cells[f].origin.src < f
    ensures var x := s.cells[f].origin.src;
            var c := s.cells[x];
            && (c.status.Done? ==> s.cells[f].status.Done? || s.cells[f].source.Some?)
            && (c.status.Done? && c.status.o.Ready? && !c.abandoned ==> s.cells[f].source == Some(x))
            && (c.status.Done? && c.status.o.Ready? && !c.abandoned && serial ==> s.cells[f].status == c.status)
  {
    InvAlways(s, serial);
    var x := s.cells[f].origin.src;
    assert CellOk(s.cells, s.book.asked, serial, f);
    assert Wired(s.book, f, s.cells[f]);
    if s.cells[x].status.Done? {
      var k := Key(x, OnAny, Recover(f));
      assert KeyOk(s.cells, k) && About(Register(k), f) && About(Run(k), f);
      Comes(s, serial, k);
      if s.cells[x].status.o.Ready? && !s.cells[x].abandoned && serial {
        LinkSettles(s, f);
      }
    }
  }

  /** A task in hand is performed. */
  lemma Does(from: State, run: seq<Action>, s: State, t: Task, reply: Reply) returns (longer: seq<Action>, d: State)
    requires Exec(from, true, run) == At(s) && t in s.tasks && CanRun(s.cells, t)
    requires t.Register? || t.Run? || t.Promise? || t.Discard? || t.Reset?
    requires reply.Chained? ==> reply.g < |s.cells|
    ensures Exec(from, true, longer) == At(d)
    ensures var r := DoTask(s, true, t, reply);
      && d.cells == r.cells && d.book == r.book
      && (forall u :: u in s.tasks && u != t ==> u in d.tasks)
      && (forall u :: u in r.tasks && u !in s.tasks ==> u in d.tasks)
  {
    var i :| 0 <= i < |s.tasks| && s.tasks[i] == t;
    var a := Perform(i, reply);
    longer, d := run + [a], Do(s, true, a);
    assert longer[..|run|] == run && longer[|run|] == a;
    var m := s.(tasks := Without(s.tasks, i));
    Same(s, m, t, reply);
    Added(s, m, DoTask(s, true, t, reply), d);
  }

  predicate SameButTasks(s: State, m: State, r: State, d: State) {
    && d.cells == r.cells && d.book == r.book && m.tasks <= d.tasks && s.tasks <= r.tasks
    && d.tasks[|m.tasks|..] == r.tasks[|s.tasks|..]
  }

  lemma WakeSame(s: State, m: State, f: nat, c: Cell)
    requires f < |s.cells| && m == s.(tasks := m.tasks)
    ensures SameButTasks(s, m, Wake(s, f, c), Wake(m, f, c))
  {
  }

  lemma PromiseSame(s: State, m: State, f: nat, o: Outcome)
    requires f < |s.cells| && m == s.(tasks := m.tasks)
    ensures SameButTasks(s, m, DoPromise(s, true, f, o), DoPromise(m, true, f, o))
  {
    WakeSame(s, m, f, s.cells[f].(status := Done(o)));
  }

  lemma DiscardSame(s: State, m: State, f: nat)
    requires f < |s.cells| && m == s.(tasks := m.tasks)
    ensures SameButTasks(s, m, DoDiscard(s, f), DoDiscard(m, f))
  {
    WakeSame(s, m, f, s.cells[f].(discard := true, marked := true));
  }

  lemma RegisterSame(s: State, m: State, k: Key)
    requires k.on < |s.cells| && m == s.(tasks := m.tasks)
    ensures SameButTasks(s, m, DoRegister(s, k), DoRegister(m, k))
  {
  }

  lemma RunSame(s: State, m: State, k: Key, reply: Reply)
    requires k.on < |s.cells| && m == s.(tasks := m.tasks)
    ensures SameButTasks(s, m, DoRun(s, k, reply), DoRun(m, k, reply))
  {
  }

  lemma ResetSame(s: State, m: State, f: nat, reply: Reply)
    requires f < |s.cells| && s.cells[f].origin.Rescue? && m == s.(tasks := m.tasks)
    ensures SameButTasks(s, m, DoReset(s, f, reply), DoReset(m, f, reply))
  {
  }

  /** What a task does, and what it leaves, does not depend on the other tasks. */
  lemma Same(s: State, m: State, t: Task, reply: Reply)
    requires CanRun(s.cells, t) && m == s.(tasks := m.tasks)
    requires t.Register? || t.Run? || t.Promise? || t.Discard? || t.Reset?
    ensures SameButTasks(s, m, DoTask(s, true, t, reply), DoTask(m, true, t, reply))
  {
    match t {
      case Register(k) => RegisterSame(s, m, k);
      case Run(k) => RunSame(s, m, k, reply);
      case Promise(f, o) => PromiseSame(s, m, f, o);
      case Discard(f) => DiscardSame(s, m, f);
      case Reset(f, answer) => ResetSame(s, m, f, answer);
    }
  }

  lemma Added(s: State, m: State, r: State, d: State)
    requires SameButTasks(s, m, r, d)
    ensures forall u :: u in m.tasks ==> u in d.tasks
    ensures forall u :: u in r.tasks && u !in s.tasks ==> u in d.tasks
  {
    assert r.tasks == s.tasks + r.tasks[|s.tasks|..] && d.tasks == m.tasks + d.tasks[|m.tasks|..];
  }

  /** A callback registered late is invoked at once. */
  lemma RunsLate(from: State, run: seq<Action>, s: State, k: Key, reply: Reply) returns (longer: seq<Action>, d: State)
    requires Exec(from, true, run) == At(s) && Register(k) in s.tasks
    requires k.on < |s.cells| && Matches(k.kind, s.cells[k.on])
    requires reply.Chained? ==> reply.g < |s.cells|
    ensures Exec(from, true, longer) == At(d)
    ensures d.cells == s.cells && d.book.called == DoRun(s, k, reply).book.called
    ensures forall u :: u in s.tasks && u != Register(k) && u != Run(k) ==> u in d.tasks
    ensures forall u :: u in Leaves(k, s.cells[k.on], reply) && !u.Register? && !u.Run? ==> u in d.tasks
  {
    var m;
    longer, m := Does(from, run, s, Register(k), reply);
    assert Run(k) in m.tasks by {
      assert DoTask(s, true, Register(k), reply).tasks == s.tasks + [Run(k)];
      assert Run(k) in s.tasks + [Run(k)];
    }
    longer, d := Does(from, longer, m, Run(k), reply);
    forall u | u in Leaves(k, s.cells[k.on], reply) && !u.Register? && !u.Run? ensures u in d.tasks {
      assert u in DoRun(m, k, reply).tasks;
    }
  }

  lemma Calls(from: State, run: seq<Action>, s: State, a: Action) returns (longer: seq<Action>, d: State)
    requires Exec(from, true, run) == At(s) && Enabled(s, a)
    ensures Exec(from, true, longer) == At(d) && d == Do(s, true, a)
  {
    longer, d := run + [a], Do(s, true, a);
    assert longer[..|run|] == run && longer[|run|] == a;
  }

  /** Futures 0, recover on it, and then on that, with the two callbacks about to be registered. */
  predicate InChain(s: State, zero: Cell, one: Cell) {
    && |s.cells| == 3 && s.cells[0] == zero && s.cells[1] == one && s.cells[2] == New(Then(1))
    && Register(Key(1, OnAny, Continue(2))) in s.tasks
  }

  lemma CallsRecover(from: State, run: seq<Action>, s: State) returns (longer: seq<Action>, d: State)
    requires Exec(from, true, run) == At(s) && |s.cells| == 1
    ensures Exec(from, true, longer) == At(d)
    ensures d.cells == s.cells + [New(Rescue(0))] && Register(Key(0, OnAny, Recover(1))) in d.tasks
  {
    RegistersIn(RecoverKeys(0, 1), Register(Key(0, OnAny, Recover(1))));
    longer, d := Calls(from, run, s, RecoverOn(0));
  }

  lemma CallsThen(from: State, run: seq<Action>, s: State) returns (longer: seq<Action>, d: State)
    requires Exec(from, true, run) == At(s) && |s.cells| == 2
    ensures Exec(from, true, longer) == At(d)
    ensures d.cells == s.cells + [New(Then(1))] && Register(Key(1, OnAny, Continue(2))) in d.tasks
    ensures forall t :: t in s.tasks ==> t in d.tasks
  {
    RegistersIn(ThenKeys(1, 2), Register(Key(1, OnAny, Continue(2))));
    longer, d := Calls(from, run, s, ThenOn(1));
  }

  lemma BuildsChain() returns (run: seq<Action>, s: State)
    ensures Exec(INITIAL, true, run) == At(s) && InChain(s, New(Promised), New(Rescue(0)))
    ensures Register(Key(0, OnAny, Recover(1))) in s.tasks
  {
    var b;
    run, b := Calls(INITIAL, [], INITIAL, Make(Pending, false));
    assert b.cells == [New(Promised)];
    run, s := AddsBoth(INITIAL, run, b);
  }

  lemma AddsBoth(from: State, run: seq<Action>, b: State) returns (longer: seq<Action>, s: State)
    requires Exec(from, true, run) == At(b) && b.cells == [New(Promised)]
    ensures Exec(from, true, longer) == At(s) && InChain(s, New(Promised), New(Rescue(0)))
    ensures Register(Key(0, OnAny, Recover(1))) in s.tasks
  {
    var m;
    longer, m := CallsRecover(from, run, b);
    longer, s := CallsThen(from, longer, m);
  }

  /** A discard of the future that recover() returned is requested. */
  lemma DiscardsHead() returns (s: State)
    ensures Reachable(s, true)
    ensures InChain(s, New(Promised), New(Rescue(0)).(discard := true, marked := true))
    ensures Register(Key(0, OnAny, Recover(1))) in s.tasks
  {
    var run, b := BuildsChain();
    run, b := Calls(INITIAL, run, b, Call(Discard(1)));
    assert Discard(1) in b.tasks;
    run, s := Does(INITIAL, run, b, Discard(1), Chained(0));
  }

  /** The future before it fails. */
  lemma Fails(from: State, s: State, one: Cell, v: Value) returns (run: seq<Action>, d: State)
    requires s == from && Register(Key(0, OnAny, Recover(1))) in s.tasks && InChain(s, New(Promised), one)
    ensures Exec(from, true, run) == At(d) && Register(Key(0, OnAny, Recover(1))) in d.tasks
    ensures InChain(d, New(Promised).(status := Done(Failed("gone"))), one)
  {
    var o, b := Failed("gone"), s;
    run, b := Calls(from, [], s, Call(Promise(0, o)));
    assert Promise(0, o) in b.tasks && b.cells == s.cells;
    assert forall t :: t in s.tasks ==> t in b.tasks;
    run, d := Does(from, run, b, Promise(0, o), Plain(v));
  }

  /** Its continuation answers with a value. */
  lemma Recovers(from: State, run: seq<Action>, s: State, zero: Cell, v: Value) returns (longer: seq<Action>, d: State)
    requires Exec(from, true, run) == At(s) && Register(Key(0, OnAny, Recover(1))) in s.tasks
    requires zero.status == Done(Failed("gone"))
    requires InChain(s, zero, New(Rescue(0)).(discard := true, marked := true))
    ensures Exec(from, true, longer) == At(d) && Promise(1, Ready(v)) in d.tasks
    ensures InChain(d, zero, New(Rescue(0)).(marked := true))
  {
    var b;
    longer, b := Rescues(from, run, s, v);
    longer, d := Clears(from, longer, b, v);
  }

  lemma Rescues(from: State, run: seq<Action>, s: State, v: Value) returns (longer: seq<Action>, d: State)
    requires Exec(from, true, run) == At(s) && Register(Key(0, OnAny, Recover(1))) in s.tasks
    requires |s.cells| > 0 && s.cells[0].status == Done(Failed("gone"))
    ensures Exec(from, true, longer) == At(d) && d.cells == s.cells && Reset(1, Plain(v)) in d.tasks
    ensures forall u :: u in s.tasks && u.Register? && !u.k.cb.Recover? ==> u in d.tasks
  {
    var k := Key(0, OnAny, Recover(1));
    longer, d := RunsLate(from, run, s, k, Plain(v));
    assert Leaves(k, s.cells[0], Plain(v)) == [Reset(1, Plain(v))];
    assert Reset(1, Plain(v)) in Leaves(k, s.cells[0], Plain(v));
  }

  lemma Clears(from: State, run: seq<Action>, s: State, v: Value) returns (longer: seq<Action>, d: State)
    requires Exec(from, true, run) == At(s) && Reset(1, Plain(v)) in s.tasks
    requires 1 < |s.cells| && s.cells[1].origin.Rescue?
    ensures Exec(from, true, longer) == At(d) && Promise(1, Ready(v)) in d.tasks
    ensures d.cells == s.cells[1 := s.cells[1].(discard := false)]
    ensures forall t :: t in s.tasks && !t.Reset? ==> t in d.tasks
  {
    longer, d := Does(from, run, s, Reset(1, Plain(v)), Plain(v));
    assert Promise(1, Ready(v)) in DoReset(s, 1, Plain(v)).tasks;
  }

  /** A discard of what recover() returned is forgotten when it recovers: the chain behind it goes on, and its
      continuation is called. So `DiscardedChain` cannot do without its condition on the head. */
  lemma RecoverForgets(v: Value) returns (s: State, later: seq<Action>, d: State)
    ensures Reachable(s, true) && |s.cells| == 3 && Chain(s, [1, 2])
    ensures s.cells[1].discard && s.cells[1].status.Pending?
    ensures Exec(s, true, later) == At(d) && 1 < |d.cells| && !d.cells[1].discard && 2 in d.book.called
  {
    s := DiscardsHead();
    later, d := Fails(s, s, s.cells[1], v);
    later, d := Recovers(s, later, d, d.cells[0], v);
    var b, k := d, Key(1, OnAny, Continue(2));
    later, b := Does(s, later, d, Promise(1, Ready(v)), Plain(v));
    later, d := RunsLate(s, later, b, k, Plain(v));
    assert 2 in DoRun(b, k, Plain(v)).book.called;
  }
}
