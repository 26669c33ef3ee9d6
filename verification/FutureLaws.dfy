/** What callers of futures and promises can rely on, beyond what outcomes do among futures. */
module FutureLaws {
  import opened Futures

  // ---------------------------------------------------------------- calls take effect

  /** A call is taken up: a registration is recorded once, a discard is remembered, anything else is in hand. */
  lemma CallsAreTaken(s: State, serial: bool, t: Task)
    requires Enabled(s, Call(t))
    ensures var r := Do(s, serial, Call(t));
      && t in r.tasks
      && r.book.registered == s.book.registered + (if t.Register? then multiset{t.k} else multiset{})
      && r.book.asked == s.book.asked + (if t.Discard? then {t.f} else {})
      && r.cells == s.cells
  {
    if t.Register? { RegistersIn([t.k], t); }
  }

  predicate Free(c: Cell) { c.status.Pending? && c.source.None? }

  /** Setting, failing or discarding a promise that is neither completed nor associated gives its future that outcome,
      at once or, if an associate may come between, by the completion left in hand; on any other it does nothing. */
  lemma PromiseTakes(s: State, serial: bool, f: nat, o: Outcome)
    requires f < |s.cells|
    ensures var r := DoPromise(s, serial, f, o);
      && (Free(s.cells[f]) && serial ==> r.cells == s.cells[f := s.cells[f].(status := Done(o))])
      && (Free(s.cells[f]) && !serial ==> r.cells == s.cells && Complete(f, o) in r.tasks)
      && (s.cells[f].source.Some? ==> r == s)
    ensures var r := DoComplete(s, f, o);
      r.cells == if s.cells[f].status.Pending? then s.cells[f := s.cells[f].(status := Done(o))] else s.cells
  {
  }

  /** Associating ties a free future to the other; a discard marks a pending one; an abandon marks one that is pending
      and, unless it propagates, not associated. */
  lemma OthersTake(s: State, f: nat, g: nat, p: bool)
    requires f < |s.cells|
    ensures var c := s.cells[f];
      && DoAssociate(s, f, g).cells == (if Free(c) then s.cells[f := c.(source := Some(g))] else s.cells)
      && DoDiscard(s, f).cells == (if c.status.Pending? && !c.discard
                                   then s.cells[f := c.(discard := true, marked := true)] else s.cells)
      && DoAbandon(s, f, p).cells == (if c.status.Pending? && !c.abandoned && (p || c.source.None?)
                                      then s.cells[f := c.(abandoned := true)] else s.cells)
  {
  }

  // ---------------------------------------------------------------- discards arrive

  ghost predicate InvAsked(s: State) {
    forall x :: x in s.book.asked ==>
      x < |s.cells| && (s.cells[x].marked || s.cells[x].status.Done? || Discard(x) in s.tasks)
  }

  lemma AskedTask(s: State, serial: bool, t: Task, reply: Reply, x: nat)
    requires Safe(s, serial) && CanRun(s.cells, t) && x < |s.cells|
    requires s.cells[x].marked || s.cells[x].status.Done? || Discard(x) in s.tasks || t == Discard(x)
    ensures var r := DoTask(s, serial, t, reply);
      r.cells[x].marked || r.cells[x].status.Done? || Discard(x) in r.tasks
  {
    var r := DoTask(s, serial, t, reply);
    assert CellOk(s.cells, s.book.asked, serial, x);
    assert CellGrows(s.cells[x], r.cells[x]);
    assert s.tasks <= r.tasks;
  }

  lemma AskedStep(s: State, serial: bool, a: Action)
    requires Inv(s, serial) && InvAsked(s) && Enabled(s, a)
    ensures InvAsked(Do(s, serial, a))
  {
    var r := Do(s, serial, a);
    StepGrows(s, serial, a);
    forall x | x in r.book.asked
      ensures x < |r.cells| && (r.cells[x].marked || r.cells[x].status.Done? || Discard(x) in r.tasks)
    {
      if a.Perform? {
        var m := s.(tasks := Without(s.tasks, a.i));
        TakeSafe(s, serial, a.i);
        AskedTask(m, serial, s.tasks[a.i], a.reply, x);
      } else {
        OtherActions(s, serial, a);
        if x in s.book.asked { assert CellGrows(s.cells[x], r.cells[x]); }
      }
    }
  }

  /** An action that performs nothing keeps what is in hand, and asks only for what its caller asks. */
  lemma OtherActions(s: State, serial: bool, a: Action)
    requires Enabled(s, a) && !a.Perform?
    ensures var r := Do(s, serial, a);
      && (forall t :: t in s.tasks ==> t in r.tasks)
      && r.book.asked == s.book.asked + (if a.Call? && a.t.Discard? then {a.t.f} else {})
      && (a.Call? ==> a.t in r.tasks && r.cells == s.cells)
      && r.book.ran == s.book.ran && r.book.called == s.book.called
  {
    if a.Call? { CallsAreTaken(s, serial, a.t); }
  }

  lemma {:induction false} AskedRun(serial: bool, run: seq<Action>, s: State)
    requires Exec(INITIAL, serial, run) == At(s)
    ensures InvAsked(s)
    decreases |run|
  {
    if run != [] {
      var b := Exec(INITIAL, serial, run[..|run| - 1]).s;
      AskedRun(serial, run[..|run| - 1], b);
      InvAlways(b, serial);
      AskedStep(b, serial, run[|run| - 1]);
    }
  }

  /** In every run, a future somebody asked to discard is marked, or was completed first, once nobody has anything in
      hand about it. */
  lemma AskedIsMarked(s: State, serial: bool, f: nat)
    requires Reachable(s, serial) && f in s.book.asked && Idle(s, f)
    ensures f < |s.cells| && (s.cells[f].marked || s.cells[f].status.Done?)
  {
    var run :| Exec(INITIAL, serial, run) == At(s);
    AskedRun(serial, run, s);
    assert About(Discard(f), f);
  }

  /** In every run, a discard of an associated future, or of one that recover() returned, reaches the future it stands
      for while that is pending, once nobody has anything in hand about the two. */
  lemma DiscardFollows(s: State, serial: bool, f: nat, g: nat)
    requires Reachable(s, serial) && f < |s.cells| && s.cells[f].discard && Idle(s, f) && Idle(s, g)
    requires s.cells[f].source == Some(g) || s.cells[f].origin == Rescue(g)
    ensures g < |s.cells| && (s.cells[g].status.Pending? ==> s.cells[g].marked)
  {
    InvAlways(s, serial);
    assert CellOk(s.cells, s.book.asked, serial, f);
    assert Wired(s.book, f, s.cells[f]);
    var k := Key(f, OnDiscard, Discarder(g));
    assert KeyOk(s.cells, k) && About(Register(k), f) && About(Run(k), f) && About(Discard(g), g);
    Comes(s, serial, k);
  }

  /** In every run, abandonment passes from a future to the one `then` made from it, unless that has gone on, and to one
      associated with it, unless that is complete. */
  lemma AbandonTravels(s: State, serial: bool, f: nat, g: nat)
    requires Reachable(s, serial) && f < |s.cells| && g < |s.cells| && s.cells[g].abandoned && Idle(s, f)
    ensures s.cells[f].origin == Then(g) ==>
              s.cells[f].abandoned || s.cells[f].status.Done? || s.cells[f].source.Some?
    ensures s.cells[f].source == Some(g) ==> s.cells[f].abandoned || s.cells[f].status.Done?
  {
    InvAlways(s, serial);
    assert Wired(s.book, f, s.cells[f]);
    if s.cells[f].origin == Then(g) {
      var k := Key(g, OnAbandoned, Abandoner(f, false));
      assert KeyOk(s.cells, k) && About(Register(k), f) && About(Run(k), f) && About(Abandon(f, false), f);
      Comes(s, serial, k);
    }
    if s.cells[f].source == Some(g) {
      var k := Key(g, OnAbandoned, Abandoner(f, true));
      assert KeyOk(s.cells, k) && About(Register(k), f) && About(Run(k), f) && About(Abandon(f, true), f);
      Comes(s, serial, k);
    }
  }

  // ---------------------------------------------------------------- what a continuation returns arrives

  predicate HasContinuation(c: Cell) { c.origin.Then? || c.origin.Rescue? }

  /** The callback that completes `f` when the future before it is done. */
  function MainKey(f: nat, c: Cell): Key
    requires HasContinuation(c)
  {
    Key(c.origin.src, OnAny, if c.origin.Then? then Continue(f) else Recover(f))
  }

  /** recover() on an abandoned future may call its continuation twice. */
  predicate Excused(cs: seq<Cell>, f: nat)
    requires f < |cs|
  {
    cs[f].origin.Rescue? && cs[f].origin.src < |cs| && cs[cs[f].origin.src].abandoned
  }

  /** `t`, which drives `f`, carries on what the continuation returned. */
  predicate CarriesOn(t: Task, f: nat, c: Cell, reply: Reply) {
    match reply
    case Plain(v) => t == Promise(f, Ready(v)) || t == Complete(f, Ready(v)) || t == Reset(f, reply)
    case Chained(g) => t == Associate(f, g) || t == Reset(f, reply) || (t.Complete? && c.source == Some(g))
  }

  predicate CellAnswers(c: Cell, reply: Reply) {
    match reply
    case Plain(v) => c.source.None? && (c.status.Done? ==> c.status.o == Ready(v))
    case Chained(g) => (c.source.Some? ==> c.source.value == g) && (c.status.Done? ==> c.source.Some?)
  }

  ghost predicate Answered(s: State, f: nat, reply: Reply)
    requires f < |s.cells|
  {
    CellAnswers(s.cells[f], reply) && forall t :: t in s.tasks && Drives(t, f) ==> CarriesOn(t, f, s.cells[f], reply)
  }

  ghost predicate Untouched(s: State, f: nat)
    requires f < |s.cells|
  {
    Free(s.cells[f]) && f !in s.book.called && forall t :: t in s.tasks ==> !Drives(t, f)
  }

  /** The future before `f` is done in a way that calls for the continuation: READY without a discard for `then`,
      FAILED or DISCARDED for `recover`. */
  predicate MustCall(cs: seq<Cell>, f: nat)
    requires f < |cs|
  {
    && HasContinuation(cs[f]) && cs[f].origin.src < |cs|
    && var c := cs[cs[f].origin.src];
    && c.status.Done?
    && (if cs[f].origin.Then? then c.status.o.Ready? && !c.discard && !c.origin.Rescue? else !c.status.o.Ready?)
  }

  ghost predicate OnceAt(s: State, f: nat)
    requires f < |s.cells|
  {
    HasContinuation(s.cells[f]) && !Excused(s.cells, f) ==>
      && (s.book.ran[MainKey(f, s.cells[f])] == 0 ==> Untouched(s, f))
      && (f in s.book.called ==> Answered(s, f, s.book.called[f]))
      && (s.book.ran[MainKey(f, s.cells[f])] > 0 && MustCall(s.cells, f) ==> f in s.book.called)
  }

  ghost predicate InvOnce(s: State) { forall f: nat :: f < |s.cells| ==> OnceAt(s, f) }

  /** Where a new task that drives `f` comes from. */
  lemma DrivesNew(m: State, serial: bool, t: Task, reply: Reply, u: Task, f: nat)
    requires CanRun(m.cells, t) && u in DoTask(m, serial, t, reply).tasks && u !in m.tasks && Drives(u, f)
    ensures || (t.Run? && u in Leaves(t.k, m.cells[t.k.on], reply))
            || (t.Promise? && t.f == f && !serial && m.cells[f].source.None? && u == Complete(f, t.o))
            || (t.Reset? && t.f == f && u == Answer(f, t.reply))
  {
    var c := m.cells[Target(t)];
    match t {
      case Register(k) =>
      case Run(k) =>
      case Promise(f1, o) => RunsIn(Pick(m.stored, Fires(f1, c.(status := Done(o)))), u);
      case Complete(f1, o) => RunsIn(Pick(m.stored, Fires(f1, c.(status := Done(o)))), u);
      case Discard(f1) => RunsIn(Pick(m.stored, Fires(f1, c.(discard := true, marked := true))), u);
      case Abandon(f1, p) => RunsIn(Pick(m.stored, Fires(f1, c.(abandoned := true))), u);
      case Associate(f1, g) => RegistersIn(LinkKeys(f1, g), u);
      case Reset(f1, answer) =>
    }
  }

  /** How a task may change the status and the source of a future. */
  predicate MovesRight(c: Cell, d: Cell, serial: bool, t: Task, f: nat) {
    && (d.status == c.status || (c.status.Pending? && d.status.Done? && (
          t == Complete(f, d.status.o) || (t == Promise(f, d.status.o) && serial && c.source.None?))))
    && (d.source == c.source || (t.Associate? && t.f == f && Free(c) && d.source == Some(t.g)))
    && (t.Associate? && t.f == f && Free(c) ==> d.source == Some(t.g))
  }

  lemma PromiseMoves(m: State, serial: bool, f1: nat, o: Outcome, f: nat)
    requires f1 < |m.cells| && f < |m.cells|
    ensures MovesRight(m.cells[f], DoPromise(m, serial, f1, o).cells[f], serial, Promise(f1, o), f)
    ensures MovesRight(m.cells[f], DoComplete(m, f1, o).cells[f], serial, Complete(f1, o), f)
  {
    PromiseTakes(m, serial, f1, o);
  }

  lemma FlagMoves(m: State, serial: bool, f1: nat, g: nat, p: bool, f: nat)
    requires f1 < |m.cells| && f < |m.cells|
    ensures MovesRight(m.cells[f], DoDiscard(m, f1).cells[f], serial, Discard(f1), f)
    ensures MovesRight(m.cells[f], DoAbandon(m, f1, p).cells[f], serial, Abandon(f1, p), f)
    ensures MovesRight(m.cells[f], DoAssociate(m, f1, g).cells[f], serial, Associate(f1, g), f)
  {
    OthersTake(m, f1, g, p);
  }

  lemma CellMoves(m: State, serial: bool, t: Task, reply: Reply, f: nat)
    requires CanRun(m.cells, t) && f < |m.cells|
    ensures MovesRight(m.cells[f], DoTask(m, serial, t, reply).cells[f], serial, t, f)
  {
    match t {
      case Register(k) =>
      case Run(k) =>
      case Promise(f1, o) => PromiseMoves(m, serial, f1, o, f);
      case Complete(f1, o) => PromiseMoves(m, serial, f1, o, f);
      case Discard(f1) => FlagMoves(m, serial, f1, 0, false, f);
      case Abandon(f1, p) => FlagMoves(m, serial, f1, 0, p, f);
      case Associate(f1, g) => FlagMoves(m, serial, f1, g, false, f);
      case Reset(f1, answer) =>
    }
  }

  lemma BookMoves(m: State, serial: bool, t: Task, reply: Reply)
    requires CanRun(m.cells, t)
    ensures var b, r := m.book, DoTask(m, serial, t, reply).book;
      && r.ran == (if t.Run? then b.ran + multiset{t.k} else b.ran)
      && r.called == (if t.Run? && CallsNow(t.k, m.cells[t.k.on]) then b.called[t.k.cb.to := reply] else b.called)
  {
    match t {
      case Register(k) =>
      case Run(k) =>
      case Promise(f, o) =>
      case Complete(f, o) =>
      case Discard(f) =>
      case Abandon(f, p) =>
      case Associate(f, g) =>
      case Reset(f, answer) =>
    }
  }

  /** The callback of `f` is invoked for the first time: what it leaves is what the continuation returned. */
  lemma OnceRun(s: State, m: State, serial: bool, k: Key, reply: Reply, f: nat)
    requires f < |s.cells| && HasContinuation(s.cells[f]) && k == MainKey(f, s.cells[f]) && k.on < |s.cells|
    requires Untouched(s, f) && m == s.(tasks := m.tasks) && forall t :: t in m.tasks ==> t in s.tasks
    ensures OnceAt(DoRun(m, k, reply), f)
  {
    var r := DoRun(m, k, reply);
    assert r.book.ran[k] > 0;
    forall t | t in r.tasks && Drives(t, f) && f in r.book.called
      ensures CarriesOn(t, f, r.cells[f], r.book.called[f])
    {
      assert t in Leaves(k, s.cells[k.on], reply);
    }
  }

  /** A task that is not that callback leaves an untouched future untouched. */
  lemma UntouchedKept(s: State, m: State, serial: bool, t: Task, reply: Reply, f: nat)
    requires Safe(s, serial) && f < |s.cells| && HasContinuation(s.cells[f]) && !Excused(s.cells, f)
    requires Untouched(s, f) && t in s.tasks && CanRun(s.cells, t) && t != Run(MainKey(f, s.cells[f]))
    requires m == s.(tasks := m.tasks) && forall u :: u in m.tasks ==> u in s.tasks
    ensures Untouched(DoTask(m, serial, t, reply), f)
  {
    var r := DoTask(m, serial, t, reply);
    assert TaskOk(s.cells, s.book.asked, serial, t);
    CellMoves(m, serial, t, reply, f);
    BookMoves(m, serial, t, reply);
    forall u | u in r.tasks ensures !Drives(u, f) {
      if u !in m.tasks && Drives(u, f) {
        DrivesNew(m, serial, t, reply, u, f);
      }
    }
  }

  lemma AnswersMove(c: Cell, d: Cell, serial: bool, t: Task, f: nat, answer: Reply)
    requires MovesRight(c, d, serial, t, f) && CellAnswers(c, answer)
    requires Drives(t, f) ==> CarriesOn(t, f, c, answer)
    ensures CellAnswers(d, answer) && (c.source.Some? ==> d.source == c.source)
  {
  }

  /** What a task in hand makes of an answered future. */
  lemma CellStillAnswers(s: State, m: State, serial: bool, t: Task, reply: Reply, f: nat, answer: Reply)
    requires f < |s.cells| && Answered(s, f, answer) && t in s.tasks && CanRun(s.cells, t) && m == s.(tasks := m.tasks)
    ensures CellAnswers(DoTask(m, serial, t, reply).cells[f], answer)
    ensures s.cells[f].source.Some? ==> DoTask(m, serial, t, reply).cells[f].source == s.cells[f].source
  {
    CellMoves(m, serial, t, reply, f);
    AnswersMove(s.cells[f], DoTask(m, serial, t, reply).cells[f], serial, t, f, answer);
  }

  /** What a new task is. */
  lemma NewCarriesOn(s: State, m: State, serial: bool, t: Task, reply: Reply, f: nat, answer: Reply, u: Task)
    requires Safe(s, serial) && f < |s.cells| && HasContinuation(s.cells[f]) && !Excused(s.cells, f)
    requires Answered(s, f, answer) && t in s.tasks && CanRun(s.cells, t) && t != Run(MainKey(f, s.cells[f]))
    requires m == s.(tasks := m.tasks) && u in DoTask(m, serial, t, reply).tasks && u !in m.tasks && Drives(u, f)
    ensures CarriesOn(u, f, s.cells[f], answer)
  {
    assert TaskOk(s.cells, s.book.asked, serial, t);
    assert Drives(t, f) ==> CarriesOn(t, f, s.cells[f], answer);
    DrivesNew(m, serial, t, reply, u, f);
  }

  /** An answered future stays so. */
  lemma AnsweredKept(s: State, m: State, serial: bool, t: Task, reply: Reply, f: nat, answer: Reply)
    requires Safe(s, serial) && f < |s.cells| && HasContinuation(s.cells[f]) && !Excused(s.cells, f)
    requires Answered(s, f, answer) && t in s.tasks && CanRun(s.cells, t) && t != Run(MainKey(f, s.cells[f]))
    requires m == s.(tasks := m.tasks) && forall u :: u in m.tasks ==> u in s.tasks
    ensures Answered(DoTask(m, serial, t, reply), f, answer)
  {
    var r := DoTask(m, serial, t, reply);
    CellStillAnswers(s, m, serial, t, reply, f, answer);
    forall u | u in r.tasks && Drives(u, f) ensures CarriesOn(u, f, r.cells[f], answer) {
      if u !in m.tasks {
        NewCarriesOn(s, m, serial, t, reply, f, answer, u);
      } else {
        assert CarriesOn(u, f, s.cells[f], answer);
      }
    }
  }

  /** Once the callback has run, the future before is as it was then. */
  lemma MustCallBefore(s: State, r: State, serial: bool, f: nat)
    requires Safe(s, serial) && f < |s.cells| && HasContinuation(s.cells[f]) && Grows(s.cells, r.cells)
    requires s.book.ran[MainKey(f, s.cells[f])] > 0 && MustCall(r.cells, f)
    ensures MustCall(s.cells, f)
  {
    var k := MainKey(f, s.cells[f]);
    assert k in s.book.ran && Fired(s.cells, k);
    assert CellGrows(s.cells[f], r.cells[f]) && CellGrows(s.cells[k.on], r.cells[k.on]);
  }

  /** The parts of `OnceAt` put together. */
  lemma OnceHolds(s: State, r: State, f: nat)
    requires f < |s.cells| && f < |r.cells| && r.cells[f].origin == s.cells[f].origin && HasContinuation(s.cells[f])
    requires var k := MainKey(f, s.cells[f]);
      r.book.ran[k] == s.book.ran[k] && (s.book.ran[k] == 0 ==> Untouched(r, f))
    requires f in r.book.called ==>
      f in s.book.called && r.book.called[f] == s.book.called[f] && Answered(r, f, s.book.called[f])
    requires s.book.ran[MainKey(f, s.cells[f])] > 0 && MustCall(r.cells, f) ==> f in r.book.called
    ensures OnceAt(r, f)
  {
  }

  lemma OnceTask(s: State, serial: bool, i: nat, reply: Reply, f: nat)
    requires Inv(s, serial) && InvOnce(s) && Enabled(s, Perform(i, reply)) && f < |s.cells|
    ensures OnceAt(Do(s, serial, Perform(i, reply)), f)
  {
    var m, t := s.(tasks := Without(s.tasks, i)), s.tasks[i];
    var r := DoTask(m, serial, t, reply);
    assert t in s.tasks && CellGrows(s.cells[f], r.cells[f]) && OnceAt(s, f);
    if HasContinuation(r.cells[f]) && !Excused(r.cells, f) {
      StillUnexcused(s, r, serial, f);
      var k := MainKey(f, s.cells[f]);
      if t == Run(k) {
        FirstRun(s, serial, f, k);
        OnceRun(s, m, serial, k, reply, f);
      } else {
        OnceSameTask(s, m, serial, t, reply, f);
      }
    }
  }

  lemma OnceSameTask(s: State, m: State, serial: bool, t: Task, reply: Reply, f: nat)
    requires Safe(s, serial) && f < |s.cells| && HasContinuation(s.cells[f]) && !Excused(s.cells, f) && OnceAt(s, f)
    requires t in s.tasks && CanRun(s.cells, t) && t != Run(MainKey(f, s.cells[f]))
    requires m == s.(tasks := m.tasks) && forall u :: u in m.tasks ==> u in s.tasks
    ensures OnceAt(DoTask(m, serial, t, reply), f)
  {
    var r, k := DoTask(m, serial, t, reply), MainKey(f, s.cells[f]);
    assert CellGrows(s.cells[f], r.cells[f]);
    OtherCalls(s, m, serial, t, reply, f);
    if s.book.ran[k] == 0 {
      UntouchedKept(s, m, serial, t, reply, f);
    }
    if f in s.book.called {
      AnsweredKept(s, m, serial, t, reply, f, s.book.called[f]);
    }
    if s.book.ran[k] > 0 && MustCall(r.cells, f) { MustCallBefore(s, r, serial, f); }
    OnceHolds(s, r, f);
  }

  lemma StillUnexcused(s: State, r: State, serial: bool, f: nat)
    requires Safe(s, serial) && f < |s.cells| && Grows(s.cells, r.cells) && HasContinuation(r.cells[f])
    requires !Excused(r.cells, f)
    ensures HasContinuation(s.cells[f]) && !Excused(s.cells, f) && s.cells[f].origin.src < |s.cells|
  {
    assert CellOk(s.cells, s.book.asked, serial, f);
  }

  /** A callback about to run has not run, as it was registered once. */
  lemma FirstRun(s: State, serial: bool, f: nat, k: Key)
    requires Inv(s, serial) && f < |s.cells| && HasContinuation(s.cells[f]) && k == MainKey(f, s.cells[f])
    requires Run(k) in s.tasks
    ensures s.book.ran[k] == 0
  {
    assert Wired(s.book, f, s.cells[f]);
    assert Lag(s, k) == 0;
    HeldIn(s.tasks, k);
  }

  /** Any other task neither runs that callback nor calls that continuation. */
  lemma OtherCalls(s: State, m: State, serial: bool, t: Task, reply: Reply, f: nat)
    requires Safe(s, serial) && f < |s.cells| && HasContinuation(s.cells[f]) && !Excused(s.cells, f)
    requires t in s.tasks && CanRun(s.cells, t) && t != Run(MainKey(f, s.cells[f])) && m == s.(tasks := m.tasks)
    ensures var b := DoTask(m, serial, t, reply).book;
      && b.ran[MainKey(f, s.cells[f])] == s.book.ran[MainKey(f, s.cells[f])]
      && (f in b.called <==> f in s.book.called) && (f in b.called ==> b.called[f] == s.book.called[f])
  {
    assert TaskOk(s.cells, s.book.asked, serial, t);
    BookMoves(m, serial, t, reply);
  }

  lemma OnceOther(s: State, serial: bool, a: Action, f: nat)
    requires Inv(s, serial) && InvOnce(s) && Enabled(s, a) && !a.Perform? && f < |Do(s, serial, a).cells|
    ensures OnceAt(Do(s, serial, a), f)
  {
    var r := Do(s, serial, a);
    StepGrows(s, serial, a);
    OtherActions(s, serial, a);
    if HasContinuation(r.cells[f]) && !Excused(r.cells, f) {
      if f < |s.cells| {
        StillUnexcused(s, r, serial, f);
        SameCell(s, serial, a, f);
        assert OnceAt(s, f);
        forall t | t in r.tasks && Drives(t, f) ensures t in s.tasks {
          NoNewDrive(s, serial, a, t, f);
        }
        if s.book.ran[MainKey(f, s.cells[f])] > 0 && MustCall(r.cells, f) { MustCallBefore(s, r, serial, f); }
        OnceHolds(s, r, f);
      } else {
        var k := MainKey(f, r.cells[f]);
        assert !KeyOk(s.cells, k);
        assert k !in s.book.ran;
        BornUntouched(s, serial, a, f);
      }
    }
  }

  lemma SameCell(s: State, serial: bool, a: Action, f: nat)
    requires Enabled(s, a) && !a.Perform? && f < |s.cells|
    ensures f < |Do(s, serial, a).cells| && Do(s, serial, a).cells[f] == s.cells[f]
  {
  }

  /** Callers have no promise for a future made by `then` or `recover`. */
  lemma NoNewDrive(s: State, serial: bool, a: Action, t: Task, f: nat)
    requires Enabled(s, a) && !a.Perform? && f < |s.cells| && HasContinuation(s.cells[f])
    requires t in Do(s, serial, a).tasks && Drives(t, f)
    ensures t in s.tasks
  {
    match a {
      case Make(_, _) =>
      case Call(u) => if u.Register? { RegistersIn([u.k], t); }
      case ThenOn(src) => RegistersIn(ThenKeys(src, |s.cells|), t);
      case RecoverOn(src) => RegistersIn(RecoverKeys(src, |s.cells|), t);
      case ShieldOn(src) => RegistersIn([Key(src, OnAny, Undiscard(|s.cells|))], t);
    }
  }

  lemma BornUntouched(s: State, serial: bool, a: Action, f: nat)
    requires Inv(s, serial) && Enabled(s, a) && !a.Perform? && |s.cells| <= f < |Do(s, serial, a).cells|
    requires HasContinuation(Do(s, serial, a).cells[f])
    ensures Untouched(Do(s, serial, a), f)
  {
    var r := Do(s, serial, a);
    OtherActions(s, serial, a);
    assert f in s.book.called ==> Callable(s.cells, f);
    forall t | t in r.tasks ensures !Drives(t, f) {
      if t in s.tasks {
        assert TaskOk(s.cells, s.book.asked, serial, t);
      } else if Drives(t, f) {
        BornQuiet(s, serial, a, t);
      }
    }
  }

  lemma BornQuiet(s: State, serial: bool, a: Action, t: Task)
    requires Enabled(s, a) && !a.Perform? && !a.Call? && t in Do(s, serial, a).tasks && t !in s.tasks
    ensures t.Register?
  {
    match a {
      case Make(_, _) =>
      case ThenOn(src) => RegistersIn(ThenKeys(src, |s.cells|), t);
      case RecoverOn(src) => RegistersIn(RecoverKeys(src, |s.cells|), t);
      case ShieldOn(src) => RegistersIn([Key(src, OnAny, Undiscard(|s.cells|))], t);
    }
  }

  lemma {:induction false} OnceRuns(serial: bool, run: seq<Action>, s: State)
    requires Exec(INITIAL, serial, run) == At(s)
    ensures InvOnce(s)
    decreases |run|
  {
    if run != [] {
      var b, a := Exec(INITIAL, serial, run[..|run| - 1]).s, run[|run| - 1];
      OnceRuns(serial, run[..|run| - 1], b);
      InvAlways(b, serial);
      forall f: nat | f < |s.cells| ensures OnceAt(s, f) {
        if a.Perform? { OnceTask(b, serial, a.i, a.reply, f); } else { OnceOther(b, serial, a, f); }
      }
    }
  }

  /** In every run, what the continuation of a `then` or of a `recover` returned arrives: a plain value becomes the
      outcome of the future, and a future becomes the one it is associated with, once nobody has anything in hand about
      it. A `recover` on an abandoned future is excepted, as its continuation may be called twice. */
  lemma ContinuationArrives(s: State, serial: bool, f: nat)
    requires Reachable(s, serial) && f in s.book.called && Idle(s, f)
    ensures f < |s.cells| && HasContinuation(s.cells[f])
    ensures !Excused(s.cells, f) ==>
      match s.book.called[f]
      case Plain(v) => s.cells[f].status == Done(Ready(v))
      case Chained(g) => s.cells[f].source == Some(g)
  {
    InvAlways(s, serial);
    var run :| Exec(INITIAL, serial, run) == At(s);
    OnceRuns(serial, run, s);
    assert Callable(s.cells, f) && OnceAt(s, f);
    if !Excused(s.cells, f) {
      Reached(s, serial, f);
      assert CellAnswers(s.cells[f], s.book.called[f]);
    }
  }

  /** A future whose callback is due and in nobody's hand is completed or associated. */
  lemma Reached(s: State, serial: bool, f: nat)
    requires Inv(s, serial) && f < |s.cells| && HasContinuation(s.cells[f]) && Idle(s, f)
    requires Callable(s.cells, f) && !Excused(s.cells, f)
    ensures s.cells[f].status.Done? || s.cells[f].source.Some?
  {
    var k := MainKey(f, s.cells[f]);
    assert Wired(s.book, f, s.cells[f]) && CellOk(s.cells, s.book.asked, serial, f);
    assert KeyOk(s.cells, k) && About(Register(k), f) && About(Run(k), f);
    Comes(s, serial, k);
  }

  /** In every run the continuation is called when it should be: that of a `then` if the future before it is READY
      without a discard, that of a `recover` if it is FAILED or DISCARDED, once nobody has anything in hand about its
      future. */
  lemma ContinuationIsCalled(s: State, serial: bool, f: nat)
    requires Reachable(s, serial) && f < |s.cells| && MustCall(s.cells, f) && !Excused(s.cells, f) && Idle(s, f)
    ensures f in s.book.called
  {
    InvAlways(s, serial);
    var run :| Exec(INITIAL, serial, run) == At(s);
    OnceRuns(serial, run, s);
    assert OnceAt(s, f);
    var k := MainKey(f, s.cells[f]);
    assert Wired(s.book, f, s.cells[f]) && CellOk(s.cells, s.book.asked, serial, f);
    assert KeyOk(s.cells, k) && About(Register(k), f) && About(Run(k), f);
    CallbacksRunOnce(s, serial, k);
  }
}
