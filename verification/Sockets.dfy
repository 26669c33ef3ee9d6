/**
  The socket tables of the socket manager: one step per locked block.

  Sending is asynchronous: after a block returns, a connect or a send may be under way.
  Such a call in progress is an `Agent`, and its completion is a later step.
 */
module Sockets {

  /** `up`: connected, and the receive loop has started, but next() or the send is still to come. */
  datatype Job =
    | Connecting(up: bool)         // link(): connect, then next()
    | Carrying(e: int, up: bool)   // send(Message): connect, then send `e`
    | Sending(e: int)              // `e` is being written

  predicate IsUnconnected(job: Job) { !job.Sending? && !job.up }

  datatype Agent = Agent(fd: int, job: Job)

  datatype Tables = Tables(
    sockets: set<int>,
    dispose: set<int>,
    addresses: map<int, int>,
    temps: map<int, int>,
    persists: map<int, int>,
    outgoing: map<int, seq<int>>,
    proxies: set<int>)

  /** `owner`, `asked`, `sent` and `exits` are auxiliary: which agent works on a socket, the encoders
      handed to the manager for it and those handed on to it, and the addresses given to exited(). */
  datatype Flow = Flow(agents: map<int, Agent>, owner: map<int, int>,
                       asked: map<int, seq<int>>, sent: map<int, seq<int>>, exits: seq<int>)

  datatype State = State(t: Tables, f: Flow)

  const INITIAL: State :=
    State(Tables({}, {}, map[], map[], map[], map[], {}), Flow(map[], map[], map[], map[], []))

  function Get(m: map<int, seq<int>>, s: int): seq<int> { if s in m then m[s] else [] }

  predicate IsPersistent(t: Tables, s: int) {
    s in t.addresses && t.addresses[s] in t.persists && t.persists[t.addresses[s]] == s
  }

  predicate IsTemporary(t: Tables, s: int) {
    s in t.addresses && t.addresses[s] in t.temps && t.temps[t.addresses[s]] == s
  }

  // ---------------------------------------------------------------- locked blocks

  /** A new outbound socket, with the agent that connects it. */
  function Created(st: State, s: int, a: int, i: int, job: Job): State {
    var t, f := st.t, st.f;
    var u := t.(sockets := t.sockets + {s}, addresses := t.addresses[s := a], outgoing := t.outgoing[s := []]);
    State(if job.Carrying? then u.(temps := t.temps[a := s], dispose := t.dispose + {s})
          else u.(persists := t.persists[a := s]),
          f.(agents := f.agents[i := Agent(s, job)], owner := f.owner[s := i],
             asked := f.asked[s := if job.Carrying? then [job.e] else []], sent := f.sent[s := []]))
  }

  /** close() */
  function Closed(st: State, s: int): State {
    var t, f := st.t, st.f;
    if s !in t.sockets then st
    else State(
      t.(sockets := t.sockets - {s}, dispose := t.dispose - {s}, addresses := t.addresses - {s},
         outgoing := t.outgoing - {s}, proxies := t.proxies - {s},
         persists := if IsPersistent(t, s) then t.persists - {t.addresses[s]} else t.persists,
         temps := if !IsPersistent(t, s) && IsTemporary(t, s) then t.temps - {t.addresses[s]} else t.temps),
      f.(owner := f.owner - {s}, exits := f.exits + if IsPersistent(t, s) then [t.addresses[s]] else []))
  }

  /** swap_implementing_socket(), with the agent that is to connect `to`. */
  function Swapped(st: State, from: int, to: int, i: int, job: Job): State
    requires from in st.t.addresses
  {
    var t, f, a := st.t, st.f, st.t.addresses[from];
    State(
      t.(sockets := t.sockets - {from} + {to},
         dispose := if from in t.dispose then t.dispose - {from} + {to} else t.dispose,
         addresses := t.addresses[to := a] - {from},
         persists := if IsPersistent(t, from) then t.persists[a := to] else t.persists,
         temps := if !IsPersistent(t, from) && IsTemporary(t, from) then t.temps[a := to] else t.temps,
         outgoing := t.outgoing[to := Get(t.outgoing, from)] - {from},
         proxies := if from in t.proxies then t.proxies - {from} + {to} else t.proxies),
      f.(agents := f.agents[i := Agent(to, job)], owner := f.owner[to := i] - {from},
         asked := f.asked[to := (if job.Carrying? then [job.e] else []) + Get(t.outgoing, from)],
         sent := f.sent[to := []]))
  }

  /** An encoder for a live socket: queue it behind the agent at work, or start one. */
  function Queued(st: State, s: int, e: int, i: int): State {
    if s in st.t.outgoing then Pushed(st, s, e) else Started(st, s, e, i)
  }

  function Pushed(st: State, s: int, e: int): State
    requires s in st.t.outgoing
  {
    State(st.t.(outgoing := st.t.outgoing[s := st.t.outgoing[s] + [e]]),
          st.f.(asked := st.f.asked[s := Get(st.f.asked, s) + [e]]))
  }

  function Started(st: State, s: int, e: int, i: int): State {
    State(st.t.(outgoing := st.t.outgoing[s := []]),
          st.f.(asked := st.f.asked[s := Get(st.f.asked, s) + [e]], sent := st.f.sent[s := Get(st.f.sent, s) + [e]],
                agents := st.f.agents[i := Agent(s, Sending(e))], owner := st.f.owner[s := i]))
  }

  /** Agent `i` goes on with `e`. */
  function Send(f: Flow, i: int, s: int, e: int): Flow {
    f.(agents := f.agents[i := Agent(s, Sending(e))], sent := f.sent[s := Get(f.sent, s) + [e]])
  }

  /** next(), called by agent `i` of `s`. */
  function Nexted(st: State, s: int, i: int): State
    requires s in st.t.sockets ==> s in st.t.outgoing
  {
    if s !in st.t.sockets then Left(st, i)
    else if st.t.outgoing[s] != [] then Popped(st, s, i)
    else Drained(st, s, i)
  }

  function Popped(st: State, s: int, i: int): State
    requires s in st.t.outgoing && st.t.outgoing[s] != []
  {
    State(st.t.(outgoing := st.t.outgoing[s := st.t.outgoing[s][1..]]), Send(st.f, i, s, st.t.outgoing[s][0]))
  }

  function Drained(st: State, s: int, i: int): State {
    var t, f := st.t, st.f;
    var u := t.(outgoing := t.outgoing - {s});
    State(
      if s !in t.dispose then u
      else u.(temps := if s in t.addresses then t.temps - {t.addresses[s]} else t.temps,
              addresses := t.addresses - {s}, proxies := t.proxies - {s},
              dispose := t.dispose - {s}, sockets := t.sockets - {s}),
      f.(agents := f.agents - {i}, owner := f.owner - {s}))
  }

  /** The receive loop of agent `i`'s socket starts. */
  function Received(st: State, i: int): State
    requires i in st.f.agents && !st.f.agents[i].job.Sending?
  {
    var Agent(s, job) := st.f.agents[i];
    st.(f := st.f.(agents := st.f.agents[i := Agent(s, job.(up := true))]))
  }

  function Left(st: State, i: int): State { st.(f := st.f.(agents := st.f.agents - {i})) }

  // ---------------------------------------------------------------- steps

  datatype Action =
    | Accept(s: int)                                   // accepted()
    | LinkNew(a: int, s: int, i: int)                  // link(), no persistent socket yet
    | Reconnect(a: int, s: int, i: int)                // link() with RECONNECT
    | SendEncoder(s: int, e: int, persist: bool, i: int)
    | SendMessage(a: int, e: int, s: int, i: int)      // `s` is used if a socket is needed
    | Connected(i: int)                                // link_connect(), send_connect(): receiving starts
    | Begin(i: int)                                    // and then next(), or the first send
    | ConnectFailed(i: int)
    | Downgrade(i: int, s: int)                        // the failed connect is retried on a POLL socket
    | SendDone(i: int) | SendFailed(i: int)
    | RecvClosed(s: int)                               // ignore_recv_data() or the decoder closes
    | Proxy(s: int) | Unproxy(s: int)

  /** A descriptor is new: not in use, and no agent keeps its socket open. */
  ghost predicate Fresh(st: State, s: int) {
    s !in st.t.sockets && forall i :: i in st.f.agents ==> st.f.agents[i].fd != s
  }

  /** An outbound socket is closed from the receiving side only once receiving has started; HTTP responses go
      to inbound sockets. */
  ghost predicate Enabled(st: State, x: Action) {
    var t, f := st.t, st.f;
    match x
    case Accept(s) => Fresh(st, s)
    case LinkNew(a, s, i) => Fresh(st, s) && a !in t.persists && i !in f.agents
    case Reconnect(a, s, i) => Fresh(st, s) && a in t.persists && i !in f.agents
    case SendEncoder(s, _, _, i) => s !in t.addresses && i !in f.agents
    case SendMessage(_, _, s, i) => Fresh(st, s) && i !in f.agents
    case Connected(i) => i in f.agents && IsUnconnected(f.agents[i].job)
    case Begin(i) => i in f.agents && !f.agents[i].job.Sending? && f.agents[i].job.up
    case ConnectFailed(i) => i in f.agents && IsUnconnected(f.agents[i].job)
    case Downgrade(i, s) => i in f.agents && IsUnconnected(f.agents[i].job) && Fresh(st, s)
    case SendDone(i) => i in f.agents && f.agents[i].job.Sending?
    case SendFailed(i) => i in f.agents && f.agents[i].job.Sending?
    case RecvClosed(s) => forall i :: i in f.agents && f.agents[i].fd == s ==> !IsUnconnected(f.agents[i].job)
    case Proxy(s) => true
    case Unproxy(s) => true
  }

  /** A CHECK would fail. */
  predicate Fault(st: State, x: Action) {
    var t, f := st.t, st.f;
    match x
    case Reconnect(a, _, _) => a in t.persists && !CanSwap(t, t.persists[a])
    case SendMessage(a, _, _, _) =>
      (a in t.persists && t.persists[a] !in t.sockets) || (a !in t.persists && a in t.temps && t.temps[a] !in t.sockets)
    case Downgrade(i, _) =>
      i in f.agents && !(f.agents[i].job.Connecting? && f.agents[i].fd !in t.sockets) && !CanSwap(t, f.agents[i].fd)
    case Begin(i) => i in f.agents && f.agents[i].job.Connecting? && !CanNext(t, f.agents[i].fd)
    case SendDone(i) => i in f.agents && !CanNext(t, f.agents[i].fd)
    case _ => false
  }

  predicate CanSwap(t: Tables, s: int) { s in t.sockets && s in t.addresses }

  predicate CanNext(t: Tables, s: int) {
    s in t.sockets ==>
      && s in t.outgoing
      && (t.outgoing[s] == [] && s in t.dispose && s in t.addresses ==> IsTemporary(t, s))
  }

  ghost function Do(st: State, x: Action): State
    requires Enabled(st, x) && !Fault(st, x)
  {
    var t, f := st.t, st.f;
    match x
    case Accept(s) =>
      State(t.(sockets := t.sockets + {s}), f.(asked := f.asked[s := []], sent := f.sent[s := []]))
    case LinkNew(a, s, i) => Created(st, s, a, i, Connecting(false))
    case Reconnect(a, s, i) => Swapped(st, t.persists[a], s, i, Connecting(false))
    case SendEncoder(s, e, persist, i) =>
      if s !in t.sockets then st
      else Queued(if persist then st else st.(t := t.(dispose := t.dispose + {s})), s, e, i)
    case SendMessage(a, e, s, i) =>
      if a in t.persists then Queued(st, t.persists[a], e, i)
      else if a in t.temps then Queued(st.(t := t.(dispose := t.dispose + {t.temps[a]})), t.temps[a], e, i)
      else Created(st, s, a, i, Carrying(e, false))
    case Connected(i) =>
      if f.agents[i].job.Connecting? && f.agents[i].fd !in t.sockets then Left(st, i) else Received(st, i)
    case Begin(i) =>
      var Agent(s, job) := f.agents[i];
      if job.Connecting? then Nexted(st, s, i) else st.(f := Send(f, i, s, job.e))
    case ConnectFailed(i) => Left(Closed(st, f.agents[i].fd), i)
    case Downgrade(i, s) =>
      var Agent(from, job) := f.agents[i];
      if from !in t.sockets then Left(st, i) else Swapped(st, from, s, i, job)
    case SendDone(i) => Nexted(st, f.agents[i].fd, i)
    case SendFailed(i) => Left(Closed(st, f.agents[i].fd), i)
    case RecvClosed(s) => Closed(st, s)
    case Proxy(s) => if s in t.sockets then st.(t := t.(proxies := t.proxies + {s})) else st
    case Unproxy(s) => st.(t := t.(proxies := t.proxies - {s}))
  }

  // ---------------------------------------------------------------- invariant

  /** The tables agree: every outbound socket is the persistent or the temporary one of its address;
      temporary ones are to be disposed of, persistent ones are not. */
  ghost predicate Consistent(t: Tables) {
    && t.outgoing.Keys <= t.sockets && t.dispose <= t.sockets && t.addresses.Keys <= t.sockets && t.proxies <= t.sockets
    && (forall a :: a in t.persists ==>
          t.persists[a] in t.addresses && t.addresses[t.persists[a]] == a && t.persists[a] !in t.dispose)
    && (forall a :: a in t.temps ==>
          t.temps[a] in t.addresses && t.addresses[t.temps[a]] == a && t.temps[a] in t.dispose)
    && (forall s :: s in t.addresses ==> IsPersistent(t, s) || IsTemporary(t, s))
  }

  /** A live socket has an outgoing queue exactly while one agent works on it. */
  ghost predicate Owned(st: State) {
    var t, f := st.t, st.f;
    && f.owner.Keys == t.outgoing.Keys && t.outgoing.Keys <= t.sockets
    && (forall s :: s in f.owner ==> f.owner[s] in f.agents && f.agents[f.owner[s]].fd == s)
    && (forall i :: i in f.agents && f.agents[i].fd in t.sockets ==>
          f.agents[i].fd in f.owner && f.owner[f.agents[i].fd] == i)
  }

  /** A message waiting for its connection is on a live temporary socket; only outbound sockets connect. */
  ghost predicate Carried(st: State) {
    forall i :: i in st.f.agents ==>
      && (st.f.agents[i].job.Carrying? && !st.f.agents[i].job.up ==> st.f.agents[i].fd in st.t.sockets)
      && (st.f.agents[i].job.Carrying? && st.f.agents[i].fd in st.t.sockets ==> IsTemporary(st.t, st.f.agents[i].fd))
      && (st.f.agents[i].job.Connecting? && st.f.agents[i].fd in st.t.sockets ==> st.f.agents[i].fd in st.t.addresses)
  }

  function Held(f: Flow, s: int): seq<int> {
    if s in f.owner && f.owner[s] in f.agents && f.agents[f.owner[s]].job.Carrying? then [f.agents[f.owner[s]].job.e]
    else []
  }

  /** On every live socket encoders leave in the order they were handed in, and none is skipped. */
  ghost predicate Ordered(st: State) {
    forall s :: s in st.t.sockets ==>
      Get(st.f.asked, s) == Get(st.f.sent, s) + Held(st.f, s) + Get(st.t.outgoing, s)
  }

  ghost predicate Inv(st: State) { Consistent(st.t) && Owned(st) && Carried(st) && Ordered(st) }

  lemma {:induction false} CreatedConsistent(st: State, s: int, a: int, i: int, job: Job)
    requires Inv(st) && Fresh(st, s) && i !in st.f.agents && IsUnconnected(job)
    requires if job.Carrying? then a !in st.t.temps else a !in st.t.persists
    ensures Consistent(Created(st, s, a, i, job).t)
  {
  }

  lemma {:induction false} CreatedCarried(st: State, s: int, a: int, i: int, job: Job)
    requires Inv(st) && Fresh(st, s) && i !in st.f.agents && IsUnconnected(job)
    requires if job.Carrying? then a !in st.t.temps else a !in st.t.persists
    ensures Carried(Created(st, s, a, i, job))
  {
  }

  lemma {:induction false} CreatedOwned(st: State, s: int, a: int, i: int, job: Job)
    requires Inv(st) && Fresh(st, s) && i !in st.f.agents && IsUnconnected(job)
    requires if job.Carrying? then a !in st.t.temps else a !in st.t.persists
    ensures Owned(Created(st, s, a, i, job))
  {
  }

  lemma {:induction false} CreatedOrdered(st: State, s: int, a: int, i: int, job: Job)
    requires Inv(st) && Fresh(st, s) && i !in st.f.agents && IsUnconnected(job)
    requires if job.Carrying? then a !in st.t.temps else a !in st.t.persists
    ensures Ordered(Created(st, s, a, i, job))
  {
  }

  lemma {:induction false} ClosedKeeps(st: State, s: int)
    requires Inv(st)
    requires forall i :: i in st.f.agents && st.f.agents[i].fd == s ==> !IsUnconnected(st.f.agents[i].job)
    ensures Inv(Closed(st, s))
  {
  }

  lemma {:induction false} ClosedLeftKeeps(st: State, i: int)
    requires Inv(st) && i in st.f.agents
    ensures Inv(Left(Closed(st, st.f.agents[i].fd), i))
  {
    ClosedLeftTables(st, i);
    ClosedLeftFlow(st, i);
  }

  lemma {:induction false} ClosedLeftTables(st: State, i: int)
    requires Inv(st) && i in st.f.agents
    ensures var u := Left(Closed(st, st.f.agents[i].fd), i); Consistent(u.t) && Carried(u)
  {
  }

  lemma {:induction false} ClosedLeftFlow(st: State, i: int)
    requires Inv(st) && i in st.f.agents
    ensures var u := Left(Closed(st, st.f.agents[i].fd), i); Owned(u) && Ordered(u)
  {
  }

  lemma {:induction false} SwappedConsistent(st: State, from: int, to: int, i: int, job: Job)
    requires Inv(st) && Fresh(st, to) && CanSwap(st.t, from) && IsUnconnected(job)
    requires i !in st.f.agents || (st.f.agents[i].fd == from && st.f.agents[i].job == job)
    requires i !in st.f.agents ==> job.Connecting? && IsPersistent(st.t, from)
    ensures Consistent(Swapped(st, from, to, i, job).t)
  {
  }

  lemma {:induction false} SwappedCarried(st: State, from: int, to: int, i: int, job: Job)
    requires Inv(st) && Fresh(st, to) && CanSwap(st.t, from) && IsUnconnected(job)
    requires i !in st.f.agents || (st.f.agents[i].fd == from && st.f.agents[i].job == job)
    requires i !in st.f.agents ==> job.Connecting? && IsPersistent(st.t, from)
    ensures Carried(Swapped(st, from, to, i, job))
  {
  }

  lemma {:induction false} SwappedOwned(st: State, from: int, to: int, i: int, job: Job)
    requires Inv(st) && Fresh(st, to) && CanSwap(st.t, from) && IsUnconnected(job)
    requires i !in st.f.agents || (st.f.agents[i].fd == from && st.f.agents[i].job == job)
    requires i !in st.f.agents ==> job.Connecting? && IsPersistent(st.t, from)
    ensures Owned(Swapped(st, from, to, i, job))
  {
  }

  lemma {:induction false} SwappedOrdered(st: State, from: int, to: int, i: int, job: Job)
    requires Inv(st) && Fresh(st, to) && CanSwap(st.t, from) && IsUnconnected(job)
    requires i !in st.f.agents || (st.f.agents[i].fd == from && st.f.agents[i].job == job)
    requires i !in st.f.agents ==> job.Connecting? && IsPersistent(st.t, from)
    ensures Ordered(Swapped(st, from, to, i, job))
  {
    var u := Swapped(st, from, to, i, job);
    forall s | s in u.t.sockets
      ensures Get(u.f.asked, s) == Get(u.f.sent, s) + Held(u.f, s) + Get(u.t.outgoing, s)
    {
      if s == to {
        assert Held(u.f, s) == if job.Carrying? then [job.e] else [];
      } else {
        assert s in st.t.sockets && Held(u.f, s) == Held(st.f, s);
      }
    }
  }

  lemma {:induction false} PushedKeeps(st: State, s: int, e: int)
    requires Inv(st) && s in st.t.outgoing
    ensures Inv(Pushed(st, s, e))
  {
    var u := Pushed(st, s, e);
    assert Held(u.f, s) == Held(st.f, s);
    assert Get(st.f.sent, s) + Held(st.f, s) + (st.t.outgoing[s] + [e])
        == Get(st.f.sent, s) + Held(st.f, s) + st.t.outgoing[s] + [e];
  }

  lemma {:induction false} StartedOrdered(st: State, s: int, e: int, i: int)
    requires Inv(st) && s in st.t.sockets && s !in st.t.outgoing && i !in st.f.agents
    ensures Ordered(Started(st, s, e, i))
  {
    var u := Started(st, s, e, i);
    forall r | r in u.t.sockets
      ensures Get(u.f.asked, r) == Get(u.f.sent, r) + Held(u.f, r) + Get(u.t.outgoing, r)
    {
      if r != s {
        assert Held(u.f, r) == Held(st.f, r);
      } else {
        assert Held(st.f, s) == [] && Held(u.f, s) == [];
      }
    }
  }

  lemma {:induction false} StartedCarried(st: State, s: int, e: int, i: int)
    requires Inv(st) && s in st.t.sockets && s !in st.t.outgoing && i !in st.f.agents
    ensures Consistent(Started(st, s, e, i).t) && Carried(Started(st, s, e, i))
  {
  }

  lemma {:induction false} StartedOwned(st: State, s: int, e: int, i: int)
    requires Inv(st) && s in st.t.sockets && s !in st.t.outgoing && i !in st.f.agents
    ensures Owned(Started(st, s, e, i))
  {
  }

  lemma {:induction false} PoppedCarried(st: State, s: int, i: int)
    requires Inv(st) && s in st.t.outgoing && st.t.outgoing[s] != []
    requires i in st.f.agents && st.f.agents[i].fd == s && !st.f.agents[i].job.Carrying?
    ensures Consistent(Popped(st, s, i).t) && Carried(Popped(st, s, i))
  {
  }

  lemma {:induction false} PoppedOwned(st: State, s: int, i: int)
    requires Inv(st) && s in st.t.outgoing && st.t.outgoing[s] != []
    requires i in st.f.agents && st.f.agents[i].fd == s && !st.f.agents[i].job.Carrying?
    ensures Owned(Popped(st, s, i))
  {
  }

  lemma {:induction false} PoppedOrdered(st: State, s: int, i: int)
    requires Inv(st) && s in st.t.outgoing && st.t.outgoing[s] != []
    requires i in st.f.agents && st.f.agents[i].fd == s && !st.f.agents[i].job.Carrying?
    ensures Ordered(Popped(st, s, i))
  {
    var u := Popped(st, s, i);
    assert st.t.outgoing[s] == [st.t.outgoing[s][0]] + st.t.outgoing[s][1..];
    forall r | r in u.t.sockets
      ensures Get(u.f.asked, r) == Get(u.f.sent, r) + Held(u.f, r) + Get(u.t.outgoing, r)
    {
      if r != s {
        assert Held(u.f, r) == Held(st.f, r);
      }
    }
  }

  lemma {:induction false} DrainedOrdered(st: State, s: int, i: int)
    requires Inv(st) && s in st.t.outgoing && st.t.outgoing[s] == []
    requires i in st.f.agents && st.f.agents[i].fd == s && !st.f.agents[i].job.Carrying?
    ensures Ordered(Drained(st, s, i))
  {
    var u := Drained(st, s, i);
    forall r | r in u.t.sockets
      ensures Get(u.f.asked, r) == Get(u.f.sent, r) + Held(u.f, r) + Get(u.t.outgoing, r)
    {
      if r != s {
        assert Held(u.f, r) == Held(st.f, r);
      } else {
        assert Held(st.f, s) == [] && Held(u.f, s) == [];
      }
    }
  }

  lemma {:induction false} DrainedOwned(st: State, s: int, i: int)
    requires Inv(st) && s in st.t.sockets && CanNext(st.t, s) && st.t.outgoing[s] == []
    requires i in st.f.agents && st.f.agents[i].fd == s && !st.f.agents[i].job.Carrying?
    ensures Owned(Drained(st, s, i)) && Carried(Drained(st, s, i))
  {
  }

  lemma {:induction false} DrainedConsistent(st: State, s: int, i: int)
    requires Inv(st) && s in st.t.sockets && CanNext(st.t, s) && st.t.outgoing[s] == []
    ensures Consistent(Drained(st, s, i).t)
  {
  }

  lemma {:induction false} NextedKeeps(st: State, s: int, i: int)
    requires Inv(st) && i in st.f.agents && st.f.agents[i].fd == s && !st.f.agents[i].job.Carrying? && CanNext(st.t, s)
    ensures Inv(Nexted(st, s, i))
  {
    if s in st.t.sockets {
      if st.t.outgoing[s] != [] {
        PoppedOwned(st, s, i);
        PoppedCarried(st, s, i);
        PoppedOrdered(st, s, i);
      } else {
        DrainedConsistent(st, s, i);
        DrainedOwned(st, s, i);
        DrainedOrdered(st, s, i);
      }
    } else {
      LeftKeeps(st, i);
    }
  }

  lemma {:induction false} LeftKeeps(st: State, i: int)
    requires Inv(st) && i in st.f.agents && st.f.agents[i].fd !in st.t.sockets
    ensures Inv(Left(st, i))
  {
  }

  lemma {:induction false} QueuedKeeps(st: State, s: int, e: int, i: int)
    requires Inv(st) && s in st.t.sockets && i !in st.f.agents
    ensures Inv(Queued(st, s, e, i))
  {
    if s in st.t.outgoing {
      PushedKeeps(st, s, e);
    } else {
      StartedOwned(st, s, e, i);
      StartedCarried(st, s, e, i);
      StartedOrdered(st, s, e, i);
    }
  }

  lemma {:induction false} CreatedKeeps(st: State, s: int, a: int, i: int, job: Job)
    requires Inv(st) && Fresh(st, s) && i !in st.f.agents && IsUnconnected(job)
    requires if job.Carrying? then a !in st.t.temps else a !in st.t.persists
    ensures Inv(Created(st, s, a, i, job))
  {
    CreatedConsistent(st, s, a, i, job);
    CreatedOwned(st, s, a, i, job);
    CreatedCarried(st, s, a, i, job);
    CreatedOrdered(st, s, a, i, job);
  }

  lemma {:induction false} SwappedKeeps(st: State, from: int, to: int, i: int, job: Job)
    requires Inv(st) && Fresh(st, to) && CanSwap(st.t, from) && IsUnconnected(job)
    requires i !in st.f.agents || (st.f.agents[i].fd == from && st.f.agents[i].job == job)
    requires i !in st.f.agents ==> job.Connecting? && IsPersistent(st.t, from)
    ensures Inv(Swapped(st, from, to, i, job))
  {
    SwappedConsistent(st, from, to, i, job);
    SwappedOwned(st, from, to, i, job);
    SwappedCarried(st, from, to, i, job);
    SwappedOrdered(st, from, to, i, job);
  }

  lemma {:induction false} DisposeKeeps(st: State, s: int)
    requires Inv(st) && s in st.t.sockets && (s !in st.t.addresses || s in st.t.dispose)
    ensures Inv(st.(t := st.t.(dispose := st.t.dispose + {s})))
  {
  }

  lemma {:induction false} CarryOn(st: State, i: int)
    requires Inv(st) && i in st.f.agents && st.f.agents[i].job.Carrying?
    ensures Inv(st.(f := Send(st.f, i, st.f.agents[i].fd, st.f.agents[i].job.e)))
  {
    CarryOnOwned(st, i);
    CarryOnOrdered(st, i);
  }

  lemma {:induction false} CarryOnOwned(st: State, i: int)
    requires Inv(st) && i in st.f.agents && st.f.agents[i].job.Carrying?
    ensures var u := st.(f := Send(st.f, i, st.f.agents[i].fd, st.f.agents[i].job.e)); Owned(u) && Carried(u)
  {
  }

  lemma {:induction false} CarryOnOrdered(st: State, i: int)
    requires Inv(st) && i in st.f.agents && st.f.agents[i].job.Carrying?
    ensures Ordered(st.(f := Send(st.f, i, st.f.agents[i].fd, st.f.agents[i].job.e)))
  {
    var f := Send(st.f, i, st.f.agents[i].fd, st.f.agents[i].job.e);
    forall s | s in st.t.sockets
      ensures Get(f.asked, s) == Get(f.sent, s) + Held(f, s) + Get(st.t.outgoing, s)
    {
      if s != st.f.agents[i].fd {
        assert Held(f, s) == Held(st.f, s);
      } else {
        assert Held(st.f, s) == [st.f.agents[i].job.e] && Held(f, s) == [];
      }
    }
  }

  lemma {:induction false} ReceivedKeeps(st: State, i: int)
    requires Inv(st) && i in st.f.agents && !st.f.agents[i].job.Sending?
    ensures Inv(Received(st, i))
  {
    var u := Received(st, i);
    forall s | s in st.t.sockets ensures Held(u.f, s) == Held(st.f, s) {
    }
  }

  lemma {:induction false} AcceptKeeps(st: State, s: int)
    requires Inv(st) && Fresh(st, s)
    ensures Inv(State(st.t.(sockets := st.t.sockets + {s}),
                      st.f.(asked := st.f.asked[s := []], sent := st.f.sent[s := []])))
  {
  }

  lemma {:induction false} NextFits(st: State, s: int, i: int)
    requires Inv(st) && i in st.f.agents && st.f.agents[i].fd == s
    ensures CanNext(st.t, s)
  {
    var t := st.t;
    if s in t.addresses && IsPersistent(t, s) {
      var a := t.addresses[s];
      assert a in t.persists && s !in t.dispose;
    }
  }

  /** No CHECK of send, next or swap_implementing_socket can fail. */
  lemma {:induction false} NoFault(st: State, x: Action)
    requires Inv(st) && Enabled(st, x)
    ensures !Fault(st, x)
  {
    var t, f := st.t, st.f;
    match x {
      case Reconnect(a, _, _) => assert t.persists[a] in t.addresses;
      case SendMessage(a, _, _, _) =>
        assert a in t.persists ==> t.persists[a] in t.addresses;
        assert a in t.temps ==> t.temps[a] in t.addresses;
      case Downgrade(i, _) =>
      case Begin(i) => NextFits(st, f.agents[i].fd, i);
      case SendDone(i) => NextFits(st, f.agents[i].fd, i);
      case _ =>
    }
  }

  lemma {:induction false} InvKept(st: State, x: Action)
    requires Inv(st) && Enabled(st, x) && !Fault(st, x)
    ensures Inv(Do(st, x))
  {
    var t, f := st.t, st.f;
    match x {
      case Accept(s) => AcceptKeeps(st, s);
      case LinkNew(a, s, i) => CreatedKeeps(st, s, a, i, Connecting(false));
      case Reconnect(a, s, i) => SwappedKeeps(st, t.persists[a], s, i, Connecting(false));
      case SendEncoder(s, e, persist, i) =>
        if s in t.sockets {
          if persist {
            QueuedKeeps(st, s, e, i);
          } else {
            DisposeKeeps(st, s);
            QueuedKeeps(st.(t := t.(dispose := t.dispose + {s})), s, e, i);
          }
        }
      case SendMessage(a, e, s, i) =>
        if a in t.persists {
          QueuedKeeps(st, t.persists[a], e, i);
        } else if a in t.temps {
          DisposeKeeps(st, t.temps[a]);
          QueuedKeeps(st.(t := t.(dispose := t.dispose + {t.temps[a]})), t.temps[a], e, i);
        } else {
          CreatedKeeps(st, s, a, i, Carrying(e, false));
        }
      case Connected(i) =>
        if f.agents[i].job.Connecting? && f.agents[i].fd !in t.sockets {
          LeftKeeps(st, i);
        } else {
          ReceivedKeeps(st, i);
        }
      case Begin(i) =>
        if f.agents[i].job.Connecting? {
          NextedKeeps(st, f.agents[i].fd, i);
        } else {
          CarryOn(st, i);
        }
      case ConnectFailed(i) => ClosedLeftKeeps(st, i);
      case Downgrade(i, s) =>
        if f.agents[i].fd !in t.sockets {
          LeftKeeps(st, i);
        } else {
          SwappedKeeps(st, f.agents[i].fd, s, i, f.agents[i].job);
        }
      case SendDone(i) => NextedKeeps(st, f.agents[i].fd, i);
      case SendFailed(i) => ClosedLeftKeeps(st, i);
      case RecvClosed(s) => ClosedKeeps(st, s);
      case Proxy(s) =>
      case Unproxy(s) =>
    }
  }

  // ---------------------------------------------------------------- runs

  datatype Outcome = Stuck | Aborted | At(st: State)

  /** The outcome of a run; `Aborted` when a CHECK failed on the way. */
  ghost function Exec(run: seq<Action>): Outcome {
    if run == [] then At(INITIAL)
    else
      var before, x := Exec(run[..|run| - 1]), run[|run| - 1];
      if !before.At? then before
      else if !Enabled(before.st, x) then Stuck
      else if Fault(before.st, x) then Aborted
      else At(Do(before.st, x))
  }

  /** No run fails a CHECK, and in every state of every run the tables agree, each live socket has a queue
      exactly while one agent works on it, and its encoders leave in the order they came. */
  lemma {:induction false} TablesStayConsistent(run: seq<Action>)
    ensures !Exec(run).Aborted?
    ensures Exec(run).At? ==> Inv(Exec(run).st)
  {
    if run != [] {
      TablesStayConsistent(run[..|run| - 1]);
      var before, x := Exec(run[..|run| - 1]), run[|run| - 1];
      if before.At? && Enabled(before.st, x) {
        NoFault(before.st, x);
        InvKept(before.st, x);
      }
    }
  }

  /** What is sent on a live socket is always a prefix of what was asked of it, and two agents never work on
      the same live socket. */
  lemma {:induction false} OneSenderInOrder(run: seq<Action>, s: int, i: int, j: int)
    requires Exec(run).At? && s in Exec(run).st.t.sockets
    ensures var f := Exec(run).st.f;
      && Get(f.sent, s) <= Get(f.asked, s)
      && (i in f.agents && j in f.agents && f.agents[i].fd == s && f.agents[j].fd == s ==> i == j)
  {
    TablesStayConsistent(run);
  }

  lemma {:induction false} SwappedRest(st: State, from: int, to: int, i: int, job: Job)
    requires Inv(st) && from in st.t.sockets && from in st.t.addresses && from != to
    requires if i in st.f.agents then st.f.agents[i] == Agent(from, job)
             else job.Connecting? && IsPersistent(st.t, from)
    ensures Get(st.f.asked, from) == Get(st.f.sent, from) + Get(Swapped(st, from, to, i, job).f.asked, to)
  {
    if i !in st.f.agents {
      var a := st.t.addresses[from];
      assert a in st.t.persists && from !in st.t.dispose;
      assert a in st.t.temps ==> st.t.temps[a] in st.t.dispose;
      if from in st.f.owner {
        var k := st.f.owner[from];
        assert k in st.f.agents && !st.f.agents[k].job.Carrying?;
      }
    }
    assert Held(st.f, from) == if job.Carrying? then [job.e] else [];
  }

  /** A swap hands the unsent rest of the old socket to the new one, in order; what was being written is
      not repeated. */
  lemma {:induction false} SwapKeepsRest(run: seq<Action>, x: Action)
    requires Exec(run).At? && Enabled(Exec(run).st, x)
    requires x.Reconnect? || (x.Downgrade? && Exec(run).st.f.agents[x.i].fd in Exec(run).st.t.sockets)
    ensures
      var st := Exec(run).st;
      var from := if x.Reconnect? then st.t.persists[x.a] else st.f.agents[x.i].fd;
      && !Fault(st, x)
      && Get(st.f.asked, from) == Get(st.f.sent, from) + Get(Do(st, x).f.asked, x.s)
  {
    TablesStayConsistent(run);
    var st := Exec(run).st;
    NoFault(st, x);
    if x.Reconnect? {
      SwappedRest(st, st.t.persists[x.a], x.s, x.i, Connecting(false));
    } else {
      SwappedRest(st, st.f.agents[x.i].fd, x.s, x.i, st.f.agents[x.i].job);
    }
  }

  /** exited() is called once for each address that loses its persistent socket, and for no other. */
  ghost predicate Reported(st: State, u: State) {
    && st.f.exits <= u.f.exits
    && multiset(u.f.exits[|st.f.exits|..]) == multiset(st.t.persists.Keys - u.t.persists.Keys)
  }

  /** exited() is called for an address exactly when its persistent socket goes away without a successor. */
  lemma {:induction false} LossIsReported(run: seq<Action>, x: Action)
    requires Exec(run).At? && Enabled(Exec(run).st, x)
    ensures !Fault(Exec(run).st, x) && Reported(Exec(run).st, Do(Exec(run).st, x))
  {
    TablesStayConsistent(run);
    NoFault(Exec(run).st, x);
    StepReports(Exec(run).st, x);
  }

  lemma {:induction false} StepReports(st: State, x: Action)
    requires Enabled(st, x) && !Fault(st, x)
    ensures Reported(st, Do(st, x))
  {
    var u := Do(st, x);
    match x {
      case ConnectFailed(i) => ReportsLoss(st, st.f.agents[i].fd);
      case SendFailed(i) => ReportsLoss(st, st.f.agents[i].fd);
      case RecvClosed(s) => ReportsLoss(st, s);
      case _ =>
        LosesNothing(st, x);
        assert st.t.persists.Keys - u.t.persists.Keys == {};
    }
    assert u.f.exits[|st.f.exits|..] == [] || |u.f.exits[|st.f.exits|..]| == 1;
  }

  lemma {:induction false} LosesNothing(st: State, x: Action)
    requires Enabled(st, x) && !Fault(st, x) && !x.ConnectFailed? && !x.SendFailed? && !x.RecvClosed?
    ensures st.t.persists.Keys <= Do(st, x).t.persists.Keys && Do(st, x).f.exits == st.f.exits
  {
    match x {
      case Reconnect(_, _, _) =>
      case SendMessage(_, _, _, _) =>
      case Connected(_) =>
      case Begin(_) =>
      case Downgrade(_, _) =>
      case SendDone(_) =>
      case _ =>
    }
  }

  lemma {:induction false} ReportsLoss(st: State, s: int)
    ensures var u := Closed(st, s);
      if s in st.t.sockets && IsPersistent(st.t, s)
      then && st.t.persists.Keys - u.t.persists.Keys == {st.t.addresses[s]}
           && u.f.exits == st.f.exits + [st.t.addresses[s]]
      else u.t.persists == st.t.persists && u.f.exits == st.f.exits
  {
  }

  // ---------------------------------------------------------------- what closing and swapping leave behind

  ghost predicate NoTrace(t: Tables, s: int) {
    && s !in t.sockets && s !in t.outgoing && s !in t.dispose && s !in t.addresses && s !in t.proxies
    && s !in t.persists.Values && s !in t.temps.Values
  }

  lemma {:induction false} GoneFromAll(t: Tables, s: int)
    requires Consistent(t) && s !in t.sockets
    ensures NoTrace(t, s)
  {
    forall a | a in t.persists ensures t.persists[a] != s {
      assert t.persists[a] in t.addresses;
    }
    forall a | a in t.temps ensures t.temps[a] != s {
      assert t.temps[a] in t.addresses;
    }
  }

  /** The socket that an action closes. */
  predicate Closes(st: State, x: Action, s: int) {
    || x == RecvClosed(s)
    || ((x.ConnectFailed? || x.SendFailed?) && x.i in st.f.agents && st.f.agents[x.i].fd == s)
  }

  /** In every run, whoever calls close(), afterwards no table mentions the socket. */
  lemma {:induction false} CloseLeavesNoTrace(run: seq<Action>, x: Action, s: int)
    requires Exec(run).At? && Enabled(Exec(run).st, x) && Closes(Exec(run).st, x, s)
    ensures !Fault(Exec(run).st, x) && NoTrace(Do(Exec(run).st, x).t, s)
  {
    TablesStayConsistent(run);
    NoFault(Exec(run).st, x);
    InvKept(Exec(run).st, x);
    GoneFromAll(Do(Exec(run).st, x).t, s);
  }

  /** In every run, after a reconnect no table mentions the old socket, and the new one has its place:
      still persistent, with the same queue, proxy and fate. */
  lemma {:induction false} ReconnectTakesOver(run: seq<Action>, a: int, to: int, i: int)
    requires Exec(run).At? && Enabled(Exec(run).st, Reconnect(a, to, i))
    ensures var st := Exec(run).st;
      var from := st.t.persists[a];
      && !Fault(st, Reconnect(a, to, i))
      && var u := Do(st, Reconnect(a, to, i)).t;
      && NoTrace(u, from) && IsPersistent(u, to) && u.addresses[to] == a
      && to in u.outgoing && u.outgoing[to] == Get(st.t.outgoing, from)
      && (to in u.dispose <==> from in st.t.dispose) && (to in u.proxies <==> from in st.t.proxies)
  {
    TablesStayConsistent(run);
    var st := Exec(run).st;
    var x := Reconnect(a, to, i);
    NoFault(st, x);
    InvKept(st, x);
    var from := st.t.persists[a];
    assert from in st.t.addresses && from in st.t.sockets && from != to;
    GoneFromAll(Do(st, x).t, from);
  }

  /** In every run, when a send on a live socket completes, the encoder that has waited longest goes out
      next; with none waiting the socket becomes idle, and one to be disposed of vanishes. */
  lemma {:induction false} NextAdvances(run: seq<Action>, i: int)
    requires Exec(run).At? && Enabled(Exec(run).st, SendDone(i))
    requires Exec(run).st.f.agents[i].fd in Exec(run).st.t.sockets
    ensures var st := Exec(run).st;
      var s := st.f.agents[i].fd;
      && !Fault(st, SendDone(i)) && s in st.t.outgoing
      && var u := Do(st, SendDone(i));
      && Get(u.f.sent, s) == Get(st.f.sent, s) + (if st.t.outgoing[s] == [] then [] else [st.t.outgoing[s][0]])
      && (if st.t.outgoing[s] == [] then i !in u.f.agents && s !in u.t.outgoing
          else u.f.agents[i] == Agent(s, Sending(st.t.outgoing[s][0])) && s in u.t.outgoing)
      && (st.t.outgoing[s] == [] && s in st.t.dispose ==> NoTrace(u.t, s))
  {
    TablesStayConsistent(run);
    var st := Exec(run).st;
    var s := st.f.agents[i].fd;
    NoFault(st, SendDone(i));
    NextedKeeps(st, s, i);
    if st.t.outgoing[s] == [] && s in st.t.dispose {
      GoneFromAll(Nexted(st, s, i).t, s);
    }
  }
}
