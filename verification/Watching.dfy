/**
  Links and sockets together: link() adds a link in the same locked block that makes sure of a persistent
  socket, and close() calls exited() in the block that takes the socket away.
 */
module Watching {
  import opened Links
  import S = Sockets

  /** `made`, `told` and `forgotten` are auxiliary: links made, ended by an ExitedEvent, and dropped because the
      linker itself exited. */
  datatype Tally = Tally(made: multiset<Exited>, told: multiset<Exited>, forgotten: multiset<Exited>)

  /** `gone` and `ended`: the names and the objects of local processes that have exited. */
  datatype State = State(here: int, sockets: S.State, links: set<Exited>, tally: Tally,
                         gone: set<Upid>, ended: set<Proc>)

  datatype Action =
    | LinkLocal(p: Proc, u: Upid)
    | LinkRemote(p: Proc, u: Upid, reconnect: bool, fd: int, agent: int)
    | LinkFails(p: Proc, u: Upid)   // no socket, or no such local process: one ExitedEvent, no link
    | Socket(x: S.Action)           // anything else that happens to sockets
    | Exit(p: Proc, pid: Upid)      // exited(process)
    | Spawn(pid: Upid)              // a new process takes the name

  /** What a link to a remote process does to the sockets, if anything. */
  function Connects(s: State, a: Action): seq<S.Action>
    requires a.LinkRemote?
  {
    var t := s.sockets.t;
    if a.u.address !in t.persists then [S.LinkNew(a.u.address, a.fd, a.agent)]
    else if a.reconnect then [S.Reconnect(a.u.address, a.fd, a.agent)] else []
  }

  /** The socket action that is part of `a`. */
  function Part(s: State, a: Action): seq<S.Action> {
    if a.Socket? then [a.x] else if a.LinkRemote? then Connects(s, a) else []
  }

  /** A process links while it runs, so before it exits. A local linkee is held by a reference across link(), and
      cleanup calls exited() only after every reference has expired. */
  ghost predicate Enabled(s: State, a: Action) {
    && (Part(s, a) != [] ==> S.Enabled(s.sockets, Part(s, a)[0]))
    && match a
       case LinkLocal(p, u) => u.address == s.here && u !in s.gone && p !in s.ended
       case LinkRemote(p, u, _, _, _) => u.address != s.here && p !in s.ended
       case LinkFails(_, _) => true
       case Socket(x) => !x.LinkNew? && !x.Reconnect?
       case Exit(_, pid) => pid.address == s.here
       case Spawn(pid) => pid.address == s.here
  }

  ghost predicate Fault(s: State, a: Action) { Part(s, a) != [] && S.Fault(s.sockets, Part(s, a)[0]) }

  ghost function After(s: State, a: Action): S.State
    requires Enabled(s, a) && !Fault(s, a)
  {
    if Part(s, a) == [] then s.sockets else S.Do(s.sockets, Part(s, a)[0])
  }

  /** The addresses for which a step of the sockets called exited(), in order. */
  function Calls(st: S.State, u: S.State): seq<int> {
    if |st.f.exits| <= |u.f.exits| then u.f.exits[|st.f.exits|..] else []
  }

  function Linked(s: State, p: Proc, u: Upid): State {
    var e := Exited(p, u);
    if e in s.links then s
    else s.(links := s.links + {e}, tally := s.tally.(made := s.tally.made + multiset{e}))
  }

  /** exited(address), as `Tables.ExitedAddress` does it, for one address after the other. */
  function Lose(s: State, addresses: seq<int>): State
    decreases |addresses|
  {
    if addresses == [] then s
    else
      var left := AfterAddress(s.links, addresses[0], s.here);
      Lose(s.(links := left, tally := s.tally.(told := s.tally.told + multiset(s.links - left))), addresses[1..])
  }

  function Gone(s: State, p: Proc, pid: Upid): State {
    var left := AfterProcess(s.links, p, pid);
    var own := set e | e in s.links && e.linker == p;
    s.(links := left, gone := s.gone + {pid}, ended := s.ended + {p},
       tally := s.tally.(forgotten := s.tally.forgotten + multiset(own),
                         told := s.tally.told + multiset(s.links - left - own)))
  }

  ghost function Do(s: State, a: Action): State
    requires Enabled(s, a) && !Fault(s, a)
  {
    var r := Lose(s.(sockets := After(s, a)), Calls(s.sockets, After(s, a)));
    match a
    case LinkLocal(p, u) => Linked(r, p, u)
    case LinkRemote(p, u, _, _, _) => Linked(r, p, u)
    case LinkFails(p, u) =>
      r.(tally := r.tally.(made := r.tally.made + multiset{Exited(p, u)},
                           told := r.tally.told + multiset{Exited(p, u)}))
    case Socket(_) => r
    case Exit(p, pid) => Gone(r, p, pid)
    case Spawn(pid) => r.(gone := r.gone - {pid})
  }

  // ---------------------------------------------------------------- what exited() does

  lemma {:induction false} LoseIs(s: State, addresses: seq<int>)
    ensures var r := Lose(s, addresses);
      && r.links == (set e | e in s.links && (e.linkee.address !in addresses || e.linkee.address == s.here))
      && r.sockets == s.sockets && r.here == s.here && r.gone == s.gone && r.ended == s.ended
      && r.tally == s.tally.(told := r.tally.told)
    decreases |addresses|
  {
    if addresses != [] {
      var left := AfterAddress(s.links, addresses[0], s.here);
      LoseIs(s.(links := left, tally := s.tally.(told := s.tally.told + multiset(s.links - left))), addresses[1..]);
      assert forall a :: a in addresses <==> a == addresses[0] || a in addresses[1..];
    }
  }

  lemma {:induction false} LoseTallies(s: State, addresses: seq<int>)
    requires Tallied(s)
    ensures Tallied(Lose(s, addresses))
    decreases |addresses|
  {
    if addresses != [] {
      var left := AfterAddress(s.links, addresses[0], s.here);
      var r := s.(links := left, tally := s.tally.(told := s.tally.told + multiset(s.links - left)));
      LoseTallies(r, addresses[1..]);
    }
  }

  // ---------------------------------------------------------------- invariant

  /** Every link to a remote process has a persistent socket to its address. */
  ghost predicate Watched(s: State) {
    forall e :: e in s.links ==> e.linkee.address == s.here || e.linkee.address in s.sockets.t.persists
  }

  /** No link from or to a local process that has exited. */
  ghost predicate Alive(s: State) {
    forall e :: e in s.links ==> e.linker !in s.ended && (e.linkee.address == s.here ==> e.linkee !in s.gone)
  }

  /** A link made is still there, or has ended in one of the two ways, once. */
  ghost predicate Tallied(s: State) {
    forall e :: s.tally.made[e] == s.tally.told[e] + s.tally.forgotten[e] + if e in s.links then 1 else 0
  }

  ghost predicate Inv(s: State) {
    S.Inv(s.sockets) && s.here !in s.sockets.t.persists && Watched(s) && Alive(s) && Tallied(s)
  }

  lemma {:induction false} SocketPart(s: State, a: Action)
    requires Inv(s) && Enabled(s, a)
    ensures !Fault(s, a) && S.Inv(After(s, a))
  {
    if Part(s, a) != [] {
      S.NoFault(s.sockets, Part(s, a)[0]);
      S.InvKept(s.sockets, Part(s, a)[0]);
    }
  }

  /** Persistent sockets come from links, and a swap keeps them. */
  lemma {:induction false} NewPersists(t: S.State, x: S.Action)
    requires S.Enabled(t, x) && !S.Fault(t, x)
    ensures S.Do(t, x).t.persists.Keys <= t.t.persists.Keys + if x.LinkNew? then {x.a} else {}
    ensures x.LinkNew? || x.Reconnect? ==>
              t.t.persists.Keys <= S.Do(t, x).t.persists.Keys && x.a in S.Do(t, x).t.persists
  {
    match x {
      case LinkNew(_, _, _) =>
      case Reconnect(_, _, _) =>
      case SendMessage(_, _, _, _) =>
      case Connected(_) =>
      case Begin(_) =>
      case Downgrade(_, _) =>
      case SendDone(_) =>
      case _ =>
    }
  }

  /** exited() is called for exactly the addresses that lose their persistent socket. */
  lemma {:induction false} CallsAreLosses(s: State, a: Action, address: int)
    requires Enabled(s, a) && !Fault(s, a)
    ensures var u := After(s, a);
      && (address in Calls(s.sockets, u) <==> address in s.sockets.t.persists && address !in u.t.persists)
      && multiset(Calls(s.sockets, u)) == multiset(s.sockets.t.persists.Keys - u.t.persists.Keys)
  {
    var u := After(s, a);
    if Part(s, a) != [] {
      S.StepReports(s.sockets, Part(s, a)[0]);
    }
    assert address in Calls(s.sockets, u) <==> address in multiset(Calls(s.sockets, u));
  }

  lemma {:induction false} WatchKept(s: State, a: Action)
    requires Watched(s) && s.here !in s.sockets.t.persists && Enabled(s, a) && !Fault(s, a)
    ensures Watched(Do(s, a)) && s.here !in Do(s, a).sockets.t.persists
  {
    var u := After(s, a);
    var calls := Calls(s.sockets, u);
    LoseIs(s.(sockets := u), calls);
    if Part(s, a) != [] {
      NewPersists(s.sockets, Part(s, a)[0]);
    }
    forall e | e in Lose(s.(sockets := u), calls).links
      ensures e.linkee.address == s.here || e.linkee.address in u.t.persists
    {
      CallsAreLosses(s, a, e.linkee.address);
    }
  }

  lemma {:induction false} AliveKept(s: State, a: Action)
    requires Alive(s) && Enabled(s, a) && !Fault(s, a)
    ensures Alive(Do(s, a))
  {
    LoseIs(s.(sockets := After(s, a)), Calls(s.sockets, After(s, a)));
  }

  lemma {:induction false} LinkedTallies(s: State, p: Proc, u: Upid)
    requires Tallied(s)
    ensures Tallied(Linked(s, p, u))
  {
  }

  lemma {:induction false} GoneTallies(s: State, p: Proc, pid: Upid)
    requires Tallied(s)
    ensures Tallied(Gone(s, p, pid))
  {
  }

  lemma {:induction false} TallyKept(s: State, a: Action)
    requires Tallied(s) && Enabled(s, a) && !Fault(s, a)
    ensures Tallied(Do(s, a))
  {
    var t := s.(sockets := After(s, a));
    var r := Lose(t, Calls(s.sockets, t.sockets));
    LoseTallies(t, Calls(s.sockets, t.sockets));
    match a {
      case LinkLocal(p, u) => LinkedTallies(r, p, u);
      case LinkRemote(p, u, _, _, _) => LinkedTallies(r, p, u);
      case LinkFails(_, _) =>
      case Socket(_) =>
      case Exit(p, pid) => GoneTallies(r, p, pid);
      case Spawn(_) =>
    }
  }

  // ---------------------------------------------------------------- runs

  function Initial(here: int): State {
    State(here, S.INITIAL, {}, Tally(multiset{}, multiset{}, multiset{}), {}, {})
  }

  datatype Outcome = Stuck | Aborted | At(s: State)

  ghost function Exec(here: int, run: seq<Action>): Outcome {
    if run == [] then At(Initial(here))
    else
      var before, a := Exec(here, run[..|run| - 1]), run[|run| - 1];
      if !before.At? then before
      else if !Enabled(before.s, a) then Stuck
      else if Fault(before.s, a) then Aborted
      else At(Do(before.s, a))
  }

  lemma {:induction false} InvAlways(here: int, run: seq<Action>)
    ensures !Exec(here, run).Aborted?
    ensures Exec(here, run).At? ==> Inv(Exec(here, run).s)
  {
    if run != [] {
      InvAlways(here, run[..|run| - 1]);
      var before, a := Exec(here, run[..|run| - 1]), run[|run| - 1];
      if before.At? && Enabled(before.s, a) {
        SocketPart(before.s, a);
        LoseIs(before.s.(sockets := After(before.s, a)), Calls(before.s.sockets, After(before.s, a)));
        WatchKept(before.s, a);
        AliveKept(before.s, a);
        TallyKept(before.s, a);
      }
    }
  }

  /** In every run, whatever happens to connections, every link to a remote process is watched by a live
      persistent socket to its address. */
  lemma {:induction false} RemoteLinksAreWatched(here: int, run: seq<Action>, e: Exited)
    requires Exec(here, run).At? && e in Exec(here, run).s.links && e.linkee.address != Exec(here, run).s.here
    ensures var t := Exec(here, run).s.sockets.t;
      && e.linkee.address in t.persists
      && t.persists[e.linkee.address] in t.sockets
      && S.IsPersistent(t, t.persists[e.linkee.address])
  {
    InvAlways(here, run);
    var t := Exec(here, run).s.sockets.t;
    assert t.persists[e.linkee.address] in t.addresses;
  }

  /** In every run, a call of link() that succeeds leaves the link in place, and one that fails tells the caller once
      and changes no link. */
  lemma {:induction false} LinkIsMade(here: int, run: seq<Action>, a: Action)
    requires Exec(here, run).At? && Enabled(Exec(here, run).s, a)
    ensures !Fault(Exec(here, run).s, a)
    ensures var s, r := Exec(here, run).s, Do(Exec(here, run).s, a);
      && (a.LinkLocal? || a.LinkRemote? ==> r.links == s.links + {Exited(a.p, a.u)} && r.tally.told == s.tally.told)
      && (a.LinkFails? ==> r.links == s.links && r.tally.told == s.tally.told + multiset{Exited(a.p, a.u)})
  {
    InvAlways(here, run);
    var s := Exec(here, run).s;
    SocketPart(s, a);
    if Part(s, a) != [] && !a.Socket? {
      NewPersists(s.sockets, Part(s, a)[0]);
    }
    if !a.Socket? {
      NoCalls(s, a);
    }
  }

  /** Linking calls no exited(). */
  lemma {:induction false} NoCalls(s: State, a: Action)
    requires Enabled(s, a) && !Fault(s, a) && !a.Socket?
    ensures Calls(s.sockets, After(s, a)) == []
  {
    CallsAreLosses(s, a, 0);
    if Part(s, a) != [] {
      NewPersists(s.sockets, Part(s, a)[0]);
    }
    assert s.sockets.t.persists.Keys - After(s, a).t.persists.Keys == {};
    var calls := Calls(s.sockets, After(s, a));
    assert |calls| == |multiset(calls)| == 0;
  }

  /** In every run, the exit of a process ends its own links silently and every link to it with one ExitedEvent, and
      touches no other. */
  lemma {:induction false} ExitEndsItsLinks(here: int, run: seq<Action>, p: Proc, pid: Upid, e: Exited)
    requires Exec(here, run).At? && Enabled(Exec(here, run).s, Exit(p, pid))
    ensures var s, r := Exec(here, run).s, Do(Exec(here, run).s, Exit(p, pid));
      && (e in r.links <==> e in s.links && e.linker != p && e.linkee != pid)
      && r.tally.told[e] == s.tally.told[e] + (if e in s.links && e.linker != p && e.linkee == pid then 1 else 0)
      && p in r.ended && pid in r.gone
  {
    NoCalls(Exec(here, run).s, Exit(p, pid));
  }

  /** In every run, no link from or to a local process that has exited is left or made. */
  lemma {:induction false} NoLinkToTheDead(here: int, run: seq<Action>, e: Exited)
    requires Exec(here, run).At? && e in Exec(here, run).s.links
    ensures e.linker !in Exec(here, run).s.ended
    ensures e.linkee.address == Exec(here, run).s.here ==> e.linkee !in Exec(here, run).s.gone
  {
    InvAlways(here, run);
  }

  /** In every run, each link that was made is there, or ended with exactly one ExitedEvent, or went with its
      linker. */
  lemma {:induction false} EachLinkEndsOnce(here: int, run: seq<Action>, e: Exited)
    requires Exec(here, run).At?
    ensures var s := Exec(here, run).s;
      s.tally.made[e] == s.tally.told[e] + s.tally.forgotten[e] + if e in s.links then 1 else 0
  {
    InvAlways(here, run);
  }

  /** In every run, a step that loses the persistent socket to an address calls exited() for that address
      and no other, and that ends every link to it, and no other, with one ExitedEvent each. */
  lemma {:induction false} LossEndsItsLinks(here: int, run: seq<Action>, x: S.Action)
    requires Exec(here, run).At? && Enabled(Exec(here, run).s, Socket(x))
    ensures !Fault(Exec(here, run).s, Socket(x))
    ensures var s, r := Exec(here, run).s, Do(Exec(here, run).s, Socket(x));
      var lost := s.sockets.t.persists.Keys - r.sockets.t.persists.Keys;
      && multiset(Calls(s.sockets, r.sockets)) == multiset(lost)
      && r.links == (set e | e in s.links && e.linkee.address !in lost)
      && forall e :: r.tally.told[e] == s.tally.told[e] + if e in s.links && e.linkee.address in lost then 1 else 0
  {
    InvAlways(here, run);
    var s, a := Exec(here, run).s, Socket(x);
    SocketPart(s, a);
    TallyKept(s, a);
    var r := Do(s, a);
    LoseIs(s.(sockets := After(s, a)), Calls(s.sockets, After(s, a)));
    CallsAreLosses(s, a, 0);
    forall e | e in s.links
      ensures e in r.links <==> e.linkee.address !in s.sockets.t.persists.Keys - r.sockets.t.persists.Keys
    {
      CallsAreLosses(s, a, e.linkee.address);
    }
  }
}
