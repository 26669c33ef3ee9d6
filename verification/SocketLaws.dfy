/** What the socket manager's calls achieve, told from the actions of a run and the tables alone. */
module SocketLaws {
  import opened Sockets

  /** The socket that an encoder handed in by `x` is for: a live one named by the caller, or the persistent, else the
      temporary, else a new one for the address. */
  function HandedTo(t: Tables, x: Action): set<int> {
    match x
    case SendEncoder(s, _, _, _) => if s in t.sockets then {s} else {}
    case SendMessage(a, _, s, _) =>
      if a in t.persists then {t.persists[a]} else if a in t.temps then {t.temps[a]} else {s}
    case _ => {}
  }

  function Handed(t: Tables, x: Action, r: int): seq<int> {
    if r !in HandedTo(t, x) then [] else if x.SendEncoder? || x.SendMessage? then [x.e] else []
  }

  /** In every run, what is asked of a socket that stays is what was asked plus the encoder just handed in for it, if
      any; a socket made for a message is asked for that message, and one made otherwise for nothing. */
  lemma {:induction false} HandedIsAsked(run: seq<Action>, x: Action, r: int)
    requires Exec(run).At? && Enabled(Exec(run).st, x)
    ensures !Fault(Exec(run).st, x)
    ensures var st, u := Exec(run).st, Do(Exec(run).st, x);
      && (r in st.t.sockets && r in u.t.sockets ==>
            Get(u.f.asked, r) == Get(st.f.asked, r) + Handed(st.t, x, r))
      && (r !in st.t.sockets && r in u.t.sockets && !x.Reconnect? && !x.Downgrade? ==>
            Get(u.f.asked, r) == Handed(st.t, x, r))
      && (r in HandedTo(st.t, x) ==> r in u.t.sockets)
  {
    TablesStayConsistent(run);
    NoFault(Exec(run).st, x);
    AskedStep(Exec(run).st, x, r);
  }

  predicate AsksRight(st: State, x: Action, u: State, r: int) {
    && (r in st.t.sockets && r in u.t.sockets ==>
          Get(u.f.asked, r) == Get(st.f.asked, r) + Handed(st.t, x, r))
    && (r !in st.t.sockets && r in u.t.sockets && !x.Reconnect? && !x.Downgrade? ==>
          Get(u.f.asked, r) == Handed(st.t, x, r))
    && (r in HandedTo(st.t, x) ==> r in u.t.sockets)
  }

  lemma {:induction false} MessageAsks(st: State, x: Action, r: int)
    requires Inv(st) && Enabled(st, x) && !Fault(st, x) && x.SendMessage?
    ensures AsksRight(st, x, Do(st, x), r)
  {
    var t, a := st.t, x.a;
    if a in t.persists {
      var s := t.persists[a];
      assert s in t.addresses && s in t.sockets;
    } else if a in t.temps {
      var s := t.temps[a];
      assert s in t.addresses && s in t.sockets;
    }
  }

  lemma {:induction false} EncoderAsks(st: State, x: Action, r: int)
    requires Inv(st) && Enabled(st, x) && !Fault(st, x) && x.SendEncoder?
    ensures AsksRight(st, x, Do(st, x), r)
  {
  }

  lemma {:induction false} SwapAsks(st: State, x: Action, r: int)
    requires Inv(st) && Enabled(st, x) && !Fault(st, x) && (x.Reconnect? || x.Downgrade?)
    ensures AsksRight(st, x, Do(st, x), r)
  {
  }

  lemma {:induction false} AgentAsks(st: State, x: Action, r: int)
    requires Inv(st) && Enabled(st, x) && !Fault(st, x) && (x.Connected? || x.Begin? || x.SendDone?)
    ensures AsksRight(st, x, Do(st, x), r)
  {
  }

  lemma {:induction false} RestAsks(st: State, x: Action, r: int)
    requires Inv(st) && Enabled(st, x) && !Fault(st, x)
    requires !x.SendMessage? && !x.SendEncoder? && !x.Reconnect? && !x.Downgrade?
    requires !x.Connected? && !x.Begin? && !x.SendDone?
    ensures AsksRight(st, x, Do(st, x), r)
  {
  }

  lemma {:induction false} AskedStep(st: State, x: Action, r: int)
    requires Inv(st) && Enabled(st, x) && !Fault(st, x)
    ensures AsksRight(st, x, Do(st, x), r)
  {
    if x.SendMessage? { MessageAsks(st, x, r); }
    else if x.SendEncoder? { EncoderAsks(st, x, r); }
    else if x.Reconnect? || x.Downgrade? { SwapAsks(st, x, r); }
    else if x.Connected? || x.Begin? || x.SendDone? { AgentAsks(st, x, r); }
    else { RestAsks(st, x, r); }
  }

  // ---------------------------------------------------------------- the other calls

  /** In every run, a link to an address without a persistent socket gets one, a message to an address without any
      socket gets a temporary one, and an accepted socket is live. */
  lemma {:induction false} SocketsAreMade(run: seq<Action>, x: Action)
    requires Exec(run).At? && Enabled(Exec(run).st, x)
    ensures !Fault(Exec(run).st, x)
    ensures var t, u := Exec(run).st.t, Do(Exec(run).st, x).t;
      && (x.LinkNew? ==> IsPersistent(u, x.s) && u.addresses[x.s] == x.a && x.s in u.sockets)
      && (x.SendMessage? && x.a !in t.persists && x.a !in t.temps ==>
            IsTemporary(u, x.s) && u.addresses[x.s] == x.a && x.s in u.sockets && x.s in u.dispose)
      && (x.Accept? ==> u.sockets == t.sockets + {x.s})
      && (x.Proxy? && x.s in t.sockets ==> x.s in u.proxies)
      && (x.Unproxy? ==> u.proxies == t.proxies - {x.s})
  {
    TablesStayConsistent(run);
    NoFault(Exec(run).st, x);
  }

  /** In every run, sending a response that does not persist marks its socket for disposal, and one that persists does
      not; the socket stays until its queue has drained. */
  lemma {:induction false} DisposalIsMarked(run: seq<Action>, x: Action)
    requires Exec(run).At? && Enabled(Exec(run).st, x) && x.SendEncoder? && x.s in Exec(run).st.t.sockets
    ensures var t, u := Exec(run).st.t, Do(Exec(run).st, x).t;
      u.dispose == (if x.persist then t.dispose else t.dispose + {x.s}) && u.sockets == t.sockets && x.s in u.outgoing
  {
    var t := Exec(run).st.t;
    QueueTouches(Exec(run).st, x.s, x.e, x.i);
    QueueTouches(Exec(run).st.(t := t.(dispose := t.dispose + {x.s})), x.s, x.e, x.i);
  }

  lemma {:induction false} QueueTouches(st: State, s: int, e: int, i: int)
    ensures var u := Queued(st, s, e, i).t; u == st.t.(outgoing := u.outgoing) && s in u.outgoing
  {
  }

  /** In every run, a connected socket sends the message it was made for, or else what waits longest, as next() does. */
  lemma {:induction false} ConnectedSends(run: seq<Action>, i: int)
    requires Exec(run).At? && Enabled(Exec(run).st, Begin(i))
    ensures !Fault(Exec(run).st, Begin(i))
    ensures var st := Exec(run).st;
      var Agent(s, job) := st.f.agents[i];
      var u := Do(st, Begin(i));
      && (job.Carrying? ==> i in u.f.agents && u.f.agents[i] == Agent(s, Sending(job.e))
                            && Get(u.f.sent, s) == Get(st.f.sent, s) + [job.e])
      && (job.Connecting? && s in st.t.outgoing && st.t.outgoing[s] != [] ==>
            i in u.f.agents && s in u.t.outgoing &&
            u.f.agents[i] == Agent(s, Sending(st.t.outgoing[s][0])) && u.t.outgoing[s] == st.t.outgoing[s][1..])
      && (job.Connecting? && s !in st.t.sockets ==> i !in u.f.agents && u.t == st.t)
  {
    TablesStayConsistent(run);
    NoFault(Exec(run).st, Begin(i));
  }

  /** In every run, a connect that succeeds on a live socket starts its receive loop and touches no table. */
  lemma {:induction false} ConnectReceives(run: seq<Action>, i: int)
    requires Exec(run).At? && Enabled(Exec(run).st, Connected(i))
    ensures var st := Exec(run).st;
      var Agent(s, job) := st.f.agents[i];
      var u := Do(st, Connected(i));
      && u.t == st.t
      && (s in st.t.sockets ==> i in u.f.agents && u.f.agents[i] == Agent(s, job.(up := true)))
  {
  }

  /** In every run, after a downgrade of a live socket no table mentions the old one, and the new one has its place:
      persistent or temporary as it was, with the same address, queue, proxy and fate. */
  lemma {:induction false} DowngradeTakesOver(run: seq<Action>, i: int, to: int)
    requires Exec(run).At? && Enabled(Exec(run).st, Downgrade(i, to))
    requires Exec(run).st.f.agents[i].fd in Exec(run).st.t.sockets
    ensures var st := Exec(run).st;
      var from := st.f.agents[i].fd;
      && !Fault(st, Downgrade(i, to))
      && var u := Do(st, Downgrade(i, to)).t;
      && NoTrace(u, from) && from in st.t.addresses && to in u.addresses && u.addresses[to] == st.t.addresses[from]
      && (IsPersistent(st.t, from) ==> IsPersistent(u, to))
      && (!IsPersistent(st.t, from) ==> IsTemporary(u, to))
      && to in u.outgoing && u.outgoing[to] == Get(st.t.outgoing, from)
      && (to in u.dispose <==> from in st.t.dispose) && (to in u.proxies <==> from in st.t.proxies)
  {
    TablesStayConsistent(run);
    var st, x := Exec(run).st, Downgrade(i, to);
    NoFault(st, x);
    InvKept(st, x);
    var from := st.f.agents[i].fd;
    assert from in st.t.addresses && from != to;
    GoneFromAll(Do(st, x).t, from);
  }

  /** Why a socket may go: it is closed, swapped out, or was to be disposed of and has drained. */
  predicate MayGo(st: State, x: Action, r: int) {
    || Closes(st, x, r)
    || (x.Reconnect? && x.a in st.t.persists && st.t.persists[x.a] == r)
    || (x.Downgrade? && x.i in st.f.agents && st.f.agents[x.i].fd == r)
    || ((x.SendDone? || x.Begin?) && x.i in st.f.agents && st.f.agents[x.i].fd == r
        && r in st.t.dispose && Get(st.t.outgoing, r) == [])
  }

  /** In every run a socket goes only for such a reason. */
  lemma {:induction false} OnlyTheseGo(run: seq<Action>, x: Action, r: int)
    requires Exec(run).At? && Enabled(Exec(run).st, x) && r in Exec(run).st.t.sockets
    ensures !Fault(Exec(run).st, x) && (r !in Do(Exec(run).st, x).t.sockets ==> MayGo(Exec(run).st, x, r))
  {
    TablesStayConsistent(run);
    NoFault(Exec(run).st, x);
    if r !in Do(Exec(run).st, x).t.sockets { GoStep(Exec(run).st, x, r); }
  }

  lemma {:induction false} GoStep(st: State, x: Action, r: int)
    requires Inv(st) && Enabled(st, x) && !Fault(st, x) && r in st.t.sockets && r !in Do(st, x).t.sockets
    ensures MayGo(st, x, r)
  {
    match x {
      case SendMessage(_, _, _, _) =>
      case SendEncoder(_, _, _, _) =>
      case Reconnect(_, _, _) =>
      case Connected(_) =>
      case Begin(_) =>
      case ConnectFailed(_) =>
      case SendFailed(_) =>
      case SendDone(_) =>
      case Downgrade(_, _) =>
      case _ =>
    }
  }
}
