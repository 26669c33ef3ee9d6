/**
  Any number of processes sharing one run queue: the per-process protocol of `Actor`
  with `queued` tied to real positions in the queue.
 */
module System {
  import opened Actor
  import RunQueue

  datatype State = State(processes: map<int, Process>, runq: seq<int>)

  datatype Act = Create(p: int) | On(p: int, x: Action)

  ghost predicate Enabled(pol: Policy, s: State, x: Act) {
    match x
    case Create(p) => p !in s.processes
    case On(p, y) =>
      && p in s.processes
      && Actor.Enabled(pol, s.processes[p], y)
      && (y.Pop? ==> s.runq != [] && s.runq[0] == p)
  }

  function Changed(q: seq<int>, p: int, delta: int): seq<int> {
    if delta == 1 then q + [p] else if delta == -1 then RunQueue.Extract(q, p) else q
  }

  ghost function Queue(s: State, p: int, y: Action): seq<int>
    requires p in s.processes && (y.Pop? ==> s.runq != []) && (y.Step? ==> y.a in s.processes[p].acts)
  {
    if y.Pop? then s.runq[1..]
    else if y.Step? then Changed(s.runq, p, QueueDelta(s.processes[p].c, s.processes[p].acts[y.a]))
    else s.runq
  }

  ghost function Do(pol: Policy, s: State, x: Act): State
    requires Enabled(pol, s, x)
  {
    match x
    case Create(p) => s.(processes := s.processes[p := INITIAL])
    case On(p, y) => State(s.processes[p := Actor.Do(pol, s.processes[p], y)], Queue(s, p, y))
  }

  ghost predicate Inv(s: State) {
    && (forall p :: p in s.processes ==> Actor.Sound(s.processes[p]) && s.processes[p].c.queued == multiset(s.runq)[p])
    && (forall p :: p in s.runq ==> p in s.processes)
  }

  lemma {:induction false} ChangedCounts(q: seq<int>, p: int, delta: int, r: int)
    requires -1 <= delta <= 1 && (delta == -1 ==> multiset(q)[p] > 0)
    ensures multiset(Changed(q, p, delta))[r] == multiset(q)[r] + if r == p then delta else 0
  {
    RunQueue.ExtractCounts(q, p);
  }

  /** A process records exactly what its step does to the queue. */
  lemma {:induction false} RecordsDelta(pol: Policy, s: Process, a: int)
    requires Actor.Enabled(pol, s, Step(a))
    ensures -1 <= QueueDelta(s.c, s.acts[a]) <= 1 && (QueueDelta(s.c, s.acts[a]) == -1 ==> s.c.queued > 0)
    ensures Actor.Do(pol, s, Step(a)).c.queued == s.c.queued + QueueDelta(s.c, s.acts[a])
  {
  }

  /** What an action does to the queue is what the process records in `queued`. */
  lemma {:induction false} QueueMatches(pol: Policy, s: State, p: int, y: Action)
    requires Inv(s) && Enabled(pol, s, On(p, y))
    ensures Actor.Do(pol, s.processes[p], y).c.queued == multiset(Queue(s, p, y))[p]
    ensures forall r :: r != p ==> multiset(Queue(s, p, y))[r] == multiset(s.runq)[r]
  {
    if y.Pop? {
      assert s.runq == [p] + s.runq[1..];
    } else if y.Step? {
      RecordsDelta(pol, s.processes[p], y.a);
      forall r ensures multiset(Queue(s, p, y))[r] ==
        multiset(s.runq)[r] + if r == p then QueueDelta(s.processes[p].c, s.processes[p].acts[y.a]) else 0
      {
        ChangedCounts(s.runq, p, QueueDelta(s.processes[p].c, s.processes[p].acts[y.a]), r);
      }
    }
  }

  lemma {:induction false} InvKept(pol: Policy, s: State, x: Act)
    requires pol.guardedSpawn && Inv(s) && Enabled(pol, s, x)
    ensures Inv(Do(pol, s, x))
  {
    match x {
      case Create(p) =>
        assert p !in multiset(s.runq);
      case On(p, y) =>
        Actor.SoundKept(pol, s.processes[p], y);
        QueueMatches(pol, s, p, y);
        var t := Do(pol, s, x);
        forall r | r in t.runq
          ensures r in t.processes
        {
          assert r in multiset(t.runq);
          assert r != p ==> r in multiset(s.runq);
        }
    }
  }

  /** Every prefix of a run obeys the rules. */
  ghost predicate Run(pol: Policy, states: seq<State>, acts: seq<Act>) {
    && |states| == |acts| + 1
    && states[0] == State(map[], [])
    && forall i :: 0 <= i < |acts| ==> Enabled(pol, states[i], acts[i]) && states[i + 1] == Do(pol, states[i], acts[i])
  }

  lemma {:induction false} InvAlways(pol: Policy, states: seq<State>, acts: seq<Act>, i: nat)
    requires pol.guardedSpawn && Run(pol, states, acts) && i < |states|
    ensures Inv(states[i])
  {
    if i > 0 {
      InvAlways(pol, states, acts, i - 1);
      InvKept(pol, states[i - 1], acts[i - 1]);
    }
  }

  lemma {:induction false} TwiceCounts(q: seq<int>, j: nat, k: nat)
    requires j < k < |q|
    ensures q[j] == q[k] ==> multiset(q)[q[j]] >= 2
  {
    var a, b := q[..k], q[k..];
    assert q == a + b;
    assert a[j] == q[j] && b[0] == q[k];
    assert q[j] in multiset(a) && q[k] in multiset(b);
  }

  /** In every interleaving over any number of processes: no process is queued twice, a queued
      process is run by no thread, and none that is queued is blocked or terminating. */
  lemma {:induction false} QueueIsExclusive(pol: Policy, states: seq<State>, acts: seq<Act>, i: nat)
    requires pol.guardedSpawn && Run(pol, states, acts) && i < |states|
    ensures var s := states[i];
      && (forall j, k :: 0 <= j < k < |s.runq| ==> s.runq[j] != s.runq[k])
      && (forall p :: p in s.runq ==>
            && p in s.processes
            && Holders(s.processes[p]) == {}
            && s.processes[p].c.state != Blocked && s.processes[p].c.state != Terminating)
  {
    InvAlways(pol, states, acts, i);
    var s := states[i];
    forall j, k | 0 <= j < k < |s.runq|
      ensures s.runq[j] != s.runq[k]
    {
      TwiceCounts(s.runq, j, k);
      var p := s.runq[j];
      assert p in s.runq;
      HoldersOf(s.processes[p]);
    }
    forall p | p in s.runq
      ensures p in s.processes && Holders(s.processes[p]) == {}
      ensures s.processes[p].c.state != Blocked && s.processes[p].c.state != Terminating
    {
      assert multiset(s.runq)[p] > 0;
      HoldersOf(s.processes[p]);
    }
  }
}
