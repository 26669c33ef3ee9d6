/**
  The clock: a sorted table of timers driven by a reduced set of scheduled ticks.

  One function per locked block of src/clock.cpp. `tick` has two of them, with the
  callbacks of the collected timers in between, during which anything may happen.
  `wall` is the event loop's time, and a tick may fire from `due` on.
 */
module ClockModel {

  /** The timers that time out at one instant. */
  datatype Bucket = Bucket(time: int, list: seq<int>)

  /** A call of tick(time) the event loop will make at `due` or later. */
  datatype Tick = Tick(time: int, due: int)

  /** Timers collected by a tick that is still in its callbacks, and the pause they were collected in. */
  datatype Batch = NoBatch | Batch(ids: seq<int>, pause: nat)

  datatype Option<T> = None | Some(value: T)

  datatype View = View(
    timers: seq<Bucket>,
    ticks: set<int>,
    paused: bool,
    current: int,      // the time while paused
    advanced: int,     // what Time::create adds to the event loop's time
    settling: bool,
    wall: int,
    pending: multiset<Tick>,
    batch: Batch,
    pauses: nat,       // auxiliary: how often the clock was paused
    created: multiset<int>, canceled: multiset<int>, fired: seq<int>)   // auxiliary

  const INITIAL: View := View([], {}, false, 0, 0, false, 0, multiset{}, NoBatch, 0, multiset{}, multiset{}, [])

  function Now(v: View): int { if v.paused then v.current else v.wall + v.advanced }

  /** clock::next */
  function Next(v: View): Option<int> {
    if v.timers == [] then None
    else if v.paused && v.timers[0].time > v.current then None
    else Some(v.timers[0].time)
  }

  predicate BeforeAll(t: int, ticks: set<int>) { forall u :: u in ticks ==> t < u }

  function ScheduleTick(v: View): View {
    match Next(v)
    case None => v
    case Some(t) =>
      if BeforeAll(t, v.ticks) then
        v.(ticks := v.ticks + {t}, pending := v.pending + multiset{Tick(t, v.wall + (t - Now(v)))})
      else v
  }

  function Insert(ts: seq<Bucket>, time: int, id: int): seq<Bucket> {
    if ts == [] || time < ts[0].time then [Bucket(time, [id])] + ts
    else if time == ts[0].time then [Bucket(time, ts[0].list + [id])] + ts[1..]
    else [ts[0]] + Insert(ts[1..], time, id)
  }

  /** list::remove */
  function Drop(list: seq<int>, id: int): seq<int> {
    if list == [] then []
    else Drop(list[..|list| - 1], id) + if list[|list| - 1] == id then [] else [list[|list| - 1]]
  }

  function Remove(ts: seq<Bucket>, time: int, id: int): seq<Bucket> {
    if ts == [] then []
    else if ts[0].time == time then
      var rest := Drop(ts[0].list, id);
      (if rest == [] then [] else [Bucket(time, rest)]) + ts[1..]
    else [ts[0]] + Remove(ts[1..], time, id)
  }

  /** The timers that time out at `now` or before, in order. */
  function Expired(ts: seq<Bucket>, now: int): seq<int> {
    if ts == [] || ts[0].time > now then [] else ts[0].list + Expired(ts[1..], now)
  }

  function Later(ts: seq<Bucket>, now: int): seq<Bucket> {
    if ts == [] || ts[0].time > now then ts else Later(ts[1..], now)
  }

  function AddTimer(v: View, time: int, id: int): View {
    var w := v.(timers := Insert(v.timers, time, id), created := v.created + multiset{id});
    if v.timers == [] || time < v.timers[0].time then ScheduleTick(w) else w
  }

  function Cancel(v: View, time: int, id: int): View {
    v.(timers := Remove(v.timers, time, id), canceled := v.canceled + (Ids(v.timers) - Ids(Remove(v.timers, time, id))))
  }

  function Pause(v: View): View {
    if v.paused then v else v.(current := Now(v), paused := true, ticks := {}, pauses := v.pauses + 1)
  }

  function Resume(v: View): View {
    if v.paused then ScheduleTick(v.(paused := false, settling := false)) else v
  }

  /** Move the paused clock; Time::create makes up for it after a resume. */
  function Shift(v: View, d: int): View {
    v.(advanced := v.advanced + d, current := v.current + d)
  }

  function Advance(v: View, d: int): View {
    if v.paused then ScheduleTick(Shift(v, d)) else v
  }

  function Update(v: View, time: int): View {
    if v.paused && v.current < time then ScheduleTick(Shift(v, time - v.current)) else v
  }

  /** tick(k.time) takes `ids` out and leaves `rest`. */
  function TakeOut(v: View, k: Tick, ids: seq<int>, rest: seq<Bucket>, any: bool): View {
    v.(pending := v.pending - multiset{k}, settling := v.settling || (v.paused && any),
       timers := rest, ticks := v.ticks - {k.time}, batch := Batch(ids, v.pauses), fired := v.fired + ids)
  }

  function Collect(v: View, k: Tick): View {
    TakeOut(v, k, Expired(v.timers, Now(v)), Later(v.timers, Now(v)), v.timers != [] && v.timers[0].time <= Now(v))
  }

  /** The first locked block of tick(k.time). */
  function BeginTick(v: View, k: Tick): View {
    ScheduleTick(Collect(v, k))
  }

  /** The second one, after the callbacks. */
  function EndTick(v: View): View {
    v.(batch := NoBatch,
       settling := v.settling && !(v.paused && (v.timers == [] || v.timers[0].time > v.current)))
  }

  function Elapse(v: View, d: nat): View { v.(wall := v.wall + d) }

  /** Clock::settled; it CHECKs that the clock is paused. */
  predicate Settled(v: View) {
    !v.settling && (v.timers == [] || v.timers[0].time > v.current)
  }

  function Ids(ts: seq<Bucket>): multiset<int> {
    if ts == [] then multiset{} else multiset(ts[0].list) + Ids(ts[1..])
  }

  // ---------------------------------------------------------------- operations of a run

  datatype Op =
    | DoTimer(time: int, id: int) | DoCancel(time: int, id: int)
    | DoPause | DoResume | DoAdvance(d: int) | DoUpdate(time: int)
    | DoBeginTick(k: Tick) | DoEndTick | DoElapse(span: nat)

  /** Ticks run one at a time, on the event loop's thread. */
  predicate Enabled(v: View, op: Op) {
    match op
    case DoBeginTick(k) => k in v.pending && k.due <= v.wall && v.batch.NoBatch?
    case DoEndTick => v.batch.Batch?
    case _ => true
  }

  function Do(v: View, op: Op): View {
    match op
    case DoTimer(time, id) => AddTimer(v, time, id)
    case DoCancel(time, id) => Cancel(v, time, id)
    case DoPause => Pause(v)
    case DoResume => Resume(v)
    case DoAdvance(d) => Advance(v, d)
    case DoUpdate(time) => Update(v, time)
    case DoBeginTick(k) => BeginTick(v, k)
    case DoEndTick => EndTick(v)
    case DoElapse(d) => Elapse(v, d)
  }

  // ---------------------------------------------------------------- invariant

  ghost predicate Sorted(ts: seq<Bucket>) {
    && (forall i, j :: 0 <= i < j < |ts| ==> ts[i].time < ts[j].time)
    && (forall i :: 0 <= i < |ts| ==> ts[i].list != [])
  }

  /** The tick is due, or will be by the time `t` is reached. */
  predicate Prompt(v: View, k: Tick, t: int) {
    k.due <= v.wall || (!v.paused && k.due + v.advanced <= t)
  }

  ghost predicate HasPrompt(v: View, t: int) {
    exists k :: k in v.pending && Prompt(v, k, t)
  }

  /** Every remembered tick is really coming. */
  ghost predicate InvTicks(v: View) {
    forall t :: t in v.ticks ==> exists k :: k in v.pending && k.time == t && Prompt(v, k, t)
  }

  /** The earliest timer that can elapse has a tick coming in time. */
  ghost predicate InvNext(v: View) {
    Next(v).Some? ==> HasPrompt(v, Next(v).value)
  }

  ghost predicate HasDue(v: View) {
    exists k :: k in v.pending && k.due <= v.wall
  }

  ghost predicate InvSettling(v: View) {
    && (v.settling ==> v.paused && (v.batch.Batch? || HasDue(v)))
    && (v.paused && v.batch.Batch? && v.batch.pause == v.pauses && v.batch.ids != [] ==> v.settling)
    && (v.batch.Batch? ==> v.batch.pause <= v.pauses)
  }

  ghost predicate InvIds(v: View) {
    v.created == Ids(v.timers) + v.canceled + multiset(v.fired)
  }

  ghost predicate Inv(v: View) {
    Sorted(v.timers) && InvTicks(v) && InvNext(v) && InvSettling(v) && InvIds(v)
  }

  lemma {:induction false} ScheduleKeeps(v: View)
    requires InvTicks(v)
    ensures InvTicks(ScheduleTick(v)) && InvNext(ScheduleTick(v))
  {
    var w := ScheduleTick(v);
    if Next(v).Some? {
      var t := Next(v).value;
      if BeforeAll(t, v.ticks) {
        var k := Tick(t, v.wall + (t - Now(v)));
        assert k in w.pending && Prompt(w, k, t);
      } else {
        var u :| u in v.ticks && !(t < u);
        var k :| k in v.pending && k.time == u && Prompt(v, k, u);
        assert k in w.pending && Prompt(w, k, t);
      }
    }
  }

  // ---------------------------------------------------------------- the sorted table

  lemma {:induction false} InsertSorted(ts: seq<Bucket>, time: int, id: int)
    requires Sorted(ts)
    ensures var r := Insert(ts, time, id);
      Sorted(r) && r != [] && r[0].time == if ts == [] || time < ts[0].time then time else ts[0].time
  {
    if ts != [] && time > ts[0].time {
      InsertSorted(ts[1..], time, id);
    }
  }

  lemma {:induction false} InsertIds(ts: seq<Bucket>, time: int, id: int)
    ensures Ids(Insert(ts, time, id)) == Ids(ts) + multiset{id}
  {
    var r := Insert(ts, time, id);
    if ts == [] || time < ts[0].time {
      assert r[1..] == ts;
    } else if time == ts[0].time {
      assert r[1..] == ts[1..];
      assert multiset(ts[0].list + [id]) == multiset(ts[0].list) + multiset{id};
    } else {
      InsertIds(ts[1..], time, id);
      assert r[1..] == Insert(ts[1..], time, id);
    }
  }

  lemma {:induction false} DropLaws(list: seq<int>, id: int)
    ensures multiset(Drop(list, id)) == multiset(list)[id := 0]
  {
    if list != [] {
      var init, last := list[..|list| - 1], list[|list| - 1];
      DropLaws(init, id);
      assert list == init + [last];
    }
  }

  lemma {:induction false} SortedCons(b: Bucket, rest: seq<Bucket>)
    requires Sorted(rest) && b.list != [] && (rest != [] ==> b.time < rest[0].time)
    ensures Sorted([b] + rest)
  {
  }

  lemma {:induction false} SortedTail(ts: seq<Bucket>)
    requires Sorted(ts) && ts != []
    ensures Sorted(ts[1..]) && ts[0].list != [] && (|ts| > 1 ==> ts[0].time < ts[1..][0].time)
  {
  }

  lemma {:induction false} RemoveSorted(ts: seq<Bucket>, time: int, id: int)
    requires Sorted(ts)
    ensures var r := Remove(ts, time, id);
      Sorted(r) && (r != [] ==> ts != [] && ts[0].time <= r[0].time)
  {
    if ts != [] {
      var b, rest := ts[0], ts[1..];
      SortedTail(ts);
      if b.time != time {
        var less := Remove(rest, time, id);
        RemoveSorted(rest, time, id);
        SortedCons(b, less);
        assert Remove(ts, time, id) == [b] + less;
      } else if Drop(b.list, id) != [] {
        SortedCons(Bucket(time, Drop(b.list, id)), rest);
        assert Remove(ts, time, id) == [Bucket(time, Drop(b.list, id))] + rest;
      } else {
        assert Remove(ts, time, id) == rest;
      }
    }
  }

  lemma {:induction false} RemoveIds(ts: seq<Bucket>, time: int, id: int)
    ensures Ids(Remove(ts, time, id)) <= Ids(ts)
  {
    var r := Remove(ts, time, id);
    if ts != [] {
      if ts[0].time == time {
        DropLaws(ts[0].list, id);
        if Drop(ts[0].list, id) == [] {
          assert r == ts[1..];
        } else {
          assert r[1..] == ts[1..];
        }
      } else {
        RemoveIds(ts[1..], time, id);
        assert r[1..] == Remove(ts[1..], time, id);
      }
    }
  }

  lemma {:induction false} ExpiryLaws(ts: seq<Bucket>, now: int)
    requires Sorted(ts)
    ensures Sorted(Later(ts, now)) && (Later(ts, now) != [] ==> Later(ts, now)[0].time > now)
    ensures Ids(ts) == multiset(Expired(ts, now)) + Ids(Later(ts, now))
    ensures Expired(ts, now) != [] <==> ts != [] && ts[0].time <= now
  {
    if ts != [] && ts[0].time <= now {
      ExpiryLaws(ts[1..], now);
    }
  }

  lemma {:induction false} LaterIs(ts: seq<Bucket>, now: int, b: Bucket)
    requires Sorted(ts)
    ensures b in Later(ts, now) <==> b in ts && b.time > now
  {
    if ts != [] && ts[0].time <= now {
      LaterIs(ts[1..], now, b);
    }
  }

  /** Inserting touches the bucket of that time, at its end, and no other. */
  lemma {:induction false} InsertIs(ts: seq<Bucket>, time: int, id: int, b: Bucket)
    requires Sorted(ts)
    ensures b.time != time ==> (b in Insert(ts, time, id) <==> b in ts)
    ensures b.time == time && b in ts ==> Bucket(time, b.list + [id]) in Insert(ts, time, id)
    ensures b.time == time && b in Insert(ts, time, id) ==>
              || b.list == [id]
              || (b.list != [] && Bucket(time, b.list[..|b.list| - 1]) in ts && b.list[|b.list| - 1] == id)
  {
    if ts != [] {
      var r := Insert(ts, time, id);
      assert ts == [ts[0]] + ts[1..];
      if time > ts[0].time {
        InsertIs(ts[1..], time, id, b);
        assert r == [ts[0]] + Insert(ts[1..], time, id);
      } else if time == ts[0].time {
        var list := ts[0].list;
        assert r == [Bucket(time, list + [id])] + ts[1..];
        assert (list + [id])[..|list|] == list;
      } else {
        assert r == [Bucket(time, [id])] + ts;
      }
    }
  }

  /** Canceling leaves every other bucket alone. */
  lemma {:induction false} RemoveSpares(ts: seq<Bucket>, time: int, id: int, b: Bucket)
    requires b.time != time
    ensures b in Remove(ts, time, id) <==> b in ts
  {
    if ts != [] {
      assert ts == [ts[0]] + ts[1..];
      if ts[0].time != time {
        RemoveSpares(ts[1..], time, id, b);
      }
    }
  }

  /** The bucket of that time keeps its other timers, in order, and goes with its last one. */
  lemma {:induction false} RemoveIs(ts: seq<Bucket>, time: int, id: int, b: Bucket)
    requires Sorted(ts) && b in ts && b.time == time
    ensures Drop(b.list, id) != [] ==> Bucket(time, Drop(b.list, id)) in Remove(ts, time, id)
    ensures forall c :: c in Remove(ts, time, id) && c.time == time ==> c.list == Drop(b.list, id)
    ensures id !in Drop(b.list, id)
  {
    DropDrops(b.list, id);
    RemoveKeeps(ts, time, id, b);
  }

  lemma {:induction false} DropDrops(list: seq<int>, id: int)
    ensures id !in Drop(list, id)
  {
    DropLaws(list, id);
    assert id !in multiset(Drop(list, id));
  }

  lemma {:induction false} RemoveKeeps(ts: seq<Bucket>, time: int, id: int, b: Bucket)
    requires Sorted(ts) && b in ts && b.time == time
    ensures Drop(b.list, id) != [] ==> Bucket(time, Drop(b.list, id)) in Remove(ts, time, id)
    ensures forall c :: c in Remove(ts, time, id) && c.time == time ==> c.list == Drop(b.list, id)
  {
    var r, rest := Remove(ts, time, id), ts[1..];
    if ts[0].time == time {
      var list := Drop(b.list, id);
      assert b == ts[0];
      assert r == (if list == [] then [] else [Bucket(time, list)]) + rest;
    } else {
      RemoveKeeps(rest, time, id, b);
      assert r == [ts[0]] + Remove(rest, time, id);
    }
  }

  // ---------------------------------------------------------------- preservation

  /** Scheduling a tick leaves everything else alone, and only adds to what is pending. */
  lemma {:induction false} ScheduleFrame(v: View)
    ensures var w := ScheduleTick(v);
      && w.timers == v.timers && w.paused == v.paused && w.current == v.current && w.advanced == v.advanced
      && w.settling == v.settling && w.wall == v.wall && w.batch == v.batch && w.pauses == v.pauses
      && w.created == v.created && w.canceled == v.canceled && w.fired == v.fired
      && v.pending <= w.pending
  {
  }

  lemma {:induction false} TicksCarry(v: View, w: View)
    requires InvTicks(v) && w.ticks <= v.ticks && v.pending <= w.pending && v.wall <= w.wall
    requires w.paused ==> v.paused
    requires v.paused || (v.advanced == w.advanced)
    ensures InvTicks(w)
  {
    forall t | t in w.ticks
      ensures exists k :: k in w.pending && k.time == t && Prompt(w, k, t)
    {
      var k :| k in v.pending && k.time == t && Prompt(v, k, t);
      assert k in w.pending && Prompt(w, k, t);
    }
  }

  lemma {:induction false} TimerKeeps(v: View, time: int, id: int)
    requires Inv(v)
    ensures Inv(AddTimer(v, time, id))
  {
    InsertSorted(v.timers, time, id);
    InsertIds(v.timers, time, id);
    var w := v.(timers := Insert(v.timers, time, id), created := v.created + multiset{id});
    TicksCarry(v, w);
    ScheduleKeeps(w);
    ScheduleFrame(w);
    Settles(v, AddTimer(v, time, id));
    if !(v.timers == [] || time < v.timers[0].time) {
      NextCarries(v, w);
    }
  }

  /** The same earliest time, or a later one, needs no new tick. */
  lemma {:induction false} NextCarries(v: View, w: View)
    requires InvNext(v) && v.pending <= w.pending && v.wall <= w.wall
    requires v.paused == w.paused && v.advanced == w.advanced && v.current == w.current
    requires w.timers != [] ==> v.timers != [] && v.timers[0].time <= w.timers[0].time
    ensures InvNext(w)
  {
    if Next(w).Some? {
      var k :| k in v.pending && Prompt(v, k, Next(v).value);
      assert k in w.pending && Prompt(w, k, Next(w).value);
    }
  }

  /** What `settling` needs is kept while the batch stays and no pending tick goes. */
  lemma {:induction false} Settles(v: View, w: View)
    requires InvSettling(v) && v.pending <= w.pending && v.wall <= w.wall
    requires w.settling == v.settling && w.paused == v.paused && w.batch == v.batch && w.pauses == v.pauses
    ensures InvSettling(w)
  {
    if v.settling && !v.batch.Batch? {
      var k :| k in v.pending && k.due <= v.wall;
      assert k in w.pending && k.due <= w.wall;
    }
  }

  lemma {:induction false} CancelKeeps(v: View, time: int, id: int)
    requires Inv(v)
    ensures Inv(Cancel(v, time, id))
  {
    RemoveSorted(v.timers, time, id);
    RemoveIds(v.timers, time, id);
    var w := Cancel(v, time, id);
    TicksCarry(v, w);
    NextCarries(v, w);
    Settles(v, w);
  }

  lemma {:induction false} PauseKeeps(v: View)
    requires Inv(v)
    ensures Inv(Pause(v))
  {
    var w := Pause(v);
    if !v.paused && Next(w).Some? {
      var k :| k in v.pending && Prompt(v, k, Next(v).value);
      assert k in w.pending && Prompt(w, k, Next(w).value);
    }
  }

  lemma {:induction false} ResumeKeeps(v: View)
    requires Inv(v)
    ensures Inv(Resume(v))
  {
    if v.paused {
      var w := v.(paused := false, settling := false);
      TicksCarry(v, w);
      ScheduleKeeps(w);
      ScheduleFrame(w);
    }
  }

  lemma {:induction false} ShiftKeeps(v: View, d: int)
    requires Inv(v) && v.paused
    ensures Inv(ScheduleTick(Shift(v, d)))
  {
    var w := Shift(v, d);
    TicksCarry(v, w);
    ScheduleKeeps(w);
    ScheduleFrame(w);
    Settles(v, ScheduleTick(w));
  }

  lemma {:induction false} BeginTickKeeps(v: View, k: Tick)
    requires Inv(v) && Enabled(v, DoBeginTick(k))
    ensures Inv(BeginTick(v, k))
  {
    var w := Collect(v, k);
    ExpiryLaws(v.timers, Now(v));
    forall t | t in w.ticks
      ensures exists j :: j in w.pending && j.time == t && Prompt(w, j, t)
    {
      var j :| j in v.pending && j.time == t && Prompt(v, j, t);
      assert j in w.pending && Prompt(w, j, t);
    }
    ScheduleKeeps(w);
    ScheduleFrame(w);
  }

  lemma {:induction false} EndTickKeeps(v: View)
    requires Inv(v) && Enabled(v, DoEndTick)
    ensures Inv(EndTick(v))
  {
    var w := EndTick(v);
    TicksCarry(v, w);
    NextCarries(v, w);
    if w.settling {
      var k :| k in v.pending && Prompt(v, k, Next(v).value);
      assert k in w.pending && k.due <= w.wall;
    }
  }

  lemma {:induction false} ElapseKeeps(v: View, d: nat)
    requires Inv(v)
    ensures Inv(Elapse(v, d))
  {
    var w := Elapse(v, d);
    TicksCarry(v, w);
    NextCarries(v, w);
    Settles(v, w);
  }

  lemma {:induction false} InvKept(v: View, op: Op)
    requires Inv(v) && Enabled(v, op)
    ensures Inv(Do(v, op))
  {
    match op {
      case DoTimer(time, id) => TimerKeeps(v, time, id);
      case DoCancel(time, id) => CancelKeeps(v, time, id);
      case DoPause => PauseKeeps(v);
      case DoResume => ResumeKeeps(v);
      case DoAdvance(d) =>
        if v.paused {
          ShiftKeeps(v, d);
        }
      case DoUpdate(time) =>
        if v.paused {
          ShiftKeeps(v, time - v.current);
        }
      case DoBeginTick(k) => BeginTickKeeps(v, k);
      case DoEndTick => EndTickKeeps(v);
      case DoElapse(d) => ElapseKeeps(v, d);
    }
  }

  // ---------------------------------------------------------------- runs

  datatype Outcome = Stuck | At(v: View)

  function Exec(run: seq<Op>): Outcome {
    if run == [] then At(INITIAL)
    else
      var before := Exec(run[..|run| - 1]);
      if before.At? && Enabled(before.v, run[|run| - 1]) then At(Do(before.v, run[|run| - 1])) else Stuck
  }

  ghost predicate Reachable(v: View) {
    exists run :: Exec(run) == At(v)
  }

  lemma {:induction false} RunKeepsInv(run: seq<Op>)
    requires Exec(run).At?
    ensures Inv(Exec(run).v)
  {
    if run != [] {
      RunKeepsInv(run[..|run| - 1]);
      InvKept(Exec(run[..|run| - 1]).v, run[|run| - 1]);
    }
  }

  lemma {:induction false} InvAlways(v: View)
    requires Reachable(v)
    ensures Inv(v)
  {
    var run :| Exec(run) == At(v);
    RunKeepsInv(run);
  }

  /** No timer is stranded: whenever any timer has expired, by the clock as it then stands, the event
      loop has a tick that is already due; and while the clock runs, one is due by the time the
      earliest timer expires. This holds through pauses, stale ticks and backward advances. */
  lemma {:induction false} NoTimerStranded(v: View, b: Bucket)
    requires Reachable(v) && b in v.timers
    ensures b.time <= Now(v) ==> HasDue(v)
    ensures !v.paused ==> exists k :: k in v.pending && (k.due <= v.wall || k.due + v.advanced <= b.time)
  {
    InvAlways(v);
    var i :| 0 <= i < |v.timers| && v.timers[i] == b;
    assert v.timers[0].time <= b.time;
    if Next(v).Some? {
      var k :| k in v.pending && Prompt(v, k, Next(v).value);
      assert b.time <= Now(v) ==> k.due <= v.wall;
    }
  }

  /** settled() says true only when no timer at or before the current time is left and no batch
      collected in this pause is still in its callbacks. */
  lemma {:induction false} SettledIsSound(v: View, b: Bucket)
    requires Reachable(v) && v.paused && Settled(v)
    ensures b in v.timers ==> b.time > v.current
    ensures v.batch.Batch? && v.batch.pause == v.pauses ==> v.batch.ids == []
  {
    InvAlways(v);
    if b in v.timers {
      var i :| 0 <= i < |v.timers| && v.timers[i] == b;
      assert v.timers[0].time <= b.time;
    }
  }

  /** `settling` is never stuck: a tick is in progress, or one is due. */
  lemma {:induction false} SettlingEnds(v: View)
    requires Reachable(v) && v.settling
    ensures v.paused && (v.batch.Batch? || HasDue(v))
  {
    InvAlways(v);
  }

  /** A timer with an id of its own is in the table, fired or canceled, and only one of these, once. */
  lemma {:induction false} FiresOnce(v: View, id: int)
    requires Reachable(v)
    ensures v.created[id] == Ids(v.timers)[id] + v.canceled[id] + multiset(v.fired)[id]
  {
    InvAlways(v);
  }

  /** A tick collects the timers that have expired, in time order, and no other. */
  lemma {:induction false} CollectsExpired(v: View, k: Tick, b: Bucket)
    requires Reachable(v)
    ensures b in BeginTick(v, k).timers <==> b in v.timers && b.time > Now(v)
    ensures BeginTick(v, k).batch == Batch(Expired(v.timers, Now(v)), v.pauses)
    ensures multiset(Expired(v.timers, Now(v))) == Ids(v.timers) - Ids(Later(v.timers, Now(v)))
  {
    InvAlways(v);
    ExpiryLaws(v.timers, Now(v));
    LaterIs(v.timers, Now(v), b);
    ScheduleFrame(Collect(v, k));
  }

  /** Time as users see it: pausing stops it, advancing moves it by exactly that much and survives the
      resume, updating never moves it back, and nothing else changes it. */
  lemma {:induction false} TimeLaws(v: View, d: int, time: int, span: nat)
    ensures Now(Pause(v)) == Now(v) && (v.paused ==> Now(Elapse(v, span)) == Now(v))
    ensures v.paused ==> Now(Advance(v, d)) == Now(v) + d
    ensures v.paused ==> Now(Update(v, time)) == if time > Now(v) then time else Now(v)
    ensures !v.paused ==> Now(Resume(Elapse(Advance(Pause(v), d), span))) == Now(v) + d + span
  {
    ScheduleFrame(Shift(v, d));
    ScheduleFrame(Shift(v, time - v.current));
    var p := Pause(v);
    ScheduleFrame(Shift(p, d));
    var e := Elapse(Advance(p, d), span);
    ScheduleFrame(e.(paused := false, settling := false));
  }

  // ---------------------------------------------------------------- order

  /** Where the timers of bucket `b` begin when the buckets are laid end to end. */
  function Offset(ts: seq<Bucket>, b: nat): nat
    requires b <= |ts|
  {
    if b == 0 then 0 else Offset(ts, b - 1) + |ts[b - 1].list|
  }

  /** `n` buckets have expired. */
  predicate Splits(ts: seq<Bucket>, now: int, n: nat) {
    && n <= |ts|
    && (forall i :: 0 <= i < n ==> ts[i].time <= now)
    && (n < |ts| ==> ts[n].time > now)
  }

  lemma {:induction false} OffsetTail(ts: seq<Bucket>, b: nat)
    requires 0 < b <= |ts|
    ensures Offset(ts, b) == |ts[0].list| + Offset(ts[1..], b - 1)
  {
    if b > 1 {
      OffsetTail(ts, b - 1);
      assert ts[1..][b - 2] == ts[b - 1];
    }
  }

  lemma {:induction false} ExpiredAt(ts: seq<Bucket>, now: int, n: nat, b: nat, j: nat)
    requires Splits(ts, now, n)
    ensures |Expired(ts, now)| == Offset(ts, n)
    ensures b < n && j < |ts[b].list| ==>
              Offset(ts, b) + j < |Expired(ts, now)| && Expired(ts, now)[Offset(ts, b) + j] == ts[b].list[j]
  {
    if n > 0 {
      var rest := ts[1..];
      assert ts[0].time <= now && (n < |ts| ==> rest[n - 1] == ts[n]);
      assert forall i :: 0 <= i < n - 1 ==> rest[i] == ts[i + 1];
      assert Splits(rest, now, n - 1);
      assert Expired(ts, now) == ts[0].list + Expired(rest, now);
      OffsetTail(ts, n);
      ExpiredAt(rest, now, n - 1, if b > 0 then b - 1 else 0, j);
      if 0 < b < n {
        OffsetTail(ts, b);
        assert rest[b - 1] == ts[b];
      }
    }
  }

  /** Timer `j` of bucket `b` is in its place. */
  predicate InPlace(ts: seq<Bucket>, b: nat, j: nat, out: seq<int>)
    requires b < |ts|
  {
    j < |ts[b].list| ==> Offset(ts, b) + j < |out| && out[Offset(ts, b) + j] == ts[b].list[j]
  }

  /** `out` lays the first `n` buckets end to end. */
  ghost predicate LaidOut(ts: seq<Bucket>, n: nat, out: seq<int>)
    requires n <= |ts|
  {
    |out| == Offset(ts, n) && forall b: nat, j: nat :: b < n ==> InPlace(ts, b, j, out)
  }

  lemma {:induction false} ExpiredIsLaidOut(ts: seq<Bucket>, now: int, n: nat)
    requires Splits(ts, now, n)
    ensures LaidOut(ts, n, Expired(ts, now))
  {
    ExpiredAt(ts, now, n, 0, 0);
    forall b: nat, j: nat | b < n ensures InPlace(ts, b, j, Expired(ts, now)) {
      ExpiredAt(ts, now, n, b, j);
    }
  }

  /** In every run a tick runs the timers of the expired buckets bucket by bucket, earliest first, each bucket in the
      order of its list. */
  lemma {:induction false} BatchInOrder(v: View, k: Tick, n: nat)
    requires Reachable(v) && Splits(v.timers, Now(v), n)
    ensures LaidOut(v.timers, n, BeginTick(v, k).batch.ids)
    ensures BeginTick(v, k).fired == v.fired + BeginTick(v, k).batch.ids
  {
    ScheduleFrame(Collect(v, k));
    ExpiredIsLaidOut(v.timers, Now(v), n);
  }

  /** `out` is `list` without `id`, in order: `at` says where each remaining timer stood. */
  predicate Tracks(list: seq<int>, id: int, out: seq<int>, at: seq<nat>) {
    && |at| == |out|
    && (forall i :: 0 <= i < |at| ==> at[i] < |list| && list[at[i]] != id && out[i] == list[at[i]])
    && (forall i, j :: 0 <= i < j < |at| ==> at[i] < at[j])
    && (forall p: nat :: p < |list| && list[p] != id ==> p in at)
  }

  lemma {:induction false} TracksMore(list: seq<int>, id: int, out: seq<int>, at: seq<nat>, x: int)
    requires Tracks(list, id, out, at)
    ensures x == id ==> Tracks(list + [x], id, out, at)
    ensures x != id ==> Tracks(list + [x], id, out + [x], at + [|list|])
  {
  }

  /** Removing keeps everything else, in order. */
  lemma {:induction false} DropIs(list: seq<int>, id: int) returns (at: seq<nat>)
    ensures Tracks(list, id, Drop(list, id), at)
  {
    at := [];
    if list != [] {
      var n := |list| - 1;
      var before := DropIs(list[..n], id);
      TracksMore(list[..n], id, Drop(list[..n], id), before, list[n]);
      assert list[..n] + [list[n]] == list;
      at := if list[n] != id then before + [n] else before;
    }
  }

  // ---------------------------------------------------------------- books

  /** The timers made in a run. */
  function Made(run: seq<Op>): multiset<int> {
    if run == [] then multiset{}
    else Made(run[..|run| - 1]) + if run[|run| - 1].DoTimer? then multiset{run[|run| - 1].id} else multiset{}
  }

  lemma {:induction false} BooksStep(v: View, op: Op)
    ensures Do(v, op).created == v.created + if op.DoTimer? then multiset{op.id} else multiset{}
    ensures !op.DoBeginTick? ==> Do(v, op).fired == v.fired
    ensures !op.DoCancel? ==> Do(v, op).canceled == v.canceled
  {
    match op {
      case DoTimer(time, id) =>
        ScheduleFrame(v.(timers := Insert(v.timers, time, id), created := v.created + multiset{id}));
      case DoResume => ScheduleFrame(v.(paused := false, settling := false));
      case DoAdvance(d) => ScheduleFrame(Shift(v, d));
      case DoUpdate(time) => ScheduleFrame(Shift(v, time - v.current));
      case DoBeginTick(k) => ScheduleFrame(Collect(v, k));
      case _ =>
    }
  }

  /** In every run the timers accounted for are those that were made. */
  lemma {:induction false} CreatedAreMade(run: seq<Op>)
    requires Exec(run).At?
    ensures Exec(run).v.created == Made(run)
  {
    if run != [] {
      CreatedAreMade(run[..|run| - 1]);
      BooksStep(Exec(run[..|run| - 1]).v, run[|run| - 1]);
    }
  }

  /** In every run making a timer puts it at the end of the bucket of its time, or in a bucket of its own. */
  lemma {:induction false} TimerChanges(v: View, time: int, id: int, b: Bucket)
    requires Reachable(v)
    ensures b.time != time ==> (b in AddTimer(v, time, id).timers <==> b in v.timers)
    ensures b.time == time && b in v.timers ==> Bucket(time, b.list + [id]) in AddTimer(v, time, id).timers
    ensures (forall c :: c in v.timers ==> c.time != time) ==> Bucket(time, [id]) in AddTimer(v, time, id).timers
  {
    InvAlways(v);
    ScheduleFrame(v.(timers := Insert(v.timers, time, id), created := v.created + multiset{id}));
    InsertIs(v.timers, time, id, b);
    if forall c :: c in v.timers ==> c.time != time {
      InsertNew(v.timers, time, id);
    }
  }

  /** In every run canceling takes out only what it names. */
  lemma {:induction false} CancelChanges(v: View, time: int, id: int, b: Bucket)
    requires Reachable(v)
    ensures b.time != time ==> (b in Cancel(v, time, id).timers <==> b in v.timers)
    ensures b.time == time && b in v.timers && Drop(b.list, id) != [] ==>
              Bucket(time, Drop(b.list, id)) in Cancel(v, time, id).timers
    ensures b.time == time && b in v.timers ==>
              forall c :: c in Cancel(v, time, id).timers && c.time == time ==> c.list == Drop(b.list, id)
  {
    InvAlways(v);
    if b.time != time {
      RemoveSpares(v.timers, time, id, b);
    } else if b in v.timers {
      RemoveIs(v.timers, time, id, b);
    }
  }

  lemma {:induction false} InsertNew(ts: seq<Bucket>, time: int, id: int)
    requires forall c :: c in ts ==> c.time != time
    ensures Bucket(time, [id]) in Insert(ts, time, id)
  {
    if ts != [] && time > ts[0].time {
      InsertNew(ts[1..], time, id);
    }
  }

  /** A tick is scheduled only for the earliest timer, only if that can elapse, and only if no recorded tick is at
      least as early; it is due when the timer is. */
  lemma {:induction false} SchedulesOnlyEarlier(v: View)
    ensures v.timers == [] || (v.paused && v.timers[0].time > v.current) ==> ScheduleTick(v) == v
    ensures v.timers != [] && (exists u :: u in v.ticks && u <= v.timers[0].time) ==> ScheduleTick(v) == v
    ensures v.timers != [] && !(v.paused && v.timers[0].time > v.current)
            && (forall u :: u in v.ticks ==> v.timers[0].time < u) ==>
      var t := v.timers[0].time;
      ScheduleTick(v) == v.(ticks := v.ticks + {t}, pending := v.pending + multiset{Tick(t, v.wall + (t - Now(v)))})
  {
  }

  // ---------------------------------------------------------------- settled

  /** With the clock paused, nothing due and no tick in progress, settled() says true or a tick is due; and when a tick
      has run to its end in such a state it says true. */
  lemma {:induction false} SettledInTheEnd(v: View, k: Tick)
    requires Reachable(v) && v.paused && v.batch.NoBatch? && (forall b :: b in v.timers ==> b.time > v.current)
    ensures Settled(v) || HasDue(v)
    ensures Settled(EndTick(BeginTick(v, k)))
  {
    InvAlways(v);
    assert v.timers != [] ==> v.timers[0] in v.timers;
    ScheduleFrame(Collect(v, k));
    assert Later(v.timers, v.current) == v.timers;
  }

  // ---------------------------------------------------------------- a run that stays unsettled

  lemma {:induction false} Inserted(v: View, w: View, time: int, id: int)
    requires v.timers == [] && w == AddTimer(v, time, id)
    ensures w.timers == [Bucket(time, [id])]
    ensures w.paused == v.paused && w.current == v.current && w.wall == v.wall && w.advanced == v.advanced
    ensures w.settling == v.settling && w.batch == v.batch && w.pauses == v.pauses
    ensures time == Now(v) && v.ticks == {} ==> Tick(time, v.wall) in w.pending
  {
    var u := v.(timers := Insert(v.timers, time, id), created := v.created + multiset{id});
    assert u.timers == [Bucket(time, [id])] && w == ScheduleTick(u);
    ScheduleFrame(u);
  }

  lemma {:induction false} Collected(v: View, k: Tick, w: View, time: int, id: int)
    requires v.timers == [Bucket(time, [id])] && time <= Now(v) && w == BeginTick(v, k)
    ensures w.batch == Batch([id], v.pauses) && w.timers == [] && w.paused == v.paused && w.pauses == v.pauses
    ensures w.settling == (v.settling || v.paused) && w.current == v.current && w.wall == v.wall
  {
    ScheduleFrame(Collect(v, k));
    assert Expired(v.timers, Now(v)) == [id] + Expired(v.timers[1..], Now(v));
    assert Later(v.timers, Now(v)) == Later(v.timers[1..], Now(v));
  }

  lemma {:induction false} Extend(v: View, op: Op)
    requires Reachable(v) && Enabled(v, op)
    ensures Reachable(Do(v, op))
  {
    var run :| Exec(run) == At(v);
    assert (run + [op])[..|run|] == run;
    assert Exec(run + [op]) == At(Do(v, op));
  }

  /** settled() can say false with the clock paused, nothing due and no tick in progress: a timer that became due
      during a tick keeps `settling` set, and is then canceled. It says true again when the tick for that timer has
      run. */
  lemma {:induction false} SettlingOutlivesTimer() returns (v: View)
    ensures Reachable(v) && v.paused && v.batch.NoBatch? && v.timers == [] && !Settled(v)
  {
    assert Exec([]) == At(INITIAL);
    Extend(INITIAL, DoPause);
    v := StaysSettling(Pause(INITIAL));
  }

  lemma {:induction false} StaysSettling(p: View) returns (v: View)
    requires Reachable(p) && p.paused && p.timers == [] && p.ticks == {} && p.batch.NoBatch?
    ensures Reachable(v) && v.paused && v.batch.NoBatch? && v.timers == [] && !Settled(v)
  {
    var a, k := AddTimer(p, p.current, 1), Tick(p.current, p.wall);
    Extend(p, DoTimer(p.current, 1));
    Inserted(p, a, p.current, 1);
    v := CollectedFirst(a, k);
  }

  lemma {:induction false} CollectedFirst(a: View, k: Tick) returns (v: View)
    requires Reachable(a) && a.paused && a.timers == [Bucket(a.current, [1])] && a.batch.NoBatch?
    requires k in a.pending && k.due <= a.wall
    ensures Reachable(v) && v.paused && v.batch.NoBatch? && v.timers == [] && !Settled(v)
  {
    Extend(a, DoBeginTick(k));
    Collected(a, k, BeginTick(a, k), a.current, 1);
    v := CanceledLate(BeginTick(a, k));
  }

  lemma {:induction false} CanceledLate(b: View) returns (v: View)
    requires Reachable(b) && b.paused && b.settling && b.timers == [] && b.batch.Batch?
    ensures Reachable(v) && v.paused && v.batch.NoBatch? && v.timers == [] && !Settled(v)
  {
    var c := AddTimer(b, b.current, 2);
    Extend(b, DoTimer(b.current, 2));
    Inserted(b, c, b.current, 2);
    var d := EndTick(c);
    Extend(c, DoEndTick);
    v := Cancel(d, b.current, 2);
    Extend(d, DoCancel(b.current, 2));
    DropDrops([2], 2);
    DropLaws([2], 2);
    assert Drop([2], 2) == [] by { assert [2][..0] == []; }
  }
}
