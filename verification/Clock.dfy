/** The code of src/clock.cpp, method by locked block, against `ClockModel`. */
module ClockCode {
  import opened ClockModel

  lemma {:induction false} InsertAt(ts: seq<Bucket>, time: int, id: int, i: nat)
    requires i <= |ts| && (forall j :: 0 <= j < i ==> ts[j].time < time) && (i < |ts| ==> time <= ts[i].time)
    ensures Insert(ts, time, id) ==
      if i < |ts| && ts[i].time == time then ts[i := Bucket(time, ts[i].list + [id])]
      else ts[..i] + [Bucket(time, [id])] + ts[i..]
  {
    if i > 0 {
      var u := ts[1..];
      InsertAt(u, time, id, i - 1);
      assert u[..i - 1] == ts[1..i] && u[i - 1..] == ts[i..];
      if i < |ts| && ts[i].time == time {
        assert [ts[0]] + u[i - 1 := Bucket(time, ts[i].list + [id])] == ts[i := Bucket(time, ts[i].list + [id])];
      } else {
        assert [ts[0]] + ts[1..i] == ts[..i];
      }
    }
  }

  lemma {:induction false} RemoveAt(ts: seq<Bucket>, time: int, id: int, i: nat)
    requires i <= |ts| && (forall j :: 0 <= j < i ==> ts[j].time != time) && (i < |ts| ==> ts[i].time == time)
    ensures Remove(ts, time, id) ==
      if i == |ts| then ts
      else if Drop(ts[i].list, id) == [] then ts[..i] + ts[i + 1..]
      else ts[i := Bucket(time, Drop(ts[i].list, id))]
  {
    if i > 0 {
      RemoveAt(ts[1..], time, id, i - 1);
    }
  }

  /** The part of the view that no code reads. */
  datatype Aux = Aux(batch: Batch, pauses: nat, created: multiset<int>, canceled: multiset<int>, fired: seq<int>)

  class Clock {
    var timers: seq<Bucket>
    var ticks: set<int>
    var paused: bool
    var current: int
    var advanced: int
    var settling: bool
    // The event loop.
    var wall: int
    var pending: multiset<Tick>
    ghost var aux: Aux

    ghost function V(): View
      reads this
    {
      View(timers, ticks, paused, current, advanced, settling, wall, pending,
           aux.batch, aux.pauses, aux.created, aux.canceled, aux.fired)
    }

    constructor ()
      ensures V() == INITIAL
    {
      timers, ticks, paused, current, advanced, settling := [], {}, false, 0, 0, false;
      wall, pending, aux := 0, multiset{}, Aux(NoBatch, 0, multiset{}, multiset{}, []);
    }

    method Now() returns (now: int)
      ensures now == ClockModel.Now(V())
    {
      now := if paused then current else wall + advanced;
    }

    method Schedule()
      modifies this`ticks, this`pending
      ensures V() == ScheduleTick(old(V()))
    {
      if timers != [] {
        var first := timers[0].time;
        var now := Now();
        if !(paused && first > now) {
          if forall u :: u in ticks ==> first < u {
            ticks := ticks + {first};
            pending := pending + multiset{Tick(first, wall + (first - now))};
          }
        }
      }
    }

    method Timer(time: int, id: int)
      modifies this
      ensures V() == AddTimer(old(V()), time, id)
    {
      aux := aux.(created := aux.created + multiset{id});
      var earliest := timers == [] || time < timers[0].time;
      var i := 0;
      while i < |timers| && timers[i].time < time
        invariant 0 <= i <= |timers| && unchanged(this`timers)
        invariant forall j :: 0 <= j < i ==> timers[j].time < time
      {
        i := i + 1;
      }
      InsertAt(timers, time, id, i);
      if i < |timers| && timers[i].time == time {
        timers := timers[i := Bucket(time, timers[i].list + [id])];
      } else {
        timers := timers[..i] + [Bucket(time, [id])] + timers[i..];
      }
      if earliest {
        Schedule();
      }
    }

    method Cancel(time: int, id: int) returns (found: bool)
      modifies this
      ensures V() == ClockModel.Cancel(old(V()), time, id)
      ensures found <==> exists j :: 0 <= j < |old(timers)| && old(timers)[j].time == time
    {
      aux := aux.(canceled := aux.canceled + (Ids(timers) - Ids(Remove(timers, time, id))));
      found := false;
      var i := 0;
      while i < |timers| && timers[i].time != time
        invariant 0 <= i <= |timers|
        invariant forall j :: 0 <= j < i ==> timers[j].time != time
      {
        i := i + 1;
      }
      RemoveAt(timers, time, id, i);
      if i < |timers| {
        found := true;
        var list := timers[i].list;
        var rest: seq<int> := [];
        for j := 0 to |list|
          invariant rest == Drop(list[..j], id)
        {
          assert list[..j + 1][..j] == list[..j];
          if list[j] != id {
            rest := rest + [list[j]];
          }
        }
        assert list[..|list|] == list;
        timers := if rest == [] then timers[..i] + timers[i + 1..] else timers[i := Bucket(time, rest)];
      }
    }

    method Pause()
      modifies this
      ensures V() == ClockModel.Pause(old(V()))
    {
      if !paused {
        current := Now();
        paused := true;
        ticks := {};
        aux := aux.(pauses := aux.pauses + 1);
      }
    }

    method Resume()
      modifies this
      ensures V() == ClockModel.Resume(old(V()))
    {
      if paused {
        paused, settling := false, false;
        Schedule();
      }
    }

    method Advance(d: int)
      modifies this
      ensures V() == ClockModel.Advance(old(V()), d)
    {
      if paused {
        advanced, current := advanced + d, current + d;
        assert V() == Shift(old(V()), d);
        Schedule();
      }
    }

    method Update(time: int)
      modifies this
      ensures V() == ClockModel.Update(old(V()), time)
    {
      if paused && current < time {
        advanced, current := advanced + (time - current), time;
        assert V() == Shift(old(V()), time - old(current));
        Schedule();
      }
    }

    /** The loop of tick(): how many buckets have expired, and the timers in them. */
    method FindExpired(now: int) returns (timedout: seq<int>, n: nat)
      ensures n <= |timers| && timedout == Expired(timers, now) && timers[n..] == Later(timers, now)
      ensures n > 0 <==> timers != [] && timers[0].time <= now
      ensures Splits(timers, now, n) && LaidOut(timers, n, timedout)
    {
      timedout, n := [], 0;
      while n < |timers| && timers[n].time <= now
        invariant n <= |timers|
        invariant n > 0 ==> timers[0].time <= now
        invariant forall i :: 0 <= i < n ==> timers[i].time <= now
        invariant timedout + Expired(timers[n..], now) == Expired(timers, now)
        invariant Later(timers[n..], now) == Later(timers, now)
      {
        timedout := timedout + timers[n].list;
        n := n + 1;
      }
      ExpiredIsLaidOut(timers, now, n);
    }

    method TakeOut(k: Tick, timedout: seq<int>, n: nat)
      requires n <= |timers|
      modifies this
      ensures V() == ClockModel.TakeOut(old(V()), k, timedout, old(timers)[n..], n > 0)
    {
      ghost var was := V();
      if paused && n > 0 {
        settling := true;
      }
      assert V() == was.(settling := was.settling || (was.paused && n > 0));
      pending := pending - multiset{k};
      timers, ticks := timers[n..], ticks - {k.time};
      aux := aux.(batch := Batch(timedout, aux.pauses), fired := aux.fired + timedout);
    }

    /** tick() up to its callbacks. */
    method BeginTick(k: Tick) returns (timedout: seq<int>)
      requires k in pending
      modifies this
      ensures V() == ClockModel.BeginTick(old(V()), k)
      ensures timedout == Expired(old(timers), ClockModel.Now(old(V())))
    {
      var now := Now();
      var n;
      timedout, n := FindExpired(now);
      TakeOut(k, timedout, n);
      assert V() == Collect(old(V()), k);
      Schedule();
    }

    /** tick() after its callbacks. */
    method EndTick()
      modifies this
      ensures V() == ClockModel.EndTick(old(V()))
    {
      aux := aux.(batch := NoBatch);
      if paused && (timers == [] || timers[0].time > current) {
        settling := false;
      }
    }

    method IsSettled() returns (b: bool)
      requires paused
      ensures b == Settled(V())
    {
      if settling {
        b := false;
      } else {
        b := timers == [] || timers[0].time > current;
      }
    }
  }
}
