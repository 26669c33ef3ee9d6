/** The link tables of the socket manager: who watches whom, both ways, and by remote address. */
module Links {

  datatype Proc = Proc(n: int)

  datatype Upid = Upid(id: int, address: int)

  /** An ExitedEvent put in a process's mailbox. */
  datatype Exited = Exited(linker: Proc, linkee: Upid)

  // ---------------------------------------------------------------- maps of sets

  predicate Has<K(!new), V(!new)>(m: map<K, set<V>>, k: K, v: V) { k in m && v in m[k] }

  ghost predicate NoEmpty<K(!new), V(!new)>(m: map<K, set<V>>) {
    forall k :: k in m ==> m[k] != {}
  }

  function Add<K(!new), V(!new)>(m: map<K, set<V>>, k: K, v: V): (r: map<K, set<V>>)
    ensures forall j, w :: Has(r, j, w) <==> Has(m, j, w) || (j == k && w == v)
    ensures NoEmpty(m) ==> NoEmpty(r)
  {
    m[k := (if k in m then m[k] else {}) + {v}]
  }

  /** Erase one value, and the key with its last value. */
  function Erase<K(!new), V(!new)>(m: map<K, set<V>>, k: K, v: V): (r: map<K, set<V>>)
    requires k in m
    ensures forall j, w :: Has(r, j, w) <==> Has(m, j, w) && !(j == k && w == v)
    ensures NoEmpty(m) ==> NoEmpty(r)
  {
    if m[k] <= {v} then m - {k} else m[k := m[k] - {v}]
  }

  /** Erase a key with all its values. */
  function EraseKey<K(!new), V(!new)>(m: map<K, set<V>>, k: K): (r: map<K, set<V>>)
    ensures forall j, w :: Has(r, j, w) <==> Has(m, j, w) && j != k
    ensures NoEmpty(m) ==> NoEmpty(r)
  {
    m - {k}
  }

  /** One more delivery, to a linker not yet told about this linkee. */
  lemma {:induction false} Deliver(log: seq<Exited>, e: Exited, before: multiset<Exited>, told: set<Exited>)
    requires multiset(log) == before + multiset(told) && e !in told
    ensures multiset(log + [e]) == before + multiset(told + {e})
  {
  }

  // ---------------------------------------------------------------- links as a set

  // A link is named by the event that will end it.

  /** What is left when the connection to `address` is lost. */
  function AfterAddress(links: set<Exited>, address: int, here: int): set<Exited> {
    set e | e in links && (e.linkee.address != address || address == here)
  }

  lemma {:induction false} ByAddress(was: set<Exited>, now: set<Exited>, told: set<Exited>, address: int, here: int)
    requires forall q, u ::
      Exited(q, u) in now <==> Exited(q, u) in was && (u.address != address || address == here)
    requires forall q, u ::
      Exited(q, u) in told <==> Exited(q, u) in was && u.address == address && address != here
    ensures now == AfterAddress(was, address, here) && told == was - now
  {
    forall e: Exited ensures e in now <==> e in AfterAddress(was, address, here)
                     ensures e in told <==> e in was && e !in now
    {
      assert e == Exited(e.linker, e.linkee);
    }
  }

  /** What is left when process `p`, known as `pid`, is gone. */
  function AfterProcess(links: set<Exited>, p: Proc, pid: Upid): set<Exited> {
    set e | e in links && e.linker != p && e.linkee != pid
  }

  // ---------------------------------------------------------------- the tables

  class Tables {
    const here: int   // the address of this process
    var linkers: map<Upid, set<Proc>>
    var linkees: map<Proc, set<Upid>>
    var remotes: map<int, set<Upid>>
    var delivered: seq<Exited>

    /** `p` is linked to `u`. */
    predicate Linked(p: Proc, u: Upid)
      reads this
    {
      Has(linkers, u, p)
    }

    /** Every link. */
    ghost function All(): (all: set<Exited>)
      reads this
      ensures forall q, u :: Exited(q, u) in all <==> Linked(q, u)
    {
      set u, p | u in linkers && p in linkers[u] :: Exited(p, u)
    }

    /** `linkers` and `linkees` are inverses, `remotes` indexes the remote linkees, nothing is empty. */
    ghost predicate Valid()
      reads this
    {
      && NoEmpty(linkers) && NoEmpty(linkees) && NoEmpty(remotes)
      && (forall p, u :: Has(linkers, u, p) <==> Has(linkees, p, u))
      && (forall a, u :: Has(remotes, a, u) <==> u in linkers && u.address == a && a != here)
    }

    constructor (here: int)
      ensures Valid() && this.here == here && delivered == []
      ensures forall p, u :: !Linked(p, u)
    {
      this.here := here;
      linkers, linkees, remotes, delivered := map[], map[], map[], [];
    }

    method Link(p: Proc, to: Upid)
      requires Valid()
      modifies this
      ensures Valid() && delivered == old(delivered)
      ensures forall q, u :: Linked(q, u) <==> old(Linked(q, u)) || (q == p && u == to)
      ensures All() == old(All()) + {Exited(p, to)}
    {
      linkers := Add(linkers, to, p);
      linkees := Add(linkees, p, to);
      if to.address != here {
        remotes := Add(remotes, to.address, to);
      }
    }

    /** A persistent socket to `address` closed: each link to a process there ends with one ExitedEvent. */
    method ExitedAddress(address: int) returns (ghost told: set<Exited>)
      requires Valid()
      modifies this
      ensures Valid()
      ensures forall q, u :: Linked(q, u) <==> old(Linked(q, u)) && (u.address != address || address == here)
      ensures multiset(delivered) == multiset(old(delivered)) + multiset(told)
      ensures forall q, u :: Exited(q, u) in told <==> old(Linked(q, u)) && u.address == address && address != here
      ensures All() == AfterAddress(old(All()), address, here) && told == old(All()) - All()
    {
      told := EndLinks(address);
      ByAddress(old(All()), All(), told, address, here);
    }

    method EndLinks(address: int) returns (ghost told: set<Exited>)
      requires Valid()
      modifies this
      ensures Valid()
      ensures forall q, u :: Linked(q, u) <==> old(Linked(q, u)) && (u.address != address || address == here)
      ensures multiset(delivered) == multiset(old(delivered)) + multiset(told)
      ensures forall q, u :: Exited(q, u) in told <==> old(Linked(q, u)) && u.address == address && address != here
    {
      told := {};
      assert forall q, u :: Linked(q, u) && u.address == address && address != here ==> Has(remotes, address, u);
      if address in remotes {
        var todo := remotes[address];
        while todo != {}
          invariant NoEmpty(linkers) && NoEmpty(linkees) && remotes == old(remotes)
          invariant forall p, u :: Has(linkers, u, p) <==> Has(linkees, p, u)
          invariant todo <= remotes[address]
          invariant linkers == old(linkers) - (remotes[address] - todo)
          invariant forall q, u :: Exited(q, u) in told <==> old(Linked(q, u)) && u in remotes[address] && u !in todo
          invariant multiset(delivered) == multiset(old(delivered)) + multiset(told)
          decreases |todo|
        {
          var linkee :| linkee in todo;
          assert Has(old(remotes), address, linkee);
          assert linkee in linkers;   // CHECK
          told := NotifyAll(linkee, told);
          todo := todo - {linkee};
        }
        assert forall u :: u in remotes[address] <==> Has(remotes, address, u);
        remotes := EraseKey(remotes, address);
      }
    }

    /** Tell every linker of `linkee`, and forget the links. */
    method NotifyAll(linkee: Upid, ghost told: set<Exited>) returns (ghost now: set<Exited>)
      requires NoEmpty(linkers) && NoEmpty(linkees) && linkee in linkers
      requires forall p, u :: Has(linkers, u, p) <==> Has(linkees, p, u)
      requires forall q :: Exited(q, linkee) !in told
      modifies this
      ensures NoEmpty(linkers) && NoEmpty(linkees) && remotes == old(remotes)
      ensures forall p, u :: Has(linkers, u, p) <==> Has(linkees, p, u)
      ensures linkers == old(linkers) - {linkee}
      ensures forall q, u :: Exited(q, u) in now <==> Exited(q, u) in told || (u == linkee && old(Has(linkers, u, q)))
      ensures forall before ::
        old(multiset(delivered)) == before + multiset(told) ==> multiset(delivered) == before + multiset(now)
    {
      now := told;
      var todo := linkers[linkee];
      while todo != {}
        invariant linkers == old(linkers) && remotes == old(remotes) && NoEmpty(linkees)
        invariant todo <= linkers[linkee]
        invariant forall q, u :: Has(linkees, q, u) <==> Has(linkers, u, q) && (u != linkee || q in todo)
        invariant forall q, u :: Exited(q, u) in now <==>
          Exited(q, u) in told || (u == linkee && q in linkers[linkee] && q !in todo)
        invariant forall before ::
          old(multiset(delivered)) == before + multiset(told) ==> multiset(delivered) == before + multiset(now)
        decreases |todo|
      {
        var linker :| linker in todo;
        var e := Exited(linker, linkee);
        assert Has(linkees, linker, linkee);   // CHECK
        forall before | multiset(delivered) == before + multiset(now)
          ensures multiset(delivered + [e]) == before + multiset(now + {e})
        {
          Deliver(delivered, e, before, now);
        }
        delivered := delivered + [e];
        now := now + {e};
        linkees := Erase(linkees, linker, linkee);
        todo := todo - {linker};
      }
      linkers := EraseKey(linkers, linkee);
    }

    /** A local process exited: its own links go silently, and each linker gets one ExitedEvent. */
    method ExitedProcess(p: Proc, pid: Upid) returns (ghost told: set<Exited>)
      requires Valid() && pid.address == here
      modifies this
      ensures Valid()
      ensures forall q, u :: Linked(q, u) <==> old(Linked(q, u)) && q != p && u != pid
      ensures p !in linkees && pid !in linkers
      ensures multiset(delivered) == multiset(old(delivered)) + multiset(told)
      ensures forall q, u :: Exited(q, u) in told <==> old(Linked(q, u)) && u == pid && q != p
      ensures All() == AfterProcess(old(All()), p, pid)
    {
      if p in linkees {
        ForgetLinker(p);
      }
      told := {};
      ghost var mid := linkers;
      forall q, u ensures Has(mid, u, q) <==> old(Linked(q, u)) && q != p {
        assert Linked(q, u) <==> old(Linked(q, u)) && q != p;
      }
      if pid in linkers {
        assert p !in linkers[pid] by {
          assert !Has(mid, pid, p);   // CHECK: not linked with itself
        }
        assert multiset(delivered) == multiset(old(delivered)) + multiset(told);
        told := NotifyAll(pid, told);
      }
      forall q, u ensures Linked(q, u) <==> Has(mid, u, q) && u != pid {
      }
      if p in linkees {
        ghost var u :| u in linkees[p];
        assert Has(linkees, p, u);
        assert Linked(p, u);
      }
    }

    /** Take `p` out of the linkers of everything it is linked to. */
    method ForgetLinker(p: Proc)
      requires Valid() && p in linkees
      modifies this
      ensures Valid() && delivered == old(delivered)
      ensures forall q, u :: Linked(q, u) <==> old(Linked(q, u)) && q != p
    {
      var todo := linkees[p];
      while todo != {}
        invariant linkees == old(linkees) && delivered == old(delivered) && todo <= linkees[p]
        invariant NoEmpty(linkers) && NoEmpty(remotes)
        invariant forall q, u :: Has(linkers, u, q) <==> Has(linkees, q, u) && (q != p || u in todo)
        invariant forall a, u :: Has(remotes, a, u) <==> u in linkers && u.address == a && a != here
        decreases |todo|
      {
        var linkee :| linkee in todo;
        assert Has(linkers, linkee, p);   // CHECK
        ghost var before := linkers;
        linkers := Erase(linkers, linkee, p);
        if linkee !in linkers {
          if linkee.address != here {
            assert Has(remotes, linkee.address, linkee);   // CHECK
            remotes := Erase(remotes, linkee.address, linkee);
          }
        }
        todo := todo - {linkee};
      }
      linkees := EraseKey(linkees, p);
    }
  }
}
