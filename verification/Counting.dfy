/** How many threads of a pool are at program counters of some kind. */
module Counting {

  ghost function Those<K(!new), P(!new)>(m: map<K, P>, f: P -> bool): set<K> {
    set t | t in m && f(m[t])
  }

  ghost function Count<K(!new), P(!new)>(m: map<K, P>, f: P -> bool): nat {
    |Those(m, f)|
  }

  function One(b: bool): nat { if b then 1 else 0 }

  /** Moving one thread changes the count by what it left and what it entered. */
  lemma {:induction false} CountPut<K(!new), P(!new)>(m: map<K, P>, t: K, p: P, f: P -> bool)
    requires t in m
    ensures Count(m[t := p], f) == Count(m, f) - One(f(m[t])) + One(f(p))
  {
    var a, b := Those(m, f), Those(m[t := p], f);
    assert a - {t} == b - {t};
    assert a == if f(m[t]) then (a - {t}) + {t} else a - {t};
    assert b == if f(p) then (b - {t}) + {t} else b - {t};
  }

  lemma {:induction false} CountPositive<K(!new), P(!new)>(m: map<K, P>, t: K, f: P -> bool)
    requires t in m && f(m[t])
    ensures Count(m, f) > 0
  {
    assert t in Those(m, f);
  }

  lemma {:induction false} CountNone<K(!new), P(!new)>(m: map<K, P>, f: P -> bool)
    requires forall t :: t in m ==> !f(m[t])
    ensures Count(m, f) == 0
  {
    assert Those(m, f) == {};
  }

  lemma {:induction false} CountLess<K(!new), P(!new)>(m: map<K, P>, f: P -> bool, g: P -> bool)
    requires forall p :: f(p) ==> g(p)
    ensures Count(m, f) <= Count(m, g)
  {
    Subset(Those(m, f), Those(m, g));
  }

  lemma {:induction false} Subset<K>(a: set<K>, b: set<K>)
    requires a <= b
    ensures |a| <= |b|
  {
    if a != {} {
      var x :| x in a;
      Subset(a - {x}, b - {x});
    }
  }
}
