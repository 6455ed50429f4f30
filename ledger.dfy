/**
 * The disposer ledgers of an instance and what invoking disposers leaves
 * behind. The reactive library is seen only through the disposers it hands
 * out, each a fresh number, and through a log of the calls made to them and
 * to the host's own lifecycle hooks.
 */
module Ledger {
  import opened Declarations

  /** A disposer handed out by `autorun`, or returned by a reaction method. */
  type Disposer = nat

  /** The host lifecycle hooks the binder forwards to with `super`. */
  datatype Hook = Enable | Disable | Destroy | Destruct

  /** One observable step: a disposer was invoked, or a host hook was called. */
  datatype Event = Disposed(d: Disposer) | Super(hook: Hook)

  /** How many times `d` was invoked in `trace`. */
  function Count(trace: seq<Event>, d: Disposer): nat
  {
    if trace == [] then 0
    else Count(trace[..|trace| - 1], d) + (if trace[|trace| - 1] == Disposed(d) then 1 else 0)
  }

  lemma {:induction false} CountAppend(a: seq<Event>, b: seq<Event>, d: Disposer)
    ensures Count(a + b, d) == Count(a, d) + Count(b, d)
  {
    if b != [] {
      var n := |b| - 1;
      assert (a + b)[..|a + b| - 1] == a + b[..n];
      CountAppend(a, b[..n], d);
    } else {
      assert a + b == a;
    }
  }

  /** `s` invokes every disposer of `ds` exactly once and does nothing else. */
  ghost predicate OnceEach(s: seq<Event>, ds: set<Disposer>)
  {
    && (forall i :: 0 <= i < |s| ==> s[i].Disposed?)
    && (forall d: Disposer :: Count(s, d) == if d in ds then 1 else 0)
  }

  /** Draining two ledgers with no disposer in common invokes each disposer once. */
  lemma OnceEachConcat(a: seq<Event>, b: seq<Event>, da: set<Disposer>, db: set<Disposer>)
    requires OnceEach(a, da) && OnceEach(b, db) && da !! db
    ensures OnceEach(a + b, da + db)
  {
    forall d ensures Count(a + b, d) == if d in da + db then 1 else 0 {
      CountAppend(a, b, d);
    }
  }

  /** Draining an empty ledger invokes nothing at all. */
  lemma {:induction false} OnceEachEmpty(s: seq<Event>)
    requires OnceEach(s, {})
    ensures s == []
  {
    if s != [] {
      var n := |s| - 1;
      assert s[n].Disposed?;
      assert Count(s, s[n].d) >= 1;
    }
  }

  /** The disposers a ledger holds under the keys `ks`. */
  ghost function HeldUnder(m: map<Key, Disposer>, ks: set<Key>): set<Disposer>
  {
    set k | k in ks && k in m :: m[k]
  }

  /** No disposer is held under two keys of one ledger. */
  ghost predicate Injective(m: map<Key, Disposer>)
  {
    forall k :: k in m ==> m[k] !in (m - {k}).Values
  }

  /** Storing a disposer held nowhere in the ledger, under a free key, keeps it injective. */
  lemma InjectiveIssue(m: map<Key, Disposer>, k: Key, d: Disposer)
    requires Injective(m) && k !in m && d !in m.Values
    ensures Injective(m[k := d])
  {
    var m' := m[k := d];
    forall j | j in m'
      ensures m'[j] !in (m' - {j}).Values
    {
      forall i | i in m' && i != j
        ensures m'[i] != m'[j]
      {
        if i == k {
          assert m[j] in m.Values;
        } else if j == k {
          assert m[i] in m.Values;
        } else {
          assert (m - {j})[i] == m[i];
        }
      }
    }
  }

  /** Storing a disposer under a free key adds exactly that disposer to the ledger's values. */
  lemma ValuesIssue(m: map<Key, Disposer>, k: Key, d: Disposer)
    requires k !in m
    ensures m[k := d].Values == m.Values + {d}
  {
    var m' := m[k := d];
    forall v ensures v in m'.Values <==> v in m.Values + {d} {
      if v in m.Values {
        var j :| j in m && m[j] == v;
        assert j != k && m'[j] == v;
      }
      assert m'[k] == d;
    }
  }

  /**
   * `m1` is `m0` after binding the keys `added`: a key already present keeps
   * its disposer, and only a key that was absent got one, drawn from the
   * disposers handed out in `[lo, hi)`.
   */
  ghost predicate Grown(m0: map<Key, Disposer>, m1: map<Key, Disposer>, added: set<Key>, lo: nat, hi: nat)
  {
    && m1.Keys == m0.Keys + added
    && (forall k :: k in m0 ==> m1[k] == m0[k])
    && (forall k :: k in m1 && k !in m0 ==> lo <= m1[k] < hi)
  }

  /** Binding a key that was absent, with the next disposer handed out. */
  lemma GrownIssue(m0: map<Key, Disposer>, m1: map<Key, Disposer>, added: set<Key>, lo: nat, hi: nat, k: Key)
    requires lo <= hi && Grown(m0, m1, added, lo, hi) && k !in m1
    ensures Grown(m0, m1[k := hi], added + {k}, lo, hi + 1)
  {
  }

  /** Binding a key that is present changes nothing. */
  lemma GrownPresent(m0: map<Key, Disposer>, m1: map<Key, Disposer>, added: set<Key>, lo: nat, hi: nat, k: Key)
    requires Grown(m0, m1, added, lo, hi) && k in m1
    ensures Grown(m0, m1, added + {k}, lo, hi)
  {
  }

  /** Handing out disposers to the other ledger. */
  lemma GrownWiden(m0: map<Key, Disposer>, m1: map<Key, Disposer>, added: set<Key>, lo: nat, hi: nat, hi': nat)
    requires hi <= hi' && Grown(m0, m1, added, lo, hi)
    ensures Grown(m0, m1, added, lo, hi')
  {
  }

  lemma GrownTrans(m0: map<Key, Disposer>, m1: map<Key, Disposer>, m2: map<Key, Disposer>,
                   a: set<Key>, b: set<Key>, lo: nat, mid: nat, hi: nat)
    requires lo <= mid <= hi
    requires Grown(m0, m1, a, lo, mid) && Grown(m1, m2, b, mid, hi)
    ensures Grown(m0, m2, a + b, lo, hi)
  {
  }

  /**
   * Bind order as the disposer numbers show it: every key `m1` holds beyond
   * `m0` got a disposer below `mid` exactly when it is one of `first`.
   */
  ghost predicate BoundBelow(m0: map<Key, Disposer>, m1: map<Key, Disposer>, first: set<Key>, mid: nat)
  {
    forall k :: k in m1 && k !in m0 ==> (m1[k] < mid <==> k in first)
  }

  /** Of two binds in a row, every key the first one added was bound before every key the second one added. */
  lemma {:induction false} CutAtPhase(m0: map<Key, Disposer>, m1: map<Key, Disposer>, m2: map<Key, Disposer>,
                                      a: set<Key>, b: set<Key>, lo: nat, mid: nat, hi: nat)
    requires lo <= mid <= hi
    requires Grown(m0, m1, a, lo, mid) && Grown(m1, m2, b, mid, hi)
    ensures BoundBelow(m0, m2, a, mid)
  {
    forall k | k in m2 && k !in m0
      ensures m2[k] < mid <==> k in a
    {
      if k in m1 {
        assert m2[k] == m1[k];
      }
    }
  }

  /** An order inside the first of two binds in a row still holds after the second. */
  lemma {:induction false} CutInFirst(m0: map<Key, Disposer>, m1: map<Key, Disposer>, m2: map<Key, Disposer>,
                                      a: set<Key>, b: set<Key>, lo: nat, mid: nat, hi: nat, first: set<Key>, cut: nat)
    requires lo <= mid <= hi
    requires Grown(m0, m1, a, lo, mid) && Grown(m1, m2, b, mid, hi)
    requires cut <= mid && first <= a && BoundBelow(m0, m1, first, cut)
    ensures BoundBelow(m0, m2, first, cut)
  {
    forall k | k in m2 && k !in m0
      ensures m2[k] < cut <==> k in first
    {
      if k in m1 {
        assert m2[k] == m1[k];
      }
    }
  }

  /** An order inside the second of two binds in a row holds after both, behind everything the first one added. */
  lemma {:induction false} CutInSecond(m0: map<Key, Disposer>, m1: map<Key, Disposer>, m2: map<Key, Disposer>,
                                       a: set<Key>, b: set<Key>, lo: nat, mid: nat, hi: nat, second: set<Key>, cut: nat)
    requires lo <= mid <= hi
    requires Grown(m0, m1, a, lo, mid) && Grown(m1, m2, b, mid, hi)
    requires mid <= cut && BoundBelow(m1, m2, second, cut)
    ensures BoundBelow(m0, m2, a + second, cut)
  {
    forall k | k in m2 && k !in m0
      ensures m2[k] < cut <==> k in a + second
    {
      if k in m1 {
        assert m2[k] == m1[k];
      }
    }
  }

  /** Invoking one more disposer, not invoked before, extends an exactly-once drain. */
  lemma OnceEachSnoc(s: seq<Event>, ds: set<Disposer>, d: Disposer)
    requires OnceEach(s, ds) && d !in ds
    ensures OnceEach(s + [Disposed(d)], ds + {d})
  {
    forall e: Disposer ensures Count(s + [Disposed(d)], e) == if e in ds + {d} then 1 else 0 {
      assert (s + [Disposed(d)])[..|s|] == s;
    }
  }

  /** The disposers the two ledgers hold. */
  ghost function Live(atDisable: map<Key, Disposer>, atDestroy: map<Key, Disposer>): set<Disposer>
  {
    atDisable.Values + atDestroy.Values
  }

  /**
   * The ledgers' bookkeeping: no disposer sits in two slots, every disposer
   * held was handed out, and every disposer handed out is either held, and
   * never invoked, or no longer held and invoked exactly once.
   */
  ghost predicate Accounted(atDisable: map<Key, Disposer>, atDestroy: map<Key, Disposer>, issued: nat, trace: seq<Event>)
  {
    && Injective(atDisable) && Injective(atDestroy)
    && atDisable.Values !! atDestroy.Values
    && (forall d: Disposer :: d in Live(atDisable, atDestroy) ==> d < issued)
    && (forall d: Disposer :: Count(trace, d) == if d < issued && d !in Live(atDisable, atDestroy) then 1 else 0)
  }

  /** A fresh disposer stored in the disable ledger under a free key keeps the books. */
  lemma IssueAtDisable(atDisable: map<Key, Disposer>, atDestroy: map<Key, Disposer>, issued: nat, trace: seq<Event>, k: Key)
    requires Accounted(atDisable, atDestroy, issued, trace) && k !in atDisable
    ensures Accounted(atDisable[k := issued], atDestroy, issued + 1, trace)
  {
    var m := atDisable[k := issued];
    assert issued !in Live(atDisable, atDestroy);
    InjectiveIssue(atDisable, k, issued);
    ValuesIssue(atDisable, k, issued);
    assert Live(m, atDestroy) == Live(atDisable, atDestroy) + {issued};
    forall d: Disposer
      ensures Count(trace, d) == if d < issued + 1 && d !in Live(m, atDestroy) then 1 else 0
    {
    }
  }

  /** A fresh disposer stored in the destroy ledger under a free key keeps the books. */
  lemma IssueAtDestroy(atDisable: map<Key, Disposer>, atDestroy: map<Key, Disposer>, issued: nat, trace: seq<Event>, k: Key)
    requires Accounted(atDisable, atDestroy, issued, trace) && k !in atDestroy
    ensures Accounted(atDisable, atDestroy[k := issued], issued + 1, trace)
  {
    var m := atDestroy[k := issued];
    assert issued !in Live(atDisable, atDestroy);
    InjectiveIssue(atDestroy, k, issued);
    ValuesIssue(atDestroy, k, issued);
    assert Live(atDisable, m) == Live(atDisable, atDestroy) + {issued};
    forall d: Disposer
      ensures Count(trace, d) == if d < issued + 1 && d !in Live(atDisable, m) then 1 else 0
    {
    }
  }

  /** Invoking every disposer of the disable ledger once, then clearing it, keeps the books. */
  lemma DrainDisable(atDisable: map<Key, Disposer>, atDestroy: map<Key, Disposer>, issued: nat, trace: seq<Event>, s: seq<Event>)
    requires Accounted(atDisable, atDestroy, issued, trace) && OnceEach(s, atDisable.Values)
    ensures Accounted(map[], atDestroy, issued, trace + s)
  {
    assert Live(map[], atDestroy) == Live(atDisable, atDestroy) - atDisable.Values;
    forall d: Disposer ensures Count(trace + s, d) == if d < issued && d !in Live(map[], atDestroy) then 1 else 0 {
      CountAppend(trace, s, d);
      if d in atDisable.Values {
        assert d in Live(atDisable, atDestroy);
      }
    }
  }

  /** Invoking every disposer of the destroy ledger once, then clearing it, keeps the books. */
  lemma DrainDestroy(atDisable: map<Key, Disposer>, atDestroy: map<Key, Disposer>, issued: nat, trace: seq<Event>, s: seq<Event>)
    requires Accounted(atDisable, atDestroy, issued, trace) && OnceEach(s, atDestroy.Values)
    ensures Accounted(atDisable, map[], issued, trace + s)
  {
    assert Live(atDisable, map[]) == Live(atDisable, atDestroy) - atDestroy.Values;
    forall d: Disposer ensures Count(trace + s, d) == if d < issued && d !in Live(atDisable, map[]) then 1 else 0 {
      CountAppend(trace, s, d);
      if d in atDestroy.Values {
        assert d in Live(atDisable, atDestroy);
      }
    }
  }

  /** A host hook call invokes no disposer and keeps the books. */
  lemma HookKeepsBooks(atDisable: map<Key, Disposer>, atDestroy: map<Key, Disposer>, issued: nat, trace: seq<Event>, h: Hook)
    requires Accounted(atDisable, atDestroy, issued, trace)
    ensures Accounted(atDisable, atDestroy, issued, trace + [Super(h)])
  {
    forall d: Disposer ensures Count(trace + [Super(h)], d) == Count(trace, d) {
      assert (trace + [Super(h)])[..|trace|] == trace;
    }
  }

  /**
   * Between two states that keep the books over the same trace, every
   * disposer handed out in between is held: none was created and dropped.
   */
  lemma FreshHeld(atDisable: map<Key, Disposer>, atDestroy: map<Key, Disposer>, lo: nat,
                  disable': map<Key, Disposer>, destroy': map<Key, Disposer>, hi: nat, trace: seq<Event>)
    requires lo <= hi
    requires Accounted(atDisable, atDestroy, lo, trace) && Accounted(disable', destroy', hi, trace)
    ensures forall d: Disposer :: lo <= d < hi ==> d in Live(disable', destroy')
  {
    forall d: Disposer | lo <= d < hi
      ensures d in Live(disable', destroy')
    {
      assert Count(trace, d) == 0;
    }
  }

  /** Binding only keys a ledger already holds leaves it as it was. */
  lemma GrownIdle(m0: map<Key, Disposer>, m1: map<Key, Disposer>, added: set<Key>, lo: nat, hi: nat)
    requires Grown(m0, m1, added, lo, hi) && added <= m0.Keys
    ensures m1 == m0
  {
    assert m1.Keys == m0.Keys;
  }

  /** Binding that leaves both ledgers as they were hands out no disposer. */
  lemma IdleIssuesNothing(atDisable: map<Key, Disposer>, atDestroy: map<Key, Disposer>, lo: nat, hi: nat, trace: seq<Event>)
    requires lo <= hi
    requires Accounted(atDisable, atDestroy, lo, trace) && Accounted(atDisable, atDestroy, hi, trace)
    ensures hi == lo
  {
    FreshHeld(atDisable, atDestroy, lo, atDisable, atDestroy, hi, trace);
    assert lo < hi ==> lo in Live(atDisable, atDestroy);
  }
}
