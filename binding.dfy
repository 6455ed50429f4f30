/**
 * How an instance sorts the declarations of its prototype chain into its
 * four per-instance maps (the constructor of `ObserverClass`): the chain is
 * walked from the most-derived prototype upward, each list in registration
 * order, and every record is `Map.set` into the keep map or the non-keep map
 * of its kind, overwriting what an earlier record with the same key put there.
 */
module Binding {
  import opened Declarations

  /**
   * The records met while walking the first `n` prototypes of `chain`
   * (most-derived first), each prototype's list in registration order.
   */
  function Decls(table: map<ProtoId, seq<Config>>, chain: seq<ProtoId>, n: nat): seq<Config>
    requires n <= |chain|
  {
    if n == 0 then [] else Decls(table, chain, n - 1) + ListOf(table, chain[n - 1])
  }

  /** The records met while walking the whole chain. */
  function Walk(table: map<ProtoId, seq<Config>>, chain: seq<ProtoId>): seq<Config>
  {
    Decls(table, chain, |chain|)
  }

  /** `c` declares method `k` with retention `keep`, given the records' `opts`. */
  predicate Declares(opts: map<RecordId, Option<Opts>>, c: Config, k: Key, keep: bool)
  {
    c.key == k && Keep(opts, c) == keep
  }

  /** Every entry of an instance map is stored under its own record's key. */
  predicate KeysMatch(m: map<Key, Config>)
  {
    forall k :: k in m ==> m[k].key == k
  }

  /**
   * The map that `set(r.key, r)` for every record `r` of `cs` whose retention
   * is `keep`, in order, leaves behind when it starts empty.
   */
  function Sorted(cs: seq<Config>, opts: map<RecordId, Option<Opts>>, keep: bool): (m: map<Key, Config>)
    ensures KeysMatch(m)
    ensures forall k :: k in m ==> Keep(opts, m[k]) == keep
  {
    if cs == [] then map[]
    else
      var m := Sorted(cs[..|cs| - 1], opts, keep);
      var c := cs[|cs| - 1];
      if Keep(opts, c) == keep then m[c.key := c] else m
  }

  /** One more record set: the map of its retention gets it under its key. */
  lemma SortedStep(walked: seq<Config>, list: seq<Config>, j: nat, opts: map<RecordId, Option<Opts>>, keep: bool)
    requires j < |list|
    ensures Sorted(walked + list[..j + 1], opts, keep) ==
      if Keep(opts, list[j]) == keep then Sorted(walked + list[..j], opts, keep)[list[j].key := list[j]]
      else Sorted(walked + list[..j], opts, keep)
  {
    assert (walked + list[..j + 1])[..|walked| + j] == walked + list[..j];
  }

  /** A key is in the map of retention `keep` exactly when some record of `cs` declares it so. */
  lemma {:induction false} SortedKeys(cs: seq<Config>, opts: map<RecordId, Option<Opts>>, keep: bool, k: Key)
    ensures k in Sorted(cs, opts, keep) <==> exists i :: 0 <= i < |cs| && Declares(opts, cs[i], k, keep)
  {
    if cs != [] {
      var n := |cs| - 1;
      var front := cs[..n];
      SortedKeys(front, opts, keep, k);
      if exists i :: 0 <= i < n && Declares(opts, front[i], k, keep) {
        var i :| 0 <= i < n && Declares(opts, front[i], k, keep);
        assert cs[i] == front[i];
      }
      if exists i :: 0 <= i < |cs| && Declares(opts, cs[i], k, keep) {
        var i :| 0 <= i < |cs| && Declares(opts, cs[i], k, keep);
        if i < n {
          assert front[i] == cs[i];
        }
      }
    }
  }

  /** `cs[i]` declares `k` with retention `keep`, and no later record of `cs` does. */
  ghost predicate LastDeclaration(cs: seq<Config>, opts: map<RecordId, Option<Opts>>, keep: bool, k: Key, i: int)
  {
    0 <= i < |cs| && Declares(opts, cs[i], k, keep) && forall j :: i < j < |cs| ==> !Declares(opts, cs[j], k, keep)
  }

  /** The record the map of retention `keep` holds for `k` is the last record of `cs` declaring `k` so. */
  lemma {:induction false} SortedKeepsLast(cs: seq<Config>, opts: map<RecordId, Option<Opts>>, keep: bool, k: Key)
    requires k in Sorted(cs, opts, keep)
    ensures exists i :: LastDeclaration(cs, opts, keep, k, i) && Sorted(cs, opts, keep)[k] == cs[i]
  {
    var n := |cs| - 1;
    var front := cs[..n];
    if Declares(opts, cs[n], k, keep) {
      assert Sorted(cs, opts, keep)[k] == cs[n];
      assert LastDeclaration(cs, opts, keep, k, n) && Sorted(cs, opts, keep)[k] == cs[n];
    } else {
      assert k in Sorted(front, opts, keep) && Sorted(cs, opts, keep)[k] == Sorted(front, opts, keep)[k];
      SortedKeepsLast(front, opts, keep, k);
      var i :| LastDeclaration(front, opts, keep, k, i) && Sorted(front, opts, keep)[k] == front[i];
      assert cs[i] == front[i];
      assert forall j :: i < j < n ==> cs[j] == front[j];
      assert LastDeclaration(cs, opts, keep, k, i) && Sorted(cs, opts, keep)[k] == cs[i];
    }
  }

  /**
   * A key is in the map of retention `keep` exactly when some record of `cs`
   * declares it with that retention, and the record kept for it is the LAST
   * such record: a later (more ancestral) declaration replaces an earlier one.
   */
  lemma SortedIsLastDeclaration(cs: seq<Config>, opts: map<RecordId, Option<Opts>>, keep: bool, k: Key)
    ensures k in Sorted(cs, opts, keep) <==> exists c :: c in cs && Declares(opts, c, k, keep)
    ensures k in Sorted(cs, opts, keep) ==> exists i :: LastDeclaration(cs, opts, keep, k, i) && Sorted(cs, opts, keep)[k] == cs[i]
  {
    SortedKeys(cs, opts, keep, k);
    if k in Sorted(cs, opts, keep) {
      SortedKeepsLast(cs, opts, keep, k);
    }
    if exists c :: c in cs && Declares(opts, c, k, keep) {
      var c :| c in cs && Declares(opts, c, k, keep);
      var i :| 0 <= i < |cs| && cs[i] == c;
    }
  }

  /** Sorting a concatenation is sorting each part, the second part winning. */
  lemma {:induction false} SortedAppend(xs: seq<Config>, ys: seq<Config>, opts: map<RecordId, Option<Opts>>, keep: bool)
    ensures Sorted(xs + ys, opts, keep) == Sorted(xs, opts, keep) + Sorted(ys, opts, keep)
  {
    if ys != [] {
      var n := |ys| - 1;
      assert (xs + ys)[..|xs + ys| - 1] == xs + ys[..n];
      SortedAppend(xs, ys[..n], opts, keep);
    } else {
      assert xs + ys == xs;
    }
  }

  /** The walk meets a record exactly when one of the prototypes walked lists it. */
  lemma {:induction false} DeclsOfChain(table: map<ProtoId, seq<Config>>, chain: seq<ProtoId>, n: nat, c: Config)
    requires n <= |chain|
    ensures c in Decls(table, chain, n) <==> exists i :: 0 <= i < n && c in ListOf(table, chain[i])
  {
    if n > 0 {
      DeclsOfChain(table, chain, n - 1, c);
    }
  }

  /**
   * After construction, a key is in the map of retention `keep` of its kind
   * exactly when some prototype of the chain declares it with that
   * retention; a key declared both ways is in both maps.
   */
  lemma ChainKeysSorted(table: map<ProtoId, seq<Config>>, chain: seq<ProtoId>, opts: map<RecordId, Option<Opts>>, keep: bool, k: Key)
    ensures k in Sorted(Walk(table, chain), opts, keep) <==>
      exists i, c :: 0 <= i < |chain| && c in ListOf(table, chain[i]) && Declares(opts, c, k, keep)
  {
    var ds := Walk(table, chain);
    SortedIsLastDeclaration(ds, opts, keep, k);
    if k in Sorted(ds, opts, keep) {
      var c :| c in ds && Declares(opts, c, k, keep);
      DeclsOfChain(table, chain, |chain|, c);
    }
    if exists i, c :: 0 <= i < |chain| && c in ListOf(table, chain[i]) && Declares(opts, c, k, keep) {
      var i, c :| 0 <= i < |chain| && c in ListOf(table, chain[i]) && Declares(opts, c, k, keep);
      DeclsOfChain(table, chain, |chain|, c);
    }
  }

  /**
   * Records registered without options never reach a keep map: both
   * `reactor` forms register this way, so every reaction is disable-scoped.
   */
  lemma {:induction false} UnconfiguredNeverKept(cs: seq<Config>, opts: map<RecordId, Option<Opts>>)
    requires forall i :: 0 <= i < |cs| ==> OptsOf(opts, cs[i]) == None
    ensures Sorted(cs, opts, true) == map[]
  {
    if cs != [] {
      UnconfiguredNeverKept(cs[..|cs| - 1], opts);
    }
  }

  /** Every record a map built from `cs` holds is a record of `cs`. */
  lemma SortedFrom(cs: seq<Config>, opts: map<RecordId, Option<Opts>>, keep: bool, k: Key)
    requires k in Sorted(cs, opts, keep)
    ensures Sorted(cs, opts, keep)[k] in cs
  {
    SortedIsLastDeclaration(cs, opts, keep, k);
  }

  /** Every record an instance map holds after construction was declared on a prototype of the chain. */
  lemma WalkedFromChain(table: map<ProtoId, seq<Config>>, chain: seq<ProtoId>, opts: map<RecordId, Option<Opts>>, keep: bool, k: Key)
    requires k in Sorted(Walk(table, chain), opts, keep)
    ensures exists i :: 0 <= i < |chain| && Sorted(Walk(table, chain), opts, keep)[k] in ListOf(table, chain[i])
  {
    SortedFrom(Walk(table, chain), opts, keep, k);
    DeclsOfChain(table, chain, |chain|, Sorted(Walk(table, chain), opts, keep)[k]);
  }
}
