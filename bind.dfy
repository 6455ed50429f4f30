/**
 * The steps of the binder that only compute: routing a declaration map to
 * the two ledgers, binding a map and a pair of maps against them, the order
 * of a first bind and of a re-bind, and the promotion of a manual bind.
 */
module Bind {
  import opened Declarations
  import opened Binding
  import opened Ledger


  /** The keys of `list` whose record `_getDisposerMap` now routes to the ledger of retention `keep`. */
  function Routed(list: map<Key, Config>, opts: map<RecordId, Option<Opts>>, keep: bool): (ks: set<Key>)
    ensures ks <= list.Keys
    ensures forall k :: k in list ==> (k in ks <==> Keep(opts, list[k]) == keep)
  {
    set k | k in list && Keep(opts, list[k]) == keep
  }

  /** Every record `list` holds is keep under `opts`. */
  ghost predicate AllKeep(list: map<Key, Config>, opts: map<RecordId, Option<Opts>>)
  {
    forall k :: k in list ==> Keep(opts, list[k])
  }

  /** A map whose every record is keep routes all its keys to the destroy ledger. */
  lemma AllKeepRouted(list: map<Key, Config>, opts: map<RecordId, Option<Opts>>)
    requires AllKeep(list, opts)
    ensures Routed(list, opts, true) == list.Keys
  {
  }

  /** The records a map holds, by identity. */
  function Records(list: map<Key, Config>): (ids: set<RecordId>)
    ensures forall k :: k in list ==> list[k].id in ids
    ensures forall id :: id in ids ==> exists k :: k in list && list[k].id == id
  {
    set k | k in list :: list[k].id
  }

  /**
   * One `forEach` of the constructor (lines 45-51, 58-64): every record of
   * one prototype's `list`, in order, is set into `keepMap` when its
   * `opts.keep` is set and into `m` otherwise, so the two maps go from
   * sorting the records walked so far to sorting them followed by `list`.
   */
  method SortList(walked: seq<Config>, list: seq<Config>, opts: map<RecordId, Option<Opts>>,
                  m0: map<Key, Config>, keepMap0: map<Key, Config>)
    returns (m: map<Key, Config>, keepMap: map<Key, Config>)
    requires m0 == Sorted(walked, opts, false) && keepMap0 == Sorted(walked, opts, true)
    ensures m == Sorted(walked + list, opts, false)
    ensures keepMap == Sorted(walked + list, opts, true)
  {
    m, keepMap := m0, keepMap0;
    var j := 0;
    assert walked + list[..0] == walked;
    while j < |list|
      invariant 0 <= j <= |list|
      invariant keepMap == Sorted(walked + list[..j], opts, true)
      invariant m == Sorted(walked + list[..j], opts, false)
    {
      var r := list[j];
      SortedStep(walked, list, j, opts, true);
      SortedStep(walked, list, j, opts, false);
      if Keep(opts, r) {
        keepMap := keepMap[r.key := r];
      } else {
        m := m[r.key := r];
      }
      j := j + 1;
    }
    assert list[..j] == list;
  }

  /**
   * The list of one kind that the `i`-th prototype of the chain declares
   * (lines 41-53 for auto-runs, 55-66 for reactions): when it is non-empty,
   * each of its records is set into the keep map or the non-keep map by its
   * `opts.keep`. `declared` tells whether it was non-empty.
   */
  method SortProto(table: map<ProtoId, seq<Config>>, chain: seq<ProtoId>, i: nat, opts: map<RecordId, Option<Opts>>,
                   m0: map<Key, Config>, keepMap0: map<Key, Config>)
    returns (m: map<Key, Config>, keepMap: map<Key, Config>, declared: bool)
    requires i < |chain|
    requires m0 == Sorted(Decls(table, chain, i), opts, false) && keepMap0 == Sorted(Decls(table, chain, i), opts, true)
    ensures m == Sorted(Decls(table, chain, i + 1), opts, false)
    ensures keepMap == Sorted(Decls(table, chain, i + 1), opts, true)
    ensures declared <==> |ListOf(table, chain[i])| > 0
    ensures |Decls(table, chain, i + 1)| > 0 <==> |Decls(table, chain, i)| > 0 || declared
  {
    var list := ListOf(table, chain[i]);
    declared := |list| > 0;
    if declared {
      m, keepMap := SortList(Decls(table, chain, i), list, opts, m0, keepMap0);
    } else {
      assert Decls(table, chain, i) + list == Decls(table, chain, i);
      m, keepMap := m0, keepMap0;
    }
  }

  /**
   * The walk of the constructor (lines 39-66): for every prototype of the
   * chain, most-derived first, each record of its auto-run list and then of
   * its reaction list is set into the keep map or the non-keep map of its
   * kind by its `opts.keep`. `created` tells whether the auto-run maps were
   * created (lines 42-44), which needs a non-empty auto-run list somewhere.
   */
  method Collect(autoTable: map<ProtoId, seq<Config>>, reactionTable: map<ProtoId, seq<Config>>,
                 opts: map<RecordId, Option<Opts>>, chain: seq<ProtoId>)
    returns (ar: map<Key, Config>, kar: map<Key, Config>, rl: map<Key, Config>, krl: map<Key, Config>, created: bool)
    ensures ar == Sorted(Walk(autoTable, chain), opts, false)
    ensures kar == Sorted(Walk(autoTable, chain), opts, true)
    ensures rl == Sorted(Walk(reactionTable, chain), opts, false)
    ensures krl == Sorted(Walk(reactionTable, chain), opts, true)
    ensures created <==> |Walk(autoTable, chain)| > 0
  {
    ar, kar, rl, krl := map[], map[], map[], map[];
    created := false;
    var i := 0;
    while i < |chain|
      invariant 0 <= i <= |chain|
      invariant ar == Sorted(Decls(autoTable, chain, i), opts, false)
      invariant kar == Sorted(Decls(autoTable, chain, i), opts, true)
      invariant rl == Sorted(Decls(reactionTable, chain, i), opts, false)
      invariant krl == Sorted(Decls(reactionTable, chain, i), opts, true)
      invariant created <==> |Decls(autoTable, chain, i)| > 0
    {
      var declared;
      ar, kar, declared := SortProto(autoTable, chain, i, opts, ar, kar);
      created := created || declared;
      rl, krl, declared := SortProto(reactionTable, chain, i, opts, rl, krl);
      i := i + 1;
    }
  }

  /**
   * The declaration maps of an instance: each keyed by its records' keys,
   * the auto-run maps empty unless they were created, every non-keep
   * auto-run record in the registry, and every record of a keep map keep.
   */
  ghost predicate WellDeclared(ar: map<Key, Config>, kar: map<Key, Config>, rl: map<Key, Config>, krl: map<Key, Config>,
                               created: bool, opts: map<RecordId, Option<Opts>>)
  {
    && KeysMatch(ar) && KeysMatch(kar) && KeysMatch(rl) && KeysMatch(krl)
    && (!created ==> ar == map[] && kar == map[])
    && Records(ar) <= opts.Keys
    && AllKeep(kar, opts) && AllKeep(krl, opts)
  }

  /**
   * One call of the callback of the `forEach` in `_bindAutorun` /
   * `_bindReaction` (lines 107-110, 117-127) took the ledgers from
   * `(atDisable, atDestroy)` with `issued` disposers handed out to
   * `(disable', destroy')` with `issued'`: `_getDisposerMap` (lines 178-186)
   * picked the destroy ledger when the record's `opts.keep` is set and the
   * disable ledger otherwise; a key that ledger held kept its disposer, and a
   * key it lacked got the next disposer; the other ledger is untouched.
   */
  ghost predicate BindsConfig(config: Config, opts: map<RecordId, Option<Opts>>,
                              atDisable: map<Key, Disposer>, atDestroy: map<Key, Disposer>, issued: nat,
                              disable': map<Key, Disposer>, destroy': map<Key, Disposer>, issued': nat)
  {
    && (Keep(opts, config) ==> disable' == atDisable)
    && (!Keep(opts, config) ==> destroy' == atDestroy)
    && var (ledger, ledger') := if Keep(opts, config) then (atDestroy, destroy') else (atDisable, disable');
       if config.key in ledger then ledger' == ledger && issued' == issued
       else ledger' == ledger[config.key := issued] && issued' == issued + 1
  }

  /** The callback of `_bindAutorun` / `_bindReaction` for one record. */
  method BindConfig(config: Config, opts: map<RecordId, Option<Opts>>,
                    atDisable: map<Key, Disposer>, atDestroy: map<Key, Disposer>, issued: nat, ghost trace: seq<Event>)
    returns (disable': map<Key, Disposer>, destroy': map<Key, Disposer>, issued': nat)
    requires Accounted(atDisable, atDestroy, issued, trace)
    ensures Accounted(disable', destroy', issued', trace)
    ensures BindsConfig(config, opts, atDisable, atDestroy, issued, disable', destroy', issued')
  {
    disable', destroy', issued' := atDisable, atDestroy, issued;
    if Keep(opts, config) {
      if config.key !in atDestroy {
        IssueAtDestroy(atDisable, atDestroy, issued, trace, config.key);
        destroy' := atDestroy[config.key := issued];
        issued' := issued + 1;
      }
    } else {
      if config.key !in atDisable {
        IssueAtDisable(atDisable, atDestroy, issued, trace, config.key);
        disable' := atDisable[config.key := issued];
        issued' := issued + 1;
      }
    }
  }

  /**
   * The ledgers `(disable', destroy')` are `(atDisable, atDestroy)` after
   * binding every record of `list` whose key is not in `todo`.
   */
  ghost predicate BoundExcept(list: map<Key, Config>, opts: map<RecordId, Option<Opts>>, todo: set<Key>,
                              atDisable: map<Key, Disposer>, atDestroy: map<Key, Disposer>, issued: nat,
                              disable': map<Key, Disposer>, destroy': map<Key, Disposer>, issued': nat)
  {
    && issued <= issued'
    && Grown(atDisable, disable', Routed(list, opts, false) - todo, issued, issued')
    && Grown(atDestroy, destroy', Routed(list, opts, true) - todo, issued, issued')
  }

  /** Binding one more record of `list` extends what has been bound by its key. */
  lemma BindStep(list: map<Key, Config>, opts: map<RecordId, Option<Opts>>, todo: set<Key>, k: Key,
                 atDisable: map<Key, Disposer>, atDestroy: map<Key, Disposer>, issued: nat,
                 disable0: map<Key, Disposer>, destroy0: map<Key, Disposer>, issued0: nat,
                 disable1: map<Key, Disposer>, destroy1: map<Key, Disposer>, issued1: nat)
    requires KeysMatch(list) && todo <= list.Keys && k in todo
    requires BoundExcept(list, opts, todo, atDisable, atDestroy, issued, disable0, destroy0, issued0)
    requires BindsConfig(list[k], opts, disable0, destroy0, issued0, disable1, destroy1, issued1)
    ensures BoundExcept(list, opts, todo - {k}, atDisable, atDestroy, issued, disable1, destroy1, issued1)
  {
    var doneDisable, doneDestroy := Routed(list, opts, false) - todo, Routed(list, opts, true) - todo;
    if Keep(opts, list[k]) {
      assert Routed(list, opts, true) - (todo - {k}) == doneDestroy + {k};
      assert Routed(list, opts, false) - (todo - {k}) == doneDisable;
      if k !in destroy0 {
        GrownIssue(atDestroy, destroy0, doneDestroy, issued, issued0, k);
        GrownWiden(atDisable, disable0, doneDisable, issued, issued0, issued1);
      } else {
        GrownPresent(atDestroy, destroy0, doneDestroy, issued, issued0, k);
      }
    } else {
      assert Routed(list, opts, false) - (todo - {k}) == doneDisable + {k};
      assert Routed(list, opts, true) - (todo - {k}) == doneDestroy;
      if k !in disable0 {
        GrownIssue(atDisable, disable0, doneDisable, issued, issued0, k);
        GrownWiden(atDestroy, destroy0, doneDestroy, issued, issued0, issued1);
      } else {
        GrownPresent(atDisable, disable0, doneDisable, issued, issued0, k);
      }
    }
  }

  /**
   * The loop of `_bindAutorun` / `_bindReaction` (lines 104-130) over the
   * ledgers `atDisable` and `atDestroy`, with `issued` disposers handed out
   * so far: every record of `list` is bound as `BindsConfig` says. A key
   * already bound keeps its disposer, a key bound now gets a fresh one, in
   * the ledger its record's `opts.keep` selects.
   */
  method BindAll(list: map<Key, Config>, opts: map<RecordId, Option<Opts>>,
                 atDisable: map<Key, Disposer>, atDestroy: map<Key, Disposer>, issued: nat, ghost trace: seq<Event>)
    returns (disable': map<Key, Disposer>, destroy': map<Key, Disposer>, issued': nat)
    requires Accounted(atDisable, atDestroy, issued, trace) && KeysMatch(list)
    ensures Accounted(disable', destroy', issued', trace)
    ensures issued <= issued'
    ensures Grown(atDisable, disable', Routed(list, opts, false), issued, issued')
    ensures Grown(atDestroy, destroy', Routed(list, opts, true), issued, issued')
  {
    disable', destroy', issued' := atDisable, atDestroy, issued;
    var todo := list.Keys;
    while todo != {}
      invariant todo <= list.Keys
      invariant Accounted(disable', destroy', issued', trace)
      invariant BoundExcept(list, opts, todo, atDisable, atDestroy, issued, disable', destroy', issued')
      decreases todo
    {
      var k :| k in todo;
      ghost var disable0, destroy0, issued0 := disable', destroy', issued';
      disable', destroy', issued' := BindConfig(list[k], opts, disable', destroy', issued', trace);
      BindStep(list, opts, todo, k, atDisable, atDestroy, issued, disable0, destroy0, issued0, disable', destroy', issued');
      todo := todo - {k};
    }
  }

  /**
   * Binding `first` and then another map: in each ledger, the keys `first`
   * routes there were bound, with disposers below `mid`, before every other
   * key bound then.
   */
  ghost predicate PairInOrder(first: map<Key, Config>, opts: map<RecordId, Option<Opts>>,
                              atDisable: map<Key, Disposer>, atDestroy: map<Key, Disposer>,
                              disable': map<Key, Disposer>, destroy': map<Key, Disposer>, lo: nat, mid: nat, hi: nat)
  {
    && lo <= mid <= hi
    && BoundBelow(atDisable, disable', Routed(first, opts, false), mid)
    && BoundBelow(atDestroy, destroy', Routed(first, opts, true), mid)
  }

  /**
   * A re-bind (lines 83-84) took the ledgers from `(atDisable, atDestroy)`
   * with `lo` disposers handed out to `(disable', destroy')` with `hi`: it
   * bound every key of the non-keep maps `ar` and `rl`, to a fresh disposer
   * in the ledger its retention routes it to, the auto-runs before the
   * reactions, and each disposer it handed out is held.
   */
  ghost predicate Rebound(ar: map<Key, Config>, rl: map<Key, Config>, opts: map<RecordId, Option<Opts>>,
                          atDisable: map<Key, Disposer>, atDestroy: map<Key, Disposer>, lo: nat,
                          disable': map<Key, Disposer>, destroy': map<Key, Disposer>, hi: nat, mid: nat)
  {
    && lo <= hi
    && Grown(atDisable, disable', Routed(ar, opts, false) + Routed(rl, opts, false), lo, hi)
    && Grown(atDestroy, destroy', Routed(ar, opts, true) + Routed(rl, opts, true), lo, hi)
    && PairInOrder(ar, opts, atDisable, atDestroy, disable', destroy', lo, mid, hi)
    && forall d: Disposer :: lo <= d < hi ==> d in Live(disable', destroy')
  }

  /**
   * Two maps bound one after the other against the ledgers, `first` and then
   * `second`: the non-keep auto-run and reaction maps of a re-bind (lines
   * 83-84), or the two auto-run and the two reaction maps of a first bind
   * (lines 96-97, 98-99).
   */
  method BindPair(first: map<Key, Config>, second: map<Key, Config>, opts: map<RecordId, Option<Opts>>,
                  atDisable: map<Key, Disposer>, atDestroy: map<Key, Disposer>, issued: nat, ghost trace: seq<Event>)
    returns (disable': map<Key, Disposer>, destroy': map<Key, Disposer>, issued': nat, ghost mid: nat)
    requires Accounted(atDisable, atDestroy, issued, trace) && KeysMatch(first) && KeysMatch(second)
    ensures Accounted(disable', destroy', issued', trace)
    ensures issued <= issued'
    ensures Grown(atDisable, disable', Routed(first, opts, false) + Routed(second, opts, false), issued, issued')
    ensures Grown(atDestroy, destroy', Routed(first, opts, true) + Routed(second, opts, true), issued, issued')
    ensures PairInOrder(first, opts, atDisable, atDestroy, disable', destroy', issued, mid, issued')
    ensures forall d: Disposer :: issued <= d < issued' ==> d in Live(disable', destroy')
  {
    var d1, s1, n1 := BindAll(first, opts, atDisable, atDestroy, issued, trace);
    disable', destroy', issued' := BindAll(second, opts, d1, s1, n1, trace);
    GrownTrans(atDisable, d1, disable', Routed(first, opts, false), Routed(second, opts, false), issued, n1, issued');
    GrownTrans(atDestroy, s1, destroy', Routed(first, opts, true), Routed(second, opts, true), issued, n1, issued');
    CutAtPhase(atDisable, d1, disable', Routed(first, opts, false), Routed(second, opts, false), issued, n1, issued');
    CutAtPhase(atDestroy, s1, destroy', Routed(first, opts, true), Routed(second, opts, true), issued, n1, issued');
    mid := n1;
    FreshHeld(atDisable, atDestroy, issued, disable', destroy', issued', trace);
  }

  /**
   * The order of a first bind in the ledger of retention `keep`: the keys of
   * `ar` routed there got disposers below `c1`, those of `ar` and `kar` below
   * `c2`, those of `ar`, `kar` and `rl` below `c3`, and those of `krl` only
   * the rest.
   */
  ghost predicate Phases(m0: map<Key, Disposer>, m1: map<Key, Disposer>,
                         ar: map<Key, Config>, kar: map<Key, Config>, rl: map<Key, Config>,
                         opts: map<RecordId, Option<Opts>>, keep: bool, c1: nat, c2: nat, c3: nat)
  {
    && BoundBelow(m0, m1, Routed(ar, opts, keep), c1)
    && BoundBelow(m0, m1, Routed(ar, opts, keep) + Routed(kar, opts, keep), c2)
    && BoundBelow(m0, m1, (Routed(ar, opts, keep) + Routed(kar, opts, keep)) + Routed(rl, opts, keep), c3)
  }

  /** A first bind went auto-runs before reactions, and non-keep before keep within each, in both ledgers. */
  ghost predicate FirstBindInOrder(ar: map<Key, Config>, kar: map<Key, Config>, rl: map<Key, Config>,
                                   opts: map<RecordId, Option<Opts>>,
                                   atDisable: map<Key, Disposer>, atDestroy: map<Key, Disposer>,
                                   disable': map<Key, Disposer>, destroy': map<Key, Disposer>,
                                   lo: nat, c1: nat, c2: nat, c3: nat, hi: nat)
  {
    && lo <= c1 <= c2 <= c3 <= hi
    && Phases(atDisable, disable', ar, kar, rl, opts, false, c1, c2, c3)
    && Phases(atDestroy, destroy', ar, kar, rl, opts, true, c1, c2, c3)
  }

  /**
   * A first bind (lines 96-99) took the ledgers from `(atDisable, atDestroy)`
   * with `lo` disposers handed out to `(disable', destroy')` with `hi`: it
   * bound every key of the four maps, to a fresh disposer in the ledger its
   * retention routes it to, in the order `ar`, `kar`, `rl`, `krl`, and each
   * disposer it handed out is held.
   */
  ghost predicate FirstBound(ar: map<Key, Config>, kar: map<Key, Config>, rl: map<Key, Config>, krl: map<Key, Config>,
                             opts: map<RecordId, Option<Opts>>,
                             atDisable: map<Key, Disposer>, atDestroy: map<Key, Disposer>, lo: nat,
                             disable': map<Key, Disposer>, destroy': map<Key, Disposer>, hi: nat,
                             c1: nat, c2: nat, c3: nat)
  {
    && lo <= hi
    && Grown(atDisable, disable',
         (Routed(ar, opts, false) + Routed(kar, opts, false)) + (Routed(rl, opts, false) + Routed(krl, opts, false)), lo, hi)
    && Grown(atDestroy, destroy',
         (Routed(ar, opts, true) + Routed(kar, opts, true)) + (Routed(rl, opts, true) + Routed(krl, opts, true)), lo, hi)
    && FirstBindInOrder(ar, kar, rl, opts, atDisable, atDestroy, disable', destroy', lo, c1, c2, c3, hi)
    && forall d: Disposer :: lo <= d < hi ==> d in Live(disable', destroy')
  }

  /**
   * The binds of lines 96-99: the auto-run maps `ar` and `kar`, then the
   * reaction maps `rl` and `krl`, are bound against the ledgers, in that order.
   */
  method FirstBind(ar: map<Key, Config>, kar: map<Key, Config>, rl: map<Key, Config>, krl: map<Key, Config>,
                   opts: map<RecordId, Option<Opts>>,
                   atDisable: map<Key, Disposer>, atDestroy: map<Key, Disposer>, issued: nat, ghost trace: seq<Event>)
    returns (disable': map<Key, Disposer>, destroy': map<Key, Disposer>, issued': nat, ghost c1: nat, ghost c2: nat, ghost c3: nat)
    requires Accounted(atDisable, atDestroy, issued, trace)
    requires KeysMatch(ar) && KeysMatch(kar) && KeysMatch(rl) && KeysMatch(krl)
    ensures Accounted(disable', destroy', issued', trace)
    ensures FirstBound(ar, kar, rl, krl, opts, atDisable, atDestroy, issued, disable', destroy', issued', c1, c2, c3)
  {
    var d1, s1, n1;
    d1, s1, n1, c1 := BindPair(ar, kar, opts, atDisable, atDestroy, issued, trace);
    disable', destroy', issued', c3 := BindPair(rl, krl, opts, d1, s1, n1, trace);
    c2 := n1;
    OrderFirstBind(atDisable, d1, disable', ar, kar, rl, krl, opts, false, issued, c1, n1, c3, issued');
    OrderFirstBind(atDestroy, s1, destroy', ar, kar, rl, krl, opts, true, issued, c1, n1, c3, issued');
    GrownTrans(atDisable, d1, disable', Routed(ar, opts, false) + Routed(kar, opts, false),
      Routed(rl, opts, false) + Routed(krl, opts, false), issued, n1, issued');
    GrownTrans(atDestroy, s1, destroy', Routed(ar, opts, true) + Routed(kar, opts, true),
      Routed(rl, opts, true) + Routed(krl, opts, true), issued, n1, issued');
    FreshHeld(atDisable, atDestroy, issued, disable', destroy', issued', trace);
  }

  /** The two pairs of a first bind, each bound in order, one after the other, give its four phases in one ledger. */
  lemma OrderFirstBind(m0: map<Key, Disposer>, m1: map<Key, Disposer>, m2: map<Key, Disposer>,
                       ar: map<Key, Config>, kar: map<Key, Config>, rl: map<Key, Config>, krl: map<Key, Config>,
                       opts: map<RecordId, Option<Opts>>, keep: bool, lo: nat, c1: nat, mid: nat, c3: nat, hi: nat)
    requires lo <= c1 <= mid <= c3 <= hi
    requires Grown(m0, m1, Routed(ar, opts, keep) + Routed(kar, opts, keep), lo, mid)
    requires Grown(m1, m2, Routed(rl, opts, keep) + Routed(krl, opts, keep), mid, hi)
    requires BoundBelow(m0, m1, Routed(ar, opts, keep), c1)
    requires BoundBelow(m1, m2, Routed(rl, opts, keep), c3)
    ensures Phases(m0, m2, ar, kar, rl, opts, keep, c1, mid, c3)
  {
    var a, b := Routed(ar, opts, keep) + Routed(kar, opts, keep), Routed(rl, opts, keep) + Routed(krl, opts, keep);
    CutInFirst(m0, m1, m2, a, b, lo, mid, hi, Routed(ar, opts, keep), c1);
    CutAtPhase(m0, m1, m2, a, b, lo, mid, hi);
    CutInSecond(m0, m1, m2, a, b, lo, mid, hi, Routed(rl, opts, keep), c3);
  }

  /**
   * The promotion of lines 88-93 took the non-keep auto-run map `list`, the
   * keep auto-run map `keepList` and the records' `opts` to `list'`,
   * `keepList'` and `opts'`: `list'` is empty, `keepList'` gained every
   * record of `list` under its key, and exactly the records of `list` now
   * have `opts.keep = true`.
   */
  ghost predicate Promotion(list: map<Key, Config>, keepList: map<Key, Config>, opts: map<RecordId, Option<Opts>>,
                            list': map<Key, Config>, keepList': map<Key, Config>, opts': map<RecordId, Option<Opts>>)
  {
    && list' == map[]
    && keepList' == keepList + list
    && opts'.Keys == opts.Keys
    && forall id :: id in opts ==> opts'[id] == if id in Records(list) then Some(Opts(true)) else opts[id]
  }

  /**
   * The promotion of lines 88-93 over the auto-run maps `list` (non-keep)
   * and `keepList`: every record of `list` gets `opts = opts || {}` and
   * `opts.keep = true`, written into the shared record, and is `set` into
   * `keepList` under its key. The caller then clears `list`.
   */
  method PromoteAll(list: map<Key, Config>, keepList: map<Key, Config>, opts: map<RecordId, Option<Opts>>)
    returns (keepList': map<Key, Config>, opts': map<RecordId, Option<Opts>>)
    requires Records(list) <= opts.Keys
    ensures keepList' == keepList + list
    ensures opts'.Keys == opts.Keys
    ensures forall id :: id in opts ==> opts'[id] == if id in Records(list) then Some(Opts(true)) else opts[id]
    ensures AllKeep(list, opts')
    ensures AllKeep(keepList, opts) ==> AllKeep(keepList', opts')
  {
    keepList', opts' := keepList, opts;
    var todo := list.Keys;
    while todo != {}
      invariant todo <= list.Keys
      invariant PromotedSoFar(list, keepList, opts, todo, keepList', opts')
      decreases todo
    {
      var key :| key in todo;
      var value := list[key];
      PromoteStep(list, keepList, opts, todo, keepList', opts', key);
      opts' := opts'[value.id := Some(Opts(true))];
      keepList' := keepList'[key := value];
      todo := todo - {key};
    }
    PromotionDone(list, keepList, opts, keepList', opts');
    PromotedAreKeep(list, opts, opts');
    if AllKeep(keepList, opts) {
      PromotionKeepsKeep(keepList, opts, opts', Records(list));
    }
  }

  /** Every record promoted is keep afterwards. */
  lemma PromotedAreKeep(list: map<Key, Config>, opts: map<RecordId, Option<Opts>>, opts': map<RecordId, Option<Opts>>)
    requires Records(list) <= opts.Keys && opts'.Keys == opts.Keys
    requires forall id :: id in opts ==> opts'[id] == if id in Records(list) then Some(Opts(true)) else opts[id]
    ensures AllKeep(list, opts')
  {
    forall k | k in list
      ensures Keep(opts', list[k])
    {
      assert list[k].id in Records(list);
    }
  }

  /**
   * Promotion only ever writes `keep = true`: a record that was keep before
   * is keep after.
   */
  lemma PromotionKeepsKeep(list: map<Key, Config>, opts: map<RecordId, Option<Opts>>, opts': map<RecordId, Option<Opts>>,
                           promoted: set<RecordId>)
    requires opts'.Keys == opts.Keys
    requires forall id :: id in opts ==> opts'[id] == if id in promoted then Some(Opts(true)) else opts[id]
    requires AllKeep(list, opts)
    ensures AllKeep(list, opts')
  {
    forall k | k in list
      ensures Keep(opts', list[k])
    {
      assert list[k].id in opts;
    }
  }

  /** The records of the entries of `list` a `forEach` has visited when `todo` is what is left. */
  ghost function Promoted(list: map<Key, Config>, todo: set<Key>): set<RecordId>
  {
    set k | k in list && k !in todo :: list[k].id
  }

  /**
   * The state of the promotion once the keys outside `todo` are visited:
   * every visited entry is in the keep map and every visited record is keep.
   */
  ghost predicate PromotedSoFar(list: map<Key, Config>, keepList: map<Key, Config>, opts: map<RecordId, Option<Opts>>,
                                todo: set<Key>, keepList': map<Key, Config>, opts': map<RecordId, Option<Opts>>)
  {
    && keepList'.Keys == keepList.Keys + (list.Keys - todo)
    && (forall k :: k in keepList' ==> keepList'[k] == if k in list && k !in todo then list[k] else keepList[k])
    && opts'.Keys == opts.Keys
    && forall id :: id in opts ==> opts'[id] == if id in Promoted(list, todo) then Some(Opts(true)) else opts[id]
  }

  /** Once every key is visited, the keep map is the old one overridden by `list`, and every record of `list` is promoted. */
  lemma PromotionDone(list: map<Key, Config>, keepList: map<Key, Config>, opts: map<RecordId, Option<Opts>>,
                      keepList': map<Key, Config>, opts': map<RecordId, Option<Opts>>)
    requires PromotedSoFar(list, keepList, opts, {}, keepList', opts')
    ensures keepList' == keepList + list
    ensures Promoted(list, {}) == Records(list)
  {
    assert keepList'.Keys == (keepList + list).Keys;
  }

  /** Visiting one more key of the promotion keeps `PromotedSoFar`. */
  lemma PromoteStep(list: map<Key, Config>, keepList: map<Key, Config>, opts: map<RecordId, Option<Opts>>,
                    todo: set<Key>, keepList': map<Key, Config>, opts': map<RecordId, Option<Opts>>, key: Key)
    requires Records(list) <= opts.Keys
    requires key in todo && todo <= list.Keys
    requires PromotedSoFar(list, keepList, opts, todo, keepList', opts')
    ensures PromotedSoFar(list, keepList, opts, todo - {key},
      keepList'[key := list[key]], opts'[list[key].id := Some(Opts(true))])
  {
    forall id | id in Promoted(list, todo - {key})
      ensures id in Promoted(list, todo) + {list[key].id}
    {
      var k :| k in list && k !in todo - {key} && list[k].id == id;
      if k != key {
        assert id in Promoted(list, todo);
      }
    }
    assert Promoted(list, todo - {key}) == Promoted(list, todo) + {list[key].id};
  }

  /**
   * The `forEach((x) => x())` of `_disposeAtDisable` / `_disposeAll`
   * (lines 164, 172): every disposer the ledger `m` holds is invoked once;
   * `s` is what that appends to the trace.
   */
  method InvokeAll(m: map<Key, Disposer>) returns (ghost s: seq<Event>)
    requires Injective(m)
    ensures OnceEach(s, m.Values)
  {
    s := [];
    var todo := m.Keys;
    while todo != {}
      invariant todo <= m.Keys
      invariant OnceEach(s, HeldUnder(m, m.Keys - todo))
      decreases todo
    {
      var k :| k in todo;
      assert HeldUnder(m, m.Keys - (todo - {k})) == HeldUnder(m, m.Keys - todo) + {m[k]};
      forall j | j in m.Keys - todo
        ensures m[j] != m[k]
      {
        assert (m - {k})[j] == m[j];
      }
      OnceEachSnoc(s, HeldUnder(m, m.Keys - todo), m[k]);
      s := s + [Disposed(m[k])];
      todo := todo - {k};
    }
    assert HeldUnder(m, m.Keys) == m.Values;
  }

}
