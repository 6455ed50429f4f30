/**
 * `ObserverClass`, the class the `@observer` decorator wraps around a host
 * component: per-instance declaration maps filled at construction, the
 * binder run from `onEnable` (or by hand), and the two disposer ledgers
 * drained at disable and at destroy.
 */
module Observer {
  import opened Declarations
  import opened Binding
  import opened Ledger
  import opened Bind

  /**
   * Who performed the first bind: the instance's own `onEnable` (also what
   * `bindRender()` without an argument passes), or any other function.
   */
  datatype Caller = OnEnable | Manual

  /** How `bindRender` ends: normally, or with the TypeError of line 88. */
  datatype Outcome = Completed | ThrewTypeError

  class ObserverClass {
    /** The registry whose records the instance maps share. */
    const registry: Registry
    var autorunList: map<Key, Config>
    var keepAutorunList: map<Key, Config>
    var reactionList: map<Key, Config>
    var keepReactionList: map<Key, Config>
    /** The constructor created the auto-run maps: some prototype declares an auto-run. */
    var autorunMapsCreated: bool
    var disposerAtDisable: map<Key, Disposer>
    var disposerAtDestroy: map<Key, Disposer>
    var caller: Option<Caller>
    /** Disposers the reactive library has handed out to this instance: `0 .. issued - 1`. */
    var issued: nat
    /** Every disposer invocation and host hook call, in order. */
    ghost var trace: seq<Event>

    /**
     * Every map entry is stored under its own key; the auto-run maps are
     * empty when they were never created; every non-keep auto-run record is
     * a record of the registry; every record of a keep map is keep (the only
     * write to `opts.keep` sets it); and the ledgers keep the books: nothing
     * leaks and nothing is disposed twice.
     */
    ghost predicate Valid()
      reads this`autorunList, this`keepAutorunList, this`reactionList, this`keepReactionList, this`autorunMapsCreated
      reads this`disposerAtDisable, this`disposerAtDestroy, this`issued, this`trace, registry`opts
    {
      && WellDeclared(autorunList, keepAutorunList, reactionList, keepReactionList, autorunMapsCreated, registry.opts)
      && Accounted(disposerAtDisable, disposerAtDestroy, issued, trace)
    }

    /** The keys a re-bind visits, routed to the ledger of retention `keep`. */
    ghost function Pending(keep: bool): set<Key>
      reads this`autorunList, this`reactionList, registry`opts
    {
      Routed(autorunList, registry.opts, keep) + Routed(reactionList, registry.opts, keep)
    }

    /** The keys a first bind visits, routed to the ledger of retention `keep`. */
    ghost function Declared(keep: bool): set<Key>
      reads this`autorunList, this`keepAutorunList, this`reactionList, this`keepReactionList, registry`opts
    {
      (Routed(autorunList, registry.opts, keep) + Routed(keepAutorunList, registry.opts, keep))
        + (Routed(reactionList, registry.opts, keep) + Routed(keepReactionList, registry.opts, keep))
    }

    /**
     * What a first bind (`all`) or a re-bind did to the ledgers, which were
     * `(atDisable, atDestroy)` with `lo` disposers handed out: `FirstBound`
     * over the four maps, or `Rebound` over the two non-keep maps.
     */
    ghost predicate BoundFrom(all: bool, atDisable: map<Key, Disposer>, atDestroy: map<Key, Disposer>, lo: nat, cuts: seq<nat>)
      reads this`autorunList, this`keepAutorunList, this`reactionList, this`keepReactionList
      reads this`disposerAtDisable, this`disposerAtDestroy, this`issued, registry`opts
    {
      if all then
        && |cuts| == 3
        && FirstBound(autorunList, keepAutorunList, reactionList, keepReactionList, registry.opts,
             atDisable, atDestroy, lo, disposerAtDisable, disposerAtDestroy, issued, cuts[0], cuts[1], cuts[2])
      else
        && |cuts| == 1
        && Rebound(autorunList, reactionList, registry.opts, atDisable, atDestroy, lo,
             disposerAtDisable, disposerAtDestroy, issued, cuts[0])
    }

    /**
     * After a first bind every key of the two keep maps holds a disposer in
     * the destroy ledger, which a disable does not drain.
     */
    lemma KeepBound(atDisable: map<Key, Disposer>, atDestroy: map<Key, Disposer>, lo: nat, cuts: seq<nat>)
      requires Valid() && BoundFrom(true, atDisable, atDestroy, lo, cuts)
      ensures keepAutorunList.Keys + keepReactionList.Keys <= disposerAtDestroy.Keys
    {
      AllKeepRouted(keepAutorunList, registry.opts);
      AllKeepRouted(keepReactionList, registry.opts);
    }

    /** The constructor: walk the prototype chain and sort every declaration. */
    constructor (registry: Registry, chain: seq<ProtoId>)
      requires registry.Valid()
      ensures Valid()
      ensures this.registry == registry
      ensures autorunList == Sorted(Walk(registry.autoRun, chain), registry.opts, false)
      ensures keepAutorunList == Sorted(Walk(registry.autoRun, chain), registry.opts, true)
      ensures reactionList == Sorted(Walk(registry.reaction, chain), registry.opts, false)
      ensures keepReactionList == Sorted(Walk(registry.reaction, chain), registry.opts, true)
      ensures autorunMapsCreated <==> |Walk(registry.autoRun, chain)| > 0
      ensures disposerAtDisable == map[] && disposerAtDestroy == map[]
      ensures caller == None && issued == 0 && trace == []
    {
      this.registry := registry;
      var ar, kar, rl, krl, created := Collect(registry.autoRun, registry.reaction, registry.opts, chain);
      autorunList, keepAutorunList := ar, kar;
      reactionList, keepReactionList := rl, krl;
      autorunMapsCreated := created;
      disposerAtDisable, disposerAtDestroy := map[], map[];
      caller := None;
      issued := 0;
      trace := [];
      new;
      forall id | id in Records(ar)
        ensures id in registry.opts
      {
        var k :| k in ar && ar[k].id == id;
        WalkedFromChain(registry.autoRun, chain, registry.opts, false, k);
      }
      if !created {
        assert Walk(registry.autoRun, chain) == [];
      }
    }

    /**
     * `bindRender(caller = this.onEnable)` (lines 80-102). When a bind has
     * already happened (`caller` set), only the two non-keep lists are bound
     * again. Otherwise, when the caller is not `onEnable`, every non-keep
     * auto-run is first promoted to keep (which throws when the instance has
     * no auto-run maps), then all four lists are bound and `caller` is set.
     */
    method BindRender(arg: Caller) returns (outcome: Outcome, ghost cuts: seq<nat>)
      requires Valid()
      modifies this`disposerAtDisable, this`disposerAtDestroy, this`issued, this`caller
      modifies this`autorunList, this`keepAutorunList, registry`opts
      ensures Valid()
      ensures outcome == ThrewTypeError <==> old(caller) == None && arg == Manual && !autorunMapsCreated
      ensures outcome == ThrewTypeError ==>
        && caller == old(caller) && issued == old(issued)
        && disposerAtDisable == old(disposerAtDisable) && disposerAtDestroy == old(disposerAtDestroy)
        && autorunList == old(autorunList) && keepAutorunList == old(keepAutorunList)
        && registry.opts == old(registry.opts)
      ensures old(caller).Some? ==>
        && caller == old(caller)
        && autorunList == old(autorunList) && keepAutorunList == old(keepAutorunList)
        && registry.opts == old(registry.opts)
        && BoundFrom(false, old(disposerAtDisable), old(disposerAtDestroy), old(issued), cuts)
      ensures old(caller) == None && outcome == Completed ==>
        && caller == Some(arg)
        && (arg == OnEnable ==>
              autorunList == old(autorunList) && keepAutorunList == old(keepAutorunList)
              && registry.opts == old(registry.opts))
        && (arg == Manual ==>
              Promotion(old(autorunList), old(keepAutorunList), old(registry.opts), autorunList, keepAutorunList, registry.opts))
        && BoundFrom(true, old(disposerAtDisable), old(disposerAtDestroy), old(issued), cuts)
    {
      if caller.Some? {
        cuts := Rebind();
        outcome := Completed;
      } else {
        outcome, cuts := InitialBind(arg);
      }
    }

    /**
     * The first bind (lines 86-100): when the caller is not `onEnable`, every
     * non-keep auto-run is promoted to keep, which throws when the instance
     * has no auto-run maps; then all four maps are bound and the caller is
     * recorded.
     */
    method InitialBind(arg: Caller) returns (outcome: Outcome, ghost cuts: seq<nat>)
      requires Valid() && caller == None
      modifies this`disposerAtDisable, this`disposerAtDestroy, this`issued, this`caller
      modifies this`autorunList, this`keepAutorunList, registry`opts
      ensures Valid()
      ensures outcome == ThrewTypeError <==> arg == Manual && !autorunMapsCreated
      ensures outcome == ThrewTypeError ==>
        && caller == None && issued == old(issued)
        && disposerAtDisable == old(disposerAtDisable) && disposerAtDestroy == old(disposerAtDestroy)
        && autorunList == old(autorunList) && keepAutorunList == old(keepAutorunList)
        && registry.opts == old(registry.opts)
      ensures outcome == Completed ==>
        && caller == Some(arg)
        && (arg == OnEnable ==>
              autorunList == old(autorunList) && keepAutorunList == old(keepAutorunList)
              && registry.opts == old(registry.opts))
        && (arg == Manual ==>
              Promotion(old(autorunList), old(keepAutorunList), old(registry.opts), autorunList, keepAutorunList, registry.opts))
        && BoundFrom(true, old(disposerAtDisable), old(disposerAtDestroy), old(issued), cuts)
    {
      if arg != OnEnable {
        if !autorunMapsCreated {
          return ThrewTypeError, [];
        }
        Promote();
      }
      cuts := BindDeclared(arg);
      outcome := Completed;
    }

    /**
     * Lines 88-93: every non-keep auto-run record gets `opts.keep = true` in
     * the shared record and moves to the keep auto-run map; the non-keep map
     * is cleared.
     */
    method Promote()
      requires Valid()
      modifies this`autorunList, this`keepAutorunList, registry`opts
      ensures Valid()
      ensures Promotion(old(autorunList), old(keepAutorunList), old(registry.opts), autorunList, keepAutorunList, registry.opts)
    {
      var keep', opts' := PromoteAll(autorunList, keepAutorunList, registry.opts);
      keepAutorunList := keep';
      autorunList := map[];
      registry.opts := opts';
    }

    /**
     * The binds of a first bind (lines 96-99): all four maps, auto-runs
     * first, non-keep first; then the caller is recorded (line 100).
     */
    method BindDeclared(arg: Caller) returns (ghost cuts: seq<nat>)
      requires Accounted(disposerAtDisable, disposerAtDestroy, issued, trace)
      requires KeysMatch(autorunList) && KeysMatch(keepAutorunList) && KeysMatch(reactionList) && KeysMatch(keepReactionList)
      modifies this`disposerAtDisable, this`disposerAtDestroy, this`issued, this`caller
      ensures Accounted(disposerAtDisable, disposerAtDestroy, issued, trace)
      ensures BoundFrom(true, old(disposerAtDisable), old(disposerAtDestroy), old(issued), cuts)
      ensures caller == Some(arg)
    {
      var disable', destroy', issued';
      ghost var c1, c2, c3;
      disable', destroy', issued', c1, c2, c3 :=
        FirstBind(autorunList, keepAutorunList, reactionList, keepReactionList, registry.opts,
          disposerAtDisable, disposerAtDestroy, issued, trace);
      disposerAtDisable, disposerAtDestroy, issued, caller := disable', destroy', issued', Some(arg);
      cuts := [c1, c2, c3];
    }

    /** The binds of a re-bind (lines 83-84): the non-keep auto-run map, then the non-keep reaction map. */
    method Rebind() returns (ghost cuts: seq<nat>)
      requires Valid()
      modifies this`disposerAtDisable, this`disposerAtDestroy, this`issued
      ensures Valid()
      ensures BoundFrom(false, old(disposerAtDisable), old(disposerAtDestroy), old(issued), cuts)
    {
      var disable', destroy', issued';
      ghost var mid;
      disable', destroy', issued', mid :=
        BindPair(autorunList, reactionList, registry.opts, disposerAtDisable, disposerAtDestroy, issued, trace);
      disposerAtDisable, disposerAtDestroy, issued := disable', destroy', issued';
      cuts := [mid];
    }

    /**
     * `_disposeAtDisable` (lines 162-167): invoke every disposer of the
     * disable ledger, then clear it. The destroy ledger is untouched.
     */
    method DisposeAtDisable() returns (ghost s: seq<Event>)
      requires Valid()
      modifies this`disposerAtDisable, this`trace
      ensures Valid()
      ensures disposerAtDisable == map[]
      ensures trace == old(trace) + s && OnceEach(s, old(disposerAtDisable).Values)
    {
      s := InvokeAll(disposerAtDisable);
      DrainDisable(disposerAtDisable, disposerAtDestroy, issued, trace, s);
      trace := trace + s;
      disposerAtDisable := map[];
    }

    /**
     * `_disposeAll` (lines 169-176): drain the disable ledger, then invoke
     * every disposer of the destroy ledger and clear it, and forget the
     * caller. Afterwards every disposer ever handed out has been invoked
     * exactly once.
     */
    method DisposeAll() returns (ghost s: seq<Event>)
      requires Valid()
      modifies this`disposerAtDisable, this`disposerAtDestroy, this`trace, this`caller
      ensures Valid()
      ensures disposerAtDisable == map[] && disposerAtDestroy == map[] && caller == None
      ensures trace == old(trace) + s && OnceEach(s, old(Live(disposerAtDisable, disposerAtDestroy)))
      ensures forall d: Disposer :: Count(trace, d) == if d < issued then 1 else 0
    {
      var s1 := DisposeAtDisable();
      var s2 := InvokeAll(disposerAtDestroy);
      DrainDestroy(disposerAtDisable, disposerAtDestroy, issued, trace, s2);
      OnceEachConcat(s1, s2, old(disposerAtDisable).Values, disposerAtDestroy.Values);
      trace := trace + s2;
      disposerAtDestroy := map[];
      caller := None;
      s := s1 + s2;
    }

    /** `onEnable` (lines 72-75): the host's `onEnable`, then `bindRender()`. */
    method HandleEnable() returns (outcome: Outcome, ghost cuts: seq<nat>)
      requires Valid()
      modifies this`disposerAtDisable, this`disposerAtDestroy, this`issued, this`caller, this`trace
      modifies this`autorunList, this`keepAutorunList, registry`opts
      ensures Valid()
      ensures outcome == Completed
      ensures autorunList == old(autorunList) && keepAutorunList == old(keepAutorunList)
      ensures registry.opts == old(registry.opts)
      ensures trace == old(trace) + [Super(Enable)]
      ensures old(caller).Some? ==>
        && caller == old(caller)
        && BoundFrom(false, old(disposerAtDisable), old(disposerAtDestroy), old(issued), cuts)
      ensures old(caller) == None ==>
        && caller == Some(OnEnable)
        && BoundFrom(true, old(disposerAtDisable), old(disposerAtDestroy), old(issued), cuts)
      ensures old(issued) <= issued
    {
      HookKeepsBooks(disposerAtDisable, disposerAtDestroy, issued, trace, Enable);
      trace := trace + [Super(Enable)];
      outcome, cuts := BindRender(OnEnable);
    }

    /**
     * `onDisable` (lines 135-138): drain the disable ledger, then the host's
     * `onDisable`. The destroy ledger and the caller are untouched.
     */
    method HandleDisable() returns (ghost s: seq<Event>)
      requires Valid()
      modifies this`disposerAtDisable, this`trace
      ensures Valid()
      ensures disposerAtDisable == map[]
      ensures trace == old(trace) + s + [Super(Disable)] && OnceEach(s, old(disposerAtDisable).Values)
    {
      s := DisposeAtDisable();
      HookKeepsBooks(disposerAtDisable, disposerAtDestroy, issued, trace, Disable);
      trace := trace + [Super(Disable)];
    }

    /** `onDestroy` (lines 143-146): `_disposeAll`, then the host's `onDestroy`. */
    method HandleDestroy() returns (ghost s: seq<Event>)
      requires Valid()
      modifies this`disposerAtDisable, this`disposerAtDestroy, this`trace, this`caller
      ensures Valid()
      ensures disposerAtDisable == map[] && disposerAtDestroy == map[] && caller == None
      ensures trace == old(trace) + s + [Super(Destroy)]
      ensures OnceEach(s, old(Live(disposerAtDisable, disposerAtDestroy)))
    {
      s := DisposeAll();
      HookKeepsBooks(disposerAtDisable, disposerAtDestroy, issued, trace, Destroy);
      trace := trace + [Super(Destroy)];
    }

    /**
     * `_destruct` (lines 151-160): `_disposeAll` once more, for a node whose
     * `onDestroy` never ran, then the host's `_destruct`.
     */
    method Destruct() returns (ghost s: seq<Event>)
      requires Valid()
      modifies this`disposerAtDisable, this`disposerAtDestroy, this`trace, this`caller
      ensures Valid()
      ensures disposerAtDisable == map[] && disposerAtDestroy == map[] && caller == None
      ensures trace == old(trace) + s + [Super(Hook.Destruct)]
      ensures OnceEach(s, old(Live(disposerAtDisable, disposerAtDestroy)))
    {
      s := DisposeAll();
      HookKeepsBooks(disposerAtDisable, disposerAtDestroy, issued, trace, Hook.Destruct);
      trace := trace + [Super(Hook.Destruct)];
    }
  }
}
