/**
 * Lifecycle sequences of one or two `ObserverClass` instances, as the host
 * drives them, and what they guarantee together.
 */
module Lifecycle {
  import opened Declarations
  import opened Ledger
  import opened Bind
  import opened Observer

  /**
   * Enabling twice binds exactly what enabling once does: the second
   * `onEnable` finds every key it visits already bound and hands out nothing.
   */
  method EnableTwice(o: ObserverClass)
    requires o.Valid() && o.caller == None
    modifies o, o.registry`opts
    ensures o.Valid() && o.caller == Some(OnEnable)
    ensures o.trace == old(o.trace) + [Super(Enable), Super(Enable)]
    ensures Grown(old(o.disposerAtDisable), o.disposerAtDisable, o.Declared(false), old(o.issued), o.issued)
    ensures Grown(old(o.disposerAtDestroy), o.disposerAtDestroy, o.Declared(true), old(o.issued), o.issued)
    ensures forall d: Disposer :: old(o.issued) <= d < o.issued ==> d in Live(o.disposerAtDisable, o.disposerAtDestroy)
  {
    var _, _ := o.HandleEnable();
    ghost var disable1, destroy1, issued1, trace1 := o.disposerAtDisable, o.disposerAtDestroy, o.issued, o.trace;
    assert o.Pending(false) <= o.Declared(false) && o.Pending(true) <= o.Declared(true);
    var _, _ := o.HandleEnable();
    GrownIdle(disable1, o.disposerAtDisable, o.Pending(false), issued1, o.issued);
    GrownIdle(destroy1, o.disposerAtDestroy, o.Pending(true), issued1, o.issued);
    HookKeepsBooks(disable1, destroy1, issued1, trace1, Enable);
    IdleIssuesNothing(o.disposerAtDisable, o.disposerAtDestroy, issued1, o.issued, o.trace);
  }

  /**
   * A manual bind before the first enable promotes the auto-runs: every
   * auto-run, promoted or declared keep, and every keep reaction is bound in
   * the destroy ledger, so a later disable leaves it live.
   */
  method ManualBindThenDisable(o: ObserverClass) returns (outcome: Outcome)
    requires o.Valid() && o.caller == None && o.autorunMapsCreated
    modifies o, o.registry`opts
    ensures o.Valid() && outcome == Completed && o.caller == Some(Manual)
    ensures o.disposerAtDisable == map[]
    ensures forall k :: k in old(o.autorunList) || k in old(o.keepAutorunList) || k in old(o.keepReactionList) ==>
      k in o.disposerAtDestroy
  {
    ghost var cuts;
    outcome, cuts := o.BindRender(Manual);
    o.KeepBound(old(o.disposerAtDisable), old(o.disposerAtDestroy), old(o.issued), cuts);
    assert o.keepAutorunList.Keys == old(o.keepAutorunList).Keys + old(o.autorunList).Keys;
    var _ := o.HandleDisable();
  }

  /**
   * Enabling and then disabling an instance never bound before leaves every
   * keep auto-run and keep reaction bound in the destroy ledger, while the
   * disable ledger is drained.
   */
  method KeepSurvivesDisable(o: ObserverClass) returns (ghost s: seq<Event>)
    requires o.Valid() && o.caller == None
    modifies o, o.registry`opts
    ensures o.Valid() && o.caller == Some(OnEnable)
    ensures o.disposerAtDisable == map[]
    ensures forall k :: k in o.keepAutorunList || k in o.keepReactionList ==> k in o.disposerAtDestroy
  {
    var outcome, cuts := o.HandleEnable();
    o.KeepBound(old(o.disposerAtDisable), old(o.disposerAtDestroy), old(o.issued), cuts);
    s := o.HandleDisable();
  }

  /**
   * The host's teardown: `onDestroy`, then `_destruct`. Every disposer ever
   * handed out has then been invoked exactly once; the second `_disposeAll`
   * invokes nothing.
   */
  method TearDown(o: ObserverClass) returns (ghost s: seq<Event>)
    requires o.Valid()
    modifies o
    ensures o.Valid() && o.caller == None
    ensures o.disposerAtDisable == map[] && o.disposerAtDestroy == map[]
    ensures o.trace == old(o.trace) + s + [Super(Destroy), Super(Hook.Destruct)]
    ensures OnceEach(s, old(Live(o.disposerAtDisable, o.disposerAtDestroy)))
    ensures forall d: Disposer :: Count(o.trace, d) == if d < o.issued then 1 else 0
  {
    s := o.HandleDestroy();
    assert Live(o.disposerAtDisable, o.disposerAtDestroy) == {};
    var again := o.Destruct();
    OnceEachEmpty(again);
  }

  /**
   * A manual first bind on `a` keeps every other instance `b` over the same
   * registry valid: the only shared write, `opts.keep = true`, turns every
   * record `a` promoted keep for `b` as well and takes no keep away.
   */
  method ManualBindBeside(a: ObserverClass, b: ObserverClass) returns (outcome: Outcome)
    requires a != b && a.registry == b.registry
    requires a.Valid() && b.Valid()
    requires a.caller == None && a.autorunMapsCreated
    modifies a, a.registry`opts
    ensures outcome == Completed && a.Valid() && b.Valid()
    ensures forall k :: k in old(a.autorunList) ==> Keep(b.registry.opts, old(a.autorunList)[k])
  {
    ghost var opts, promoted := a.registry.opts, Records(a.autorunList);
    ghost var cuts;
    outcome, cuts := a.BindRender(Manual);
    PromotionKeepsKeep(b.keepAutorunList, opts, b.registry.opts, promoted);
    PromotionKeepsKeep(b.keepReactionList, opts, b.registry.opts, promoted);
    forall k | k in old(a.autorunList)
      ensures Keep(b.registry.opts, old(a.autorunList)[k])
    {
      assert old(a.autorunList)[k].id in promoted;
    }
  }

  /**
   * Records are shared: a manual bind on one instance writes `keep` into the
   * records it promotes, and another instance built from the same
   * declarations, whose non-keep auto-run map still holds such a record,
   * then binds that auto-run in its destroy ledger on enable.
   */
  method SharedPromotion(a: ObserverClass, b: ObserverClass, k: Key) returns (outcome: Outcome)
    requires a != b && a.registry == b.registry
    requires a.Valid() && b.Valid()
    requires a.caller == None && a.autorunMapsCreated && b.caller == None
    requires k in a.autorunList && k in b.autorunList && a.autorunList[k] == b.autorunList[k]
    modifies a, b, a.registry`opts
    ensures outcome == Completed && a.Valid() && b.Valid()
    ensures k in b.autorunList && k in b.disposerAtDestroy
  {
    outcome := ManualBindBeside(a, b);
    var _, _ := b.HandleEnable();
    assert k in b.Declared(true);
  }

  /**
   * A disable/enable cycle after the first bind: every disposer of the
   * disable ledger is invoked once, then each key the re-bind visits gets a
   * fresh disposer; the destroy ledger keeps every disposer it held.
   */
  method DisableEnableCycle(o: ObserverClass) returns (ghost s: seq<Event>)
    requires o.Valid() && o.caller.Some?
    modifies o, o.registry`opts
    ensures o.Valid() && o.caller == old(o.caller)
    ensures o.trace == old(o.trace) + s + [Super(Disable), Super(Enable)]
    ensures OnceEach(s, old(o.disposerAtDisable).Values)
    ensures o.disposerAtDisable.Keys == o.Pending(false)
    ensures forall k :: k in o.disposerAtDisable ==> old(o.issued) <= o.disposerAtDisable[k] < o.issued
    ensures forall k :: k in old(o.disposerAtDestroy) ==>
      k in o.disposerAtDestroy && o.disposerAtDestroy[k] == old(o.disposerAtDestroy[k])
  {
    s := o.HandleDisable();
    var _, _ := o.HandleEnable();
  }
}
