# Lifecycle binder of the `@observer` decorator, in Dafny

This project models the core of `assets/mobx/observer.ts`. That module ties
reactive methods declared on a Cocos component class to the component's
enable, disable and destroy lifecycle. It proves what the module promises:

- declarations are registered in order;
- every instance sorts the declarations of its prototype chain;
- binding is idempotent per key and routes each disposer by `opts.keep`;
- a manual first bind promotes auto-runs to keep;
- disable and teardown invoke every disposer exactly once and leak nothing.

The model has six modules:

- `Declarations` (`declarations.dfy`): the two process-wide registries
  (`observerProtoMapForAutoRun`, `observerProtoMapForReaction`) as a
  `Registry` class. It holds two maps from prototype to a list of records.
  - A record `{key, opts}` is one object, shared by the registry and by every
    instance built from it. It is modelled as a `Config(id, key)` value, and
    its mutable `opts` field lives in the registry's `opts` table under the
    record's identity. A write by one instance (the promotion of
    `bindRender`) is therefore seen by the registry and by every other
    instance.
  - This module also holds the `render` / `reactor` decorators and their
    argument-count dispatch.
- `Binding` (`binding.dfy`): the map the constructor builds. `Sorted` is the
  result of `Map.set`-ing every record of a walk in order. `Walk` is the
  records met from the most-derived prototype upward.
- `Ledger` (`ledger.dfy`): the disposer ledgers' bookkeeping.
  - Disposers are numbers handed out in order.
  - A ghost trace records every disposer invocation and every call to the
    host's own hook.
  - `Accounted` is the no-leak / exactly-once invariant: every disposer
    handed out is either held in one ledger slot and never invoked, or no
    longer held and invoked exactly once.
- `Bind` (`bind.dfy`): the steps of the binder that only compute. It has
  the constructor's chain walk, `_bindAutorun` / `_bindReaction` with
  `_getDisposerMap`, the promotion of a manual first bind and the drain of a
  ledger. Each `forEach` loop is a method over the map values, proved
  against its specification. The bind order is read off the disposer
  numbers: a ledger entry bound earlier holds a smaller disposer.
- `Observer` (`observer.dfy`): `ObserverClass` with the six maps and
  `caller` as fields. It has the constructor, `bindRender`, the two drains
  and the four lifecycle hooks. The class methods call the `Bind` methods
  and assign their results to the fields.
- `Lifecycle` (`lifecycle.dfy`): host-driven sequences and what they
  guarantee together.

Behaviour of the code that the model keeps:

- **The furthest declaration wins.** The constructor walks from the
  most-derived prototype upward and `Map.set` overwrites. So when a subclass
  and an ancestor declare the same key with the same retention, the map
  holds the ancestor's record (`SortedIsLastDeclaration`).
- **A key can be in both maps.** A key declared keep on one class and
  non-keep on another is in both the keep and the non-keep map of its kind
  (`ChainKeysSorted`). An `onEnable` first bind then binds it in both
  ledgers. A manual first bind `set`s the non-keep record over the keep one
  (line 91) and clears the non-keep map (line 93), so the key is then bound
  only in the destroy ledger.
- **A rebind can touch the destroy ledger.** Records are shared, so a manual
  first bind on one instance promotes records that another instance's
  non-keep map still holds. That instance's later binds route those records
  to its destroy ledger (`SharedPromotion`). So a rebind (`Pending(true)`)
  can add to the destroy ledger.
- **A keep record stays keep.** The only write to `opts.keep` is
  `opts.keep = true` (line 90). So every record of an instance's keep maps is
  keep, even after other instances promote shared records (`Valid`,
  `ManualBindBeside`). Every keep auto-run and keep reaction is bound in the
  destroy ledger by the first bind and survives disable
  (`KeepSurvivesDisable`, `ManualBindThenDisable`).
- **Binds happen in a fixed order.** A first bind binds the non-keep
  auto-runs, then the keep auto-runs, then the non-keep reactions, then the
  keep reactions (lines 96-99); a rebind binds the auto-runs before the
  reactions (lines 83-84). Disposers are handed out in increasing order, so
  the order shows in the ledgers: ghost cuts split the new disposers into
  these phases (`FirstBind`, `BindPair`, `BindRender`).
- **A manual first bind can throw.** It throws a TypeError when no prototype
  declares an auto-run, because the auto-run maps were never created
  (`ThrewTypeError`). The state is then unchanged.

## Model

| member | source | states |
|---|---|---|
| Declarations.Registry.constructor | assets/mobx/observer.ts:16-17 | both registries start empty |
| Declarations.Registry.NewRecord | assets/mobx/observer.ts:235 | `{key, opts}` is a new record object: its identity is not in use, and its `opts` are the given ones |
| Declarations.Registry.PushToRenderList | assets/mobx/observer.ts:226-236 | appends exactly one new record with that key and opts to the end of the target's auto-run list, creating the list first if absent; other lists and the reaction table are unchanged |
| Declarations.Registry.PushToReactionList | assets/mobx/observer.ts:276-286 | the same for the reaction table |
| Declarations.Registry.Render | assets/mobx/observer.ts:218-254 | with three arguments it registers at once with no opts and returns nothing; otherwise it registers nothing and returns the decorator carrying the given opts |
| Declarations.Registry.Reactor | assets/mobx/observer.ts:268-304 | with three arguments it registers at once with no opts; otherwise it registers nothing and returns a decorator |
| Declarations.Registry.Apply | assets/mobx/observer.ts:246-304 | the `render(opts)` decorator registers the captured opts; the `reactor(expr)` decorator registers a reaction with no opts |
| Binding.SortedStep | assets/mobx/observer.ts:45-51 | one more `set` puts the record under its key in the map of its retention, and leaves the other map alone |
| Binding.SortedKeys | assets/mobx/observer.ts:45-50 | a key is in the map of retention `keep` iff some record of the walk declares it with that retention |
| Binding.SortedKeepsLast | assets/mobx/observer.ts:45-50 | the record a map holds for a key is a record declaring that key with that retention, and no later record of the walk does |
| Binding.SortedIsLastDeclaration | assets/mobx/observer.ts:39-66 | a key is in the map of retention `keep` iff some walked record declares it with that retention; the record kept is the last such record walked |
| Binding.SortedAppend | assets/mobx/observer.ts:39-66 | sorting a walk in two parts is sorting each part, the later part overriding |
| Binding.DeclsOfChain | assets/mobx/observer.ts:39-66 | the walk meets a record iff some prototype of the chain lists it |
| Binding.ChainKeysSorted | assets/mobx/observer.ts:39-66 | after construction a key is in the keep (non-keep) map of its kind iff some prototype of the chain declares it with `opts.keep` set (unset) |
| Binding.SortedFrom | assets/mobx/observer.ts:45-50 | every record a map holds is a record of the walk |
| Binding.WalkedFromChain | assets/mobx/observer.ts:39-66 | every record a constructed map holds was declared on a prototype of the chain |
| Binding.UnconfiguredNeverKept | assets/mobx/observer.ts:288-304 | records registered without opts (every reaction) never reach a keep map |
| Ledger.CountAppend | assets/mobx/observer.ts:164-172 | invocations of a disposer in consecutive runs add up |
| Ledger.OnceEachSnoc | assets/mobx/observer.ts:164 | invoking one more not-yet-invoked disposer extends an exactly-once drain |
| Ledger.OnceEachConcat | assets/mobx/observer.ts:169-174 | draining two ledgers with no disposer in common invokes each disposer of both exactly once |
| Ledger.OnceEachEmpty | assets/mobx/observer.ts:169-175 | draining empty ledgers invokes nothing |
| Ledger.IssueAtDisable | assets/mobx/observer.ts:178-186 | storing a fresh disposer in the disable ledger under a free key keeps the no-leak / exactly-once invariant |
| Ledger.IssueAtDestroy | assets/mobx/observer.ts:178-186 | the same for the destroy ledger |
| Ledger.DrainDisable | assets/mobx/observer.ts:162-167 | invoking each disposer of the disable ledger once and clearing it keeps the invariant |
| Ledger.DrainDestroy | assets/mobx/observer.ts:171-174 | the same for the destroy ledger |
| Ledger.HookKeepsBooks | assets/mobx/observer.ts:135-160 | calling a host hook invokes no disposer |
| Ledger.GrownIssue | assets/mobx/observer.ts:107-110 | binding an absent key adds the next disposer under it and nothing else |
| Ledger.GrownPresent | assets/mobx/observer.ts:107-110 | binding a present key changes nothing |
| Ledger.InjectiveIssue | assets/mobx/observer.ts:107-110 | storing a disposer held nowhere in the ledger under a free key leaves no disposer in two slots |
| Ledger.ValuesIssue | assets/mobx/observer.ts:107-110 | storing a disposer under a free key adds exactly that disposer to the ledger's values |
| Ledger.CutAtPhase | assets/mobx/observer.ts:96-99 | of two binds in a row, a key got a disposer below the cut between them iff the first bind added it |
| Ledger.CutInFirst | assets/mobx/observer.ts:96-99 | an order inside the first of two binds in a row still holds after the second |
| Ledger.CutInSecond | assets/mobx/observer.ts:96-99 | an order inside the second of two binds in a row holds after both, behind every key the first one added |
| Ledger.GrownTrans | assets/mobx/observer.ts:95-99 | consecutive binds compose |
| Ledger.FreshHeld | assets/mobx/observer.ts:104-130 | every disposer handed out by a bind is held in a ledger: none is created and dropped |
| Ledger.GrownIdle | assets/mobx/observer.ts:107-110 | binding only keys the ledger already holds leaves it unchanged (idempotence) |
| Ledger.IdleIssuesNothing | assets/mobx/observer.ts:107-110 | a bind that leaves both ledgers unchanged hands out no disposer |
| Bind.SortList | assets/mobx/observer.ts:45-51 | one prototype's `forEach` takes the two maps of a kind from sorting the records walked so far to sorting them followed by that prototype's list |
| Bind.SortProto | assets/mobx/observer.ts:41-53 | one prototype's visit: the maps of a kind go from sorting the declarations of the prototypes before it to sorting those of the prototypes up to and including it, and the maps are created (`declared`) iff the prototype lists at least one declaration |
| Bind.Collect | assets/mobx/observer.ts:39-66 | the do-while walk of the constructor returns, for each kind and retention, exactly the map `Sorted(Walk(...))`, and creates the auto-run maps iff some prototype declares an auto-run |
| Bind.BindConfig | assets/mobx/observer.ts:117-127 | a record whose `opts.keep` is set goes to the destroy ledger, otherwise to the disable ledger; a key that ledger holds keeps its disposer and nothing is handed out; an absent key gets the next disposer; the other ledger is untouched; the invariant is kept |
| Bind.BindStep | assets/mobx/observer.ts:104-130 | binding one more record extends the set of bound keys by that key, in the ledger of its retention |
| Bind.BindAll | assets/mobx/observer.ts:104-130 | after the loop each ledger is the old one plus exactly the list's keys routed to it; keys already bound keep their disposers; new ones got fresh disposers; every disposer handed out is held; the invariant is kept |
| Bind.BindPair | assets/mobx/observer.ts:83-84 | binding `first` then `second` binds exactly the keys of both, each into the ledger of its current retention, keys already held keep their disposers, every disposer handed out is held, and in each ledger every key of `first` got a smaller disposer (was bound earlier) than every other key bound then |
| Bind.FirstBind | assets/mobx/observer.ts:96-99 | a first bind binds exactly the keys of all four maps, each into the ledger of its retention, keeps the invariant, and binds in the order non-keep auto-runs, keep auto-runs, non-keep reactions, keep reactions: the ghost cuts `c1 <= c2 <= c3` split the new disposers of both ledgers into those four phases |
| Bind.OrderFirstBind | assets/mobx/observer.ts:96-99 | two pairs bound in order one after the other give the four phases of a first bind in one ledger |
| Bind.PromoteAll | assets/mobx/observer.ts:88-93 | the keep map becomes the old keep map overridden by the non-keep map; every promoted record's `opts` becomes keep; every other record is unchanged; every promoted record is keep, and a keep map whose records were all keep still is |
| Bind.PromotionDone | assets/mobx/observer.ts:88-92 | once the `forEach` has visited every key, the keep map is the old one overridden by the non-keep map and the promoted records are exactly the non-keep map's records |
| Bind.PromotedAreKeep | assets/mobx/observer.ts:89-90 | after `opts.keep = true` is written into every record of a map, each of them is keep |
| Bind.PromotionKeepsKeep | assets/mobx/observer.ts:89-90 | promotion only writes `keep = true`, so a map whose records were all keep still has only keep records |
| Bind.InvokeAll | assets/mobx/observer.ts:164 | the drain invokes every disposer of the ledger exactly once and nothing else |
| Observer.ObserverClass.constructor | assets/mobx/observer.ts:35-67 | the four maps are the sorted walk of the chain; the ledgers are empty; no caller; nothing handed out; the invariant holds |
| Observer.ObserverClass.BindRender | assets/mobx/observer.ts:80-102 | throws exactly on a manual first bind without auto-run maps, changing nothing. A rebind binds the non-keep maps, auto-runs before reactions, and keeps `caller`. A first bind promotes (when manual), binds all four maps in the order auto-runs before reactions and non-keep before keep, and records the caller. In every case new disposers are all held and the invariant is kept |
| Observer.ObserverClass.Rebind | assets/mobx/observer.ts:82-84 | the secondary bind binds exactly the non-keep auto-run and reaction keys, each into the ledger of its current retention, auto-runs first, and keeps the invariant |
| Observer.ObserverClass.InitialBind | assets/mobx/observer.ts:86-100 | the first bind throws exactly when manual and the auto-run maps were never created, changing nothing; otherwise it promotes when manual, binds all four maps in order and records the caller |
| Observer.ObserverClass.BindDeclared | assets/mobx/observer.ts:96-100 | binds all four maps in the first-bind order and records the caller |
| Observer.ObserverClass.KeepBound | assets/mobx/observer.ts:96-99 | after a first bind every key of the two keep maps holds a disposer in the destroy ledger |
| Bind.PromoteStep | assets/mobx/observer.ts:88-92 | visiting one more non-keep auto-run moves its entry into the keep map and makes its record keep, preserving the promotion's invariant |
| Observer.ObserverClass.Promote | assets/mobx/observer.ts:87-93 | the non-keep auto-run map is emptied into the keep map, exactly the promoted shared records become keep, and the invariant is kept |
| Observer.ObserverClass.DisposeAtDisable | assets/mobx/observer.ts:162-167 | invokes each disposer of the disable ledger exactly once and empties it; the destroy ledger is untouched |
| Observer.ObserverClass.DisposeAll | assets/mobx/observer.ts:169-176 | invokes each held disposer exactly once and empties both ledgers, and resets `caller`; afterwards every disposer ever handed out has been invoked exactly once |
| Observer.ObserverClass.HandleEnable | assets/mobx/observer.ts:72-75 | records the host hook and runs `bindRender()`, which never throws here: a first bind of all four maps in order with caller `onEnable`, or a rebind; the maps and records are unchanged |
| Observer.ObserverClass.HandleDisable | assets/mobx/observer.ts:135-138 | the disable ledger is drained before the host hook; the destroy ledger and caller are untouched |
| Observer.ObserverClass.HandleDestroy | assets/mobx/observer.ts:143-146 | full teardown before the host hook |
| Observer.ObserverClass.Destruct | assets/mobx/observer.ts:151-160 | full teardown again before the host's `_destruct` |
| Lifecycle.EnableTwice | assets/mobx/observer.ts:72-84 | two enables bind exactly what one does; the second hands out nothing |
| Lifecycle.ManualBindThenDisable | assets/mobx/observer.ts:86-138 | after a manual first bind every auto-run (promoted or declared keep) and every keep reaction is bound in the destroy ledger, so a later disable leaves it live |
| Lifecycle.KeepSurvivesDisable | assets/mobx/observer.ts:72-138 | enabling then disabling an instance never bound before leaves every keep auto-run and keep reaction bound in the destroy ledger and drains the disable ledger |
| Lifecycle.TearDown | assets/mobx/observer.ts:143-176 | `onDestroy` then `_destruct` invokes every disposer ever handed out exactly once; the second teardown invokes nothing |
| Lifecycle.ManualBindBeside | assets/mobx/observer.ts:86-93 | a manual first bind on one instance keeps every other instance over the same registry valid (its keep maps still hold only keep records), and every record it promoted is keep for all instances |
| Lifecycle.SharedPromotion | assets/mobx/observer.ts:88-91 | a manual bind on one instance makes another instance holding the same record bind it in its destroy ledger |
| Lifecycle.DisableEnableCycle | assets/mobx/observer.ts:135-138 | disable invokes the disable ledger's disposers once; re-enable gives each non-keep key a fresh disposer; the destroy ledger keeps every disposer |

## Left out

- The reactive library (`autorun`, `reaction`, `runInAction`, `configure`) is not modelled. Re-running on observable change is the library's behaviour. `autorun(...)` and calling a reaction method are modelled only as handing out the next disposer. Invoking a disposer is a trace event.
- The Cocos host (`Component`, `sys`, `window.mobx`) and its `super` hooks are recorded only as `Super(hook)` events. The `runInAction` wrapping of the host's `_destruct` is not modelled.
- `Object.getPrototypeOf` is not modelled: the prototype chain is an input sequence, most-derived first.
- The method replacement that `reactor(expr)` performs and the `react` helper are not modelled. Both only pass arguments through to `reaction`.
- The diagnostic `name` strings and the spreading of the options into the library call are not modelled.
- Options other than `keep` are not modelled: `Opts` carries only `keep`.
- Bind.PromoteAll: writes `Some(Opts(true))`. So it does not model that `opts.keep = true` keeps the record's other library options.
- Option objects shared between records are not modelled. One `render(opts)` decorator applied to several methods would share one `opts` object, so promoting one record would also mark the others.
- WeakMap garbage collection is not modelled.
- JavaScript `Map` iteration order is not modelled: each `forEach` visits the keys in an unspecified order, and no contract depends on it.
- `bindRender` called with an explicit `null` is not modelled: `Caller` is either `onEnable` or some other function. (An explicit `undefined` takes the default `this.onEnable` and is `BindRender(OnEnable)`.) With `null`, the source promotes and binds all four maps like any manual first bind, then stores `caller = null` (line 100). `caller` stays falsy, so every later `bindRender` is again a first bind.
- The host hooks are recorded as called even when the host class does not define them: `Super(hook)` is always appended, whereas the source calls `super.onEnable?.()`, `super.onDisable?.()`, `super.onDestroy` and `super._destruct` only when defined (lines 73, 137, 145, 158).
- Declarations.Registry.Render: requires the three-argument form to be a well-typed decorator call, and the other forms to pass options (or nothing) first, as the TypeScript types demand. Untyped JavaScript calls are not modelled.
- Declarations.Registry.Reactor: requires the three-argument form to be a well-typed decorator call, as the TypeScript types demand. Untyped JavaScript calls are not modelled.
- Observer.ObserverClass.HandleEnable: binding adds no event to the trace, so the contract does not state that the host's `onEnable` runs before `bindRender()` (lines 73-74).
- Binding.UnconfiguredNeverKept: states that reactions are never keep for a list of records without options. The registry carries no invariant that reaction records keep no options. (Promotion writes only auto-run records.)
- `assets/UpdateLabel.ts` (a demo component of timers and label text) is not part of this model.
