/**
 * The declaration registry of observer.ts: the two process-wide tables that
 * map a prototype to the list of `{key, opts}` records its decorated methods
 * produced, and the `render` / `reactor` decorators that fill them.
 */
module Declarations {

  /** A method name, as JavaScript keys a property: a string or a symbol. */
  datatype Key = Name(name: string) | Symbol(id: nat)

  /** The identity of a prototype object (the WeakMap key). */
  type ProtoId = nat

  /** The identity of one `{key, opts}` record object. */
  type RecordId = nat

  datatype Option<T> = None | Some(value: T)

  /**
   * The options object a record carries. Only the `keep` flag is read by the
   * binder; the reactive-library options beside it are passed through.
   */
  datatype Opts = Opts(keep: bool)

  /**
   * A reference to one `{key, opts}` record. The key never changes; the
   * record's `opts` field lives in the registry's `opts` table, because the
   * record is one object shared by the registry list and by the maps of every
   * instance built from it: a write to it is seen by all of them.
   */
  datatype Config = Config(id: RecordId, key: Key)

  /** The `opts` field of record `c`. */
  function OptsOf(opts: map<RecordId, Option<Opts>>, c: Config): Option<Opts>
  {
    if c.id in opts then opts[c.id] else None
  }

  /** `opts?.keep` is truthy for record `c`: it survives disable. */
  predicate Keep(opts: map<RecordId, Option<Opts>>, c: Config)
  {
    OptsOf(opts, c).Some? && OptsOf(opts, c).value.keep
  }

  /** The list a table holds for `p`, or the empty list when `p` has none. */
  function ListOf(table: map<ProtoId, seq<Config>>, p: ProtoId): seq<Config>
  {
    if p in table then table[p] else []
  }

  /**
   * `t1` is `t0` with exactly `c` appended to the list of `p`, the list
   * created first when `p` had none; every other list is as it was.
   */
  ghost predicate Appended(t0: map<ProtoId, seq<Config>>, t1: map<ProtoId, seq<Config>>, p: ProtoId, c: Config)
  {
    && t1.Keys == t0.Keys + {p}
    && t1[p] == ListOf(t0, p) + [c]
    && (forall q :: q != p ==> ListOf(t1, q) == ListOf(t0, q))
  }

  /** One argument a decorator receives. */
  datatype Arg =
    | Target(proto: ProtoId)
    | MethodKey(key: Key)
    | Descriptor
    | Options(opts: Option<Opts>)
    | Expression

  /** What the parameterised forms `render(opts)` and `reactor(expr)` return. */
  datatype Decorator = RenderWith(opts: Option<Opts>) | ReactWith

  /** The three arguments TypeScript passes to a method decorator. */
  predicate DecoratorCall(args: seq<Arg>)
  {
    |args| == 3 && args[0].Target? && args[1].MethodKey? && args[2].Descriptor?
  }

  /**
   * The two module-level WeakMaps, for auto-run and for reaction methods,
   * together with the `opts` field of every record they have created.
   */
  class Registry {
    var autoRun: map<ProtoId, seq<Config>>
    var reaction: map<ProtoId, seq<Config>>
    var opts: map<RecordId, Option<Opts>>
    /** Records created so far: `0 .. records - 1`. */
    var records: RecordId

    /** Every record a table lists exists, and exactly the existing records have an `opts` entry. */
    ghost predicate Valid()
      reads this
    {
      && (forall id: RecordId :: id in opts <==> id < records)
      && (forall p, c :: p in autoRun && c in autoRun[p] ==> c.id < records)
      && (forall p, c :: p in reaction && c in reaction[p] ==> c.id < records)
    }

    constructor ()
      ensures Valid()
      ensures autoRun == map[] && reaction == map[] && opts == map[]
    {
      autoRun := map[];
      reaction := map[];
      opts := map[];
      records := 0;
    }

    /** Create the record `{key, opts: o}`: a new object, distinct from every other. */
    method NewRecord(key: Key, o: Option<Opts>) returns (c: Config)
      requires Valid()
      modifies this`opts, this`records
      ensures Valid()
      ensures c.key == key && c.id !in old(opts) && opts == old(opts)[c.id := o]
      ensures c.id == old(records) && records == old(records) + 1
    {
      c := Config(records, key);
      opts := opts[records := o];
      records := records + 1;
      forall id: RecordId
        ensures id in opts <==> id < records
      {
        assert id in opts <==> id in old(opts) || id == c.id;
      }
    }

    /** `_pushToRenderList`: append `{key, opts}` to the auto-run list of `target`. */
    method PushToRenderList(target: ProtoId, key: Key, o: Option<Opts>) returns (ghost c: Config)
      requires Valid()
      modifies this
      ensures Valid()
      ensures c.key == key && c.id !in old(opts) && opts == old(opts)[c.id := o]
      ensures Appended(old(autoRun), autoRun, target, c)
      ensures reaction == old(reaction)
    {
      if target !in autoRun {
        autoRun := autoRun[target := []];
      }
      var list := autoRun[target];
      var r := NewRecord(key, o);
      autoRun := autoRun[target := list + [r]];
      c := r;
    }

    /** `_pushToReactionList`: append `{key, opts}` to the reaction list of `target`. */
    method PushToReactionList(target: ProtoId, key: Key, o: Option<Opts>) returns (ghost c: Config)
      requires Valid()
      modifies this
      ensures Valid()
      ensures c.key == key && c.id !in old(opts) && opts == old(opts)[c.id := o]
      ensures Appended(old(reaction), reaction, target, c)
      ensures autoRun == old(autoRun)
    {
      if target !in reaction {
        reaction := reaction[target := []];
      }
      var list := reaction[target];
      var r := NewRecord(key, o);
      reaction := reaction[target := list + [r]];
      c := r;
    }

    /**
     * `render(...args)`: called with the three decorator arguments it is the
     * bare `@render` and registers at once with no options; otherwise it is
     * `render(opts)` and returns the decorator that will register `opts`.
     */
    method Render(args: seq<Arg>) returns (d: Option<Decorator>, ghost c: Option<Config>)
      requires Valid()
      requires DecoratorCall(args) || (|args| != 3 && (|args| == 0 || args[0].Options?))
      modifies this
      ensures Valid()
      ensures reaction == old(reaction)
      ensures |args| == 3 ==>
        && d == None && c.Some?
        && Appended(old(autoRun), autoRun, args[0].proto, c.value)
        && c.value.key == args[1].key && c.value.id !in old(opts) && opts == old(opts)[c.value.id := None]
      ensures |args| != 3 ==>
        && autoRun == old(autoRun) && opts == old(opts) && c == None
        && d == Some(RenderWith(if |args| == 0 then None else args[0].opts))
    {
      if |args| == 3 {
        var r := PushToRenderList(args[0].proto, args[1].key, None);
        c := Some(r);
        d := None;
      } else {
        d := Some(RenderWith(if |args| == 0 then None else args[0].opts));
        c := None;
      }
    }

    /**
     * `reactor(...args)`: the bare `@reactor` registers at once; `reactor(expr)`
     * returns a decorator. Neither form passes options on.
     */
    method Reactor(args: seq<Arg>) returns (d: Option<Decorator>, ghost c: Option<Config>)
      requires Valid()
      requires |args| == 3 ==> DecoratorCall(args)
      modifies this
      ensures Valid()
      ensures autoRun == old(autoRun)
      ensures |args| == 3 ==>
        && d == None && c.Some?
        && Appended(old(reaction), reaction, args[0].proto, c.value)
        && c.value.key == args[1].key && c.value.id !in old(opts) && opts == old(opts)[c.value.id := None]
      ensures |args| != 3 ==> reaction == old(reaction) && opts == old(opts) && d == Some(ReactWith) && c == None
    {
      if |args| == 3 {
        var r := PushToReactionList(args[0].proto, args[1].key, None);
        c := Some(r);
        d := None;
      } else {
        d := Some(ReactWith);
        c := None;
      }
    }

    /**
     * Applying a decorator returned by `render(opts)` or `reactor(expr)` to
     * the method `key` of `target`: the first registers the captured
     * options, the second registers none.
     */
    method Apply(d: Decorator, target: ProtoId, key: Key) returns (ghost c: Config)
      requires Valid()
      modifies this
      ensures Valid()
      ensures c.key == key && c.id !in old(opts)
      ensures d.RenderWith? ==>
        && Appended(old(autoRun), autoRun, target, c)
        && reaction == old(reaction)
        && opts == old(opts)[c.id := d.opts]
      ensures d.ReactWith? ==>
        && Appended(old(reaction), reaction, target, c)
        && autoRun == old(autoRun)
        && opts == old(opts)[c.id := None]
    {
      match d
      case RenderWith(o) => c := PushToRenderList(target, key, o);
      case ReactWith => c := PushToReactionList(target, key, None);
    }
  }
}
