/** The accessor object `makeAccessor` returns, with the live state it
    holds, and the snapshot functions `dumpState` and `loadState`. */
module Accessors {
  import opened JsValues
  import opened Proxies
  import opened Assembly
  import opened Semantics

  /** Why assigning to a property of the table fails: state fields and
      getters have a getter and no setter; mutations and actions are
      non-writable data properties. */
  function WriteRejection(e: Entry, name: string): Error
  {
    match e
    case StateEntry => NoSetter(name)
    case GetterEntry(_) => NoSetter(name)
    case _ => NotWritable(name)
  }

  class Accessor {
    /** The property table and the projections' key lists, fixed at construction. */
    const env: Env
    /** The live state `stateData`. Only the accessor's own entries and the
        snapshot functions below reach it (the source's private symbol key). */
    var data: State
    /** Properties a caller added by plain assignment: the accessor object
        itself is not sealed, so assigning a name outside its table adds it. */
    var expando: map<string, Value>

    ghost predicate Valid()
      reads this
    {
      expando.Keys !! env.table.Keys
    }

    /** `makeAccessor(config)`: the state factory's record becomes the live
        state, and the table is assembled from the four groups. */
    constructor (c: Config)
      ensures Valid()
      ensures env == Build(c)
      ensures data == InitialState(c)
      ensures expando == map[]
    {
      env := Build(c);
      data := InitialState(c);
      expando := map[];
    }

    /** Reading `accessor[name]`, against the live state as it is now. */
    method Read(name: string) returns (p: Property)
      ensures name in env.table ==> p == ReadEntry(env, data, name)
      ensures name !in env.table ==> p == Field(Lookup(expando, name))
    {
      p := if name in env.table then ReadEntry(env, data, name) else Field(Lookup(expando, name));
    }

    /** Assigning `accessor[name] = v`: every name of the table rejects the
        write and nothing changes; any other name becomes an own property. */
    method Assign(name: string, v: Value) returns (r: Outcome)
      requires Valid()
      modifies this`expando
      ensures Valid()
      ensures name in env.table ==> r.Fail? && expando == old(expando)
      ensures name in env.table && (env.table[name].StateEntry? || env.table[name].GetterEntry?) ==>
                r == Fail(NoSetter(name))
      ensures name in env.table && (env.table[name].MutationEntry? || env.table[name].ActionEntry?) ==>
                r == Fail(NotWritable(name))
      ensures name !in env.table ==> r == Pass && expando == old(expando)[name := v]
    {
      if name in env.table {
        r := Fail(WriteRejection(env.table[name], name));
      } else {
        expando := expando[name := v];
        r := Pass;
      }
    }

    /** Calling `accessor[name](...args)` with `fuel` frames of host stack
        left: the live state moves as `Invoke` says. */
    method Call(name: string, args: Args, fuel: nat) returns (r: Outcome)
      modifies this`data
      ensures (data, r) == Invoke(env, old(data), name, args, fuel)
      ensures name in env.table && env.table[name].MutationEntry? ==>
                (data, r) == env.table[name].mutate(old(data), args)
      ensures (name !in env.table || env.table[name].StateEntry? || env.table[name].GetterEntry?) ==>
                data == old(data) && r == Fail(NotCallable(name))
      decreases fuel
    {
      if name !in env.table {
        r := Fail(NotCallable(name));
        return;
      }
      match env.table[name]
      case MutationEntry(m) =>
        data, r := m(data, args).0, m(data, args).1;
      case ActionEntry(a) =>
        if fuel == 0 {
          r := Fail(StackExhausted);
          return;
        }
        var calls := a(args);
        var i := 0;
        r := Pass;
        while i < |calls| && r.Pass?
          invariant 0 <= i <= |calls|
          invariant Run(env, old(data), calls, fuel - 1) ==
                    if r.Pass? then Run(env, data, calls[i..], fuel - 1) else (data, r)
          decreases |calls| - i
        {
          var c := calls[i];
          assert calls[i..][0] == c && calls[i..][1..] == calls[i + 1..];
          var now := data;
          var target := Get(MutationProxy(env), n => ReadEntry(env, now, n), Field(Undefined), c.name);
          match target {
            case Field(_) =>
              r := Fail(NotCallable(c.name));
            case Method(n) =>
              r := Call(n, c.args(StoreView(env, data)), fuel - 1);
          }
          i := i + 1;
        }
      case StateEntry =>
        r := Fail(NotCallable(name));
      case GetterEntry(_) =>
        r := Fail(NotCallable(name));
    }
  }

  /** `dumpState(accessor)`: the current contents of the live state. */
  method DumpState(a: Accessor) returns (snapshot: State)
    ensures snapshot == a.data
  {
    snapshot := a.data;
  }

  /** `loadState(accessor, arg)`: assigns every key the live state has now
      from `arg`, one key at a time, in place. */
  method LoadState(a: Accessor, arg: State)
    modifies a`data
    ensures a.data == Loaded(old(a.data), arg)
  {
    var pending := a.data.Keys;
    while pending != {}
      invariant pending <= a.data.Keys
      invariant a.data.Keys == old(a.data).Keys
      invariant forall k :: k in a.data && k !in pending ==> a.data[k] == Lookup(arg, k)
      invariant forall k :: k in pending ==> a.data[k] == old(a.data)[k]
      decreases pending
    {
      var key :| key in pending;
      a.data := a.data[key := Lookup(arg, key)];
      pending := pending - {key};
    }
  }
}
