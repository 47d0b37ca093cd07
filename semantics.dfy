/** What the accessor's entries do when read or called, stated over the
    construction-time `Env` and a value of the live state. */
module Semantics {
  import opened JsValues
  import opened Proxies
  import opened Assembly

  /** What reading a property of the accessor yields: a plain value, or the
      call wrapper of the named mutation or action. */
  datatype Property = Field(value: Value) | Method(name: string)

  /** The three projections handed to every action. */
  function StateProxy(env: Env): Proxy { Proxy(env.stateKeys) }
  function GetterProxy(env: Env): Proxy { Proxy(env.getterNames) }
  function MutationProxy(env: Env): Proxy { Proxy(env.mutationNames) }

  /** What the state projection shows over the live state `data`: exactly
      the construction-time keys, each read from `data` now. */
  function StateView(env: Env, data: State): (v: State)
    ensures v.Keys == env.stateKeys
    ensures forall k :: k in v ==> v[k] == Lookup(data, k)
  {
    Shown(StateProxy(env), k => Lookup(data, k))
  }

  /** Reading the accessor's property `name`, one of its table's names: a
      state field reads the live state, a getter is evaluated afresh on the
      state projection, a mutation or action reads as its call wrapper. */
  function ReadEntry(env: Env, data: State, name: string): (p: Property)
    ensures name in env.table && env.table[name].StateEntry? ==> p == Field(Lookup(data, name))
    ensures name in env.table && env.table[name].GetterEntry? ==>
              p == Field(env.table[name].compute(StateView(env, data)))
    ensures name in env.table && (env.table[name].MutationEntry? || env.table[name].ActionEntry?) ==>
              p == Method(name)
    ensures name !in env.table ==> p == Field(Undefined)
  {
    if name !in env.table then Field(Undefined)
    else match env.table[name]
      case StateEntry => Field(Lookup(data, name))
      case GetterEntry(g) => Field(g(StateView(env, data)))
      case _ => Method(name)
  }

  /** A getter projection read gives the accessor's value for that name. */
  function GetterValue(env: Env, data: State, name: string): Value
  {
    match ReadEntry(env, data, name)
    case Field(v) => v
    case Method(_) => Undefined
  }

  /** What an action's store shows at one instant. */
  function StoreView(env: Env, data: State): Store
  {
    Store(StateView(env, data), Shown(GetterProxy(env), g => GetterValue(env, data, g)))
  }

  /** Calling `accessor[name](...args)` from live state `data`: the new live
      state and whether the call threw. A mutation is applied to the live
      state; an action uses one frame of the host's call stack (`fuel`),
      whether it is called from outside or from another action, and runs
      its calls; anything else is not callable. Mutations are charged no
      frame. */
  function Invoke(env: Env, data: State, name: string, args: Args, fuel: nat): (State, Outcome)
    decreases fuel, 1, 0
  {
    if name !in env.table then (data, Fail(NotCallable(name)))
    else match env.table[name]
      case MutationEntry(m) => m(data, args)
      case ActionEntry(a) =>
        if fuel == 0 then (data, Fail(StackExhausted)) else Run(env, data, a(args), fuel - 1)
      case _ => (data, Fail(NotCallable(name)))
  }

  /** Running an action's calls one after another. Each call reads its
      target through the mutation projection, which forwards to the
      accessor; the first call that throws ends the action, and the state
      changes made before it stay. */
  function Run(env: Env, data: State, calls: seq<Call>, fuel: nat): (State, Outcome)
    decreases fuel, 2, |calls|
  {
    if calls == [] then (data, Pass)
    else
      var c := calls[0];
      match Get(MutationProxy(env), n => ReadEntry(env, data, n), Field(Undefined), c.name)
      case Field(_) => (data, Fail(NotCallable(c.name)))
      case Method(n) =>
        var (next, r) := Invoke(env, data, n, c.args(StoreView(env, data)), fuel);
        if r.Fail? then (next, r) else Run(env, next, calls[1..], fuel)
  }

  /** A getter's value depends on the construction-time state fields only,
      read from the live state: fields a mutation adds later do not reach it. */
  lemma GetterSeesOnlyProjection(env: Env, d1: State, d2: State, name: string)
    requires forall k :: k in env.stateKeys ==> Lookup(d1, k) == Lookup(d2, k)
    ensures name in env.table && env.table[name].GetterEntry? ==> ReadEntry(env, d1, name) == ReadEntry(env, d2, name)
  {
    assert StateView(env, d1) == StateView(env, d2);
  }

  /** The action's projections agree with the table built from the same
      tables: every getter name reads a getter, every mutation name is a
      property of the accessor, and a state key reads the live field unless
      a getter of the same name shadows it. */
  lemma ProjectionsMatchTable(c: Config)
    ensures forall g :: g in Build(c).getterNames ==> Build(c).table[g].GetterEntry?
    ensures forall k :: k in Build(c).stateKeys && k !in Build(c).getterNames ==> Build(c).table[k].StateEntry?
    ensures Build(c).mutationNames <= Build(c).table.Keys
  {
    AssembleResolves(c);
  }

  /** `store.mutations[n]` yields a callable exactly for the mutation names
      that no state key or getter shadows (an action of the same name still
      yields a callable: the action's wrapper); any other name reads a plain
      value. */
  lemma MutationProjectionCallable(c: Config, d: State, n: string)
    ensures Get(MutationProxy(Build(c)), k => ReadEntry(Build(c), d, k), Field(Undefined), n).Method?
            <==> n in Mutations(c) && n !in InitialState(c) && n !in Getters(c)
    ensures Get(MutationProxy(Build(c)), k => ReadEntry(Build(c), d, k), Field(Undefined), n).Method?
            ==> Get(MutationProxy(Build(c)), k => ReadEntry(Build(c), d, k), Field(Undefined), n) == Method(n)
  {
    var env := Build(c);
    var p := Get(MutationProxy(env), k => ReadEntry(env, d, k), Field(Undefined), n);
    if n in Mutations(c) {
      AssembleResolves(c);
      assert n in env.table && env.table[n] == Resolve(c, n).entry;
      assert p == ReadEntry(env, d, n);
    } else {
      assert p == Field(Undefined);
    }
  }

  /** `store.state[k]` reads the live state's current value for exactly the
      construction-time keys, in agreement with `accessor[k]` wherever no
      getter shadows it; a key added to the live state later reads as
      `undefined`. */
  lemma StateProjectionReadsLive(c: Config, d: State, k: string)
    ensures k in InitialState(c) ==> Get(StateProxy(Build(c)), x => Lookup(d, x), Undefined, k) == Lookup(d, k)
    ensures k !in InitialState(c) ==> Get(StateProxy(Build(c)), x => Lookup(d, x), Undefined, k) == Undefined
    ensures k in InitialState(c) && k !in Getters(c) ==>
              ReadEntry(Build(c), d, k) == Field(Get(StateProxy(Build(c)), x => Lookup(d, x), Undefined, k))
  {
    AssembleResolves(c);
  }

  /** `store.getters[g]` evaluates the getter `g` afresh on the state
      projection of the live state at the moment of the read; a name that is
      not a getter reads as `undefined`. */
  lemma GetterProjectionRecomputes(c: Config, d: State, g: string)
    ensures g in Getters(c) ==>
              Get(GetterProxy(Build(c)), x => GetterValue(Build(c), d, x), Undefined, g)
              == Getters(c)[g](StateView(Build(c), d))
    ensures g !in Getters(c) ==> Get(GetterProxy(Build(c)), x => GetterValue(Build(c), d, x), Undefined, g) == Undefined
  {
    AssembleResolves(c);
  }

  /** What an action's store shows at one instant is what the accessor
      shows: the state part has exactly the construction-time keys, and the
      getter part has exactly the getter names, each with the value that
      reading the accessor gives now. */
  lemma StoreViewMatchesAccessor(c: Config, d: State)
    ensures StoreView(Build(c), d).state.Keys == InitialState(c).Keys
    ensures StoreView(Build(c), d).getters.Keys == Getters(c).Keys
    ensures forall g :: g in Getters(c) ==> ReadEntry(Build(c), d, g) == Field(StoreView(Build(c), d).getters[g])
    ensures forall k :: k in InitialState(c) && k !in Getters(c) ==>
              ReadEntry(Build(c), d, k) == Field(StoreView(Build(c), d).state[k])
  {
    AssembleResolves(c);
  }

  /** No write through any of the three projections succeeds: assigning
      throws for lack of a setter on an exposed key and for want of
      extensibility on any other; deleting throws exactly on exposed keys. */
  lemma ProjectionsRejectWrites(c: Config, k: string, v: Value)
    ensures Set(StateProxy(Build(c)), k, v) == (if k in InitialState(c) then NoSetter(k) else NotExtensible(k))
    ensures Set(GetterProxy(Build(c)), k, v) == (if k in Getters(c) then NoSetter(k) else NotExtensible(k))
    ensures Set(MutationProxy(Build(c)), k, Field(v)) == (if k in Mutations(c) then NoSetter(k) else NotExtensible(k))
    ensures Delete(StateProxy(Build(c)), k).Fail? <==> k in InitialState(c)
    ensures Delete(GetterProxy(Build(c)), k).Fail? <==> k in Getters(c)
    ensures Delete(MutationProxy(Build(c)), k).Fail? <==> k in Mutations(c)
  {
  }

  /** When a state field or a getter shadows a mutation's name, an action
      that calls that mutation reads a plain value through the mutation
      projection, and the call throws without changing the state. */
  lemma ShadowedMutationThrows(env: Env, data: State, calls: seq<Call>, fuel: nat)
    requires calls != [] && calls[0].name in env.mutationNames && calls[0].name in env.table
    requires env.table[calls[0].name].StateEntry? || env.table[calls[0].name].GetterEntry?
    ensures Run(env, data, calls, fuel) == (data, Fail(NotCallable(calls[0].name)))
  {
  }

  /** A record of mutation applications. */
  datatype Step = Step(name: string, args: Args)

  ghost predicate AllMutations(env: Env, steps: seq<Step>)
  {
    forall i :: 0 <= i < |steps| ==> steps[i].name in env.table && env.table[steps[i].name].MutationEntry?
  }

  /** Applying table mutations one after another. */
  ghost function Replay(env: Env, data: State, steps: seq<Step>): State
    requires AllMutations(env, steps)
    decreases |steps|
  {
    if steps == [] then data
    else Replay(env, env.table[steps[0].name].mutate(data, steps[0].args).0, steps[1..])
  }

  lemma {:induction false} ReplayAppend(env: Env, data: State, s: seq<Step>, t: seq<Step>)
    requires AllMutations(env, s) && AllMutations(env, t)
    ensures AllMutations(env, s + t)
    ensures Replay(env, data, s + t) == Replay(env, Replay(env, data, s), t)
    decreases |s|
  {
    if s == [] {
      assert s + t == t;
    } else {
      assert (s + t)[1..] == s[1..] + t;
      ReplayAppend(env, env.table[s[0].name].mutate(data, s[0].args).0, s[1..], t);
    }
  }

  /** Actions write only through mutations: whatever state a call reaches,
      whether it returns or throws, is the result of applying a series of
      the table's mutations to the state it started from, and every mutation reached from inside an
      action was named in the mutation projection. */
  lemma {:induction false} InvokeOnlyMutates(env: Env, data: State, name: string, args: Args, fuel: nat)
    returns (steps: seq<Step>)
    ensures AllMutations(env, steps)
    ensures Replay(env, data, steps) == Invoke(env, data, name, args, fuel).0
    ensures forall i :: 0 <= i < |steps| ==> steps[i].name == name || steps[i].name in env.mutationNames
    decreases fuel, 1, 0
  {
    if name !in env.table {
      steps := [];
    } else {
      match env.table[name]
      case MutationEntry(m) =>
        steps := [Step(name, args)];
        assert Replay(env, m(data, args).0, []) == m(data, args).0;
      case ActionEntry(a) =>
        if fuel == 0 {
          steps := [];
        } else {
          steps := RunOnlyMutates(env, data, a(args), fuel - 1);
        }
      case StateEntry =>
        steps := [];
      case GetterEntry(_) =>
        steps := [];
    }
  }

  lemma {:induction false} RunOnlyMutates(env: Env, data: State, calls: seq<Call>, fuel: nat)
    returns (steps: seq<Step>)
    ensures AllMutations(env, steps)
    ensures Replay(env, data, steps) == Run(env, data, calls, fuel).0
    ensures forall i :: 0 <= i < |steps| ==> steps[i].name in env.mutationNames
    decreases fuel, 2, |calls|
  {
    if calls == [] {
      steps := [];
    } else {
      var c := calls[0];
      match Get(MutationProxy(env), n => ReadEntry(env, data, n), Field(Undefined), c.name)
      case Field(_) =>
        steps := [];
      case Method(n) =>
        assert n == c.name && n in env.mutationNames;
        var args := c.args(StoreView(env, data));
        var first := InvokeOnlyMutates(env, data, n, args, fuel);
        var (next, r) := Invoke(env, data, n, args, fuel);
        if r.Fail? {
          steps := first;
        } else {
          var rest := RunOnlyMutates(env, next, calls[1..], fuel);
          ReplayAppend(env, data, first, rest);
          steps := first + rest;
        }
    }
  }

  /** The state after `loadState(accessor, arg)`: every key the live state
      has is assigned `arg[key]`, so a key missing from `arg` becomes
      `undefined`, and keys only `arg` has are ignored. */
  function Loaded(current: State, arg: State): (s: State)
    ensures s.Keys == current.Keys
    ensures forall k :: k in s ==> s[k] == Lookup(arg, k)
  {
    map k | k in current :: Lookup(arg, k)
  }

  /** Loading a dump of the same state changes nothing. */
  lemma LoadDumpRoundTrip(s: State)
    ensures Loaded(s, s) == s
  {
  }

  /** Loading a snapshot over a state with the same keys restores it. */
  lemma LoadRestores(current: State, snapshot: State)
    requires current.Keys == snapshot.Keys
    ensures Loaded(current, snapshot) == snapshot
  {
  }

  /** Loading twice is loading once. */
  lemma LoadIdempotent(current: State, arg: State)
    ensures Loaded(Loaded(current, arg), arg) == Loaded(current, arg)
  {
  }

  /** After a load, every state field and getter of the accessor reads the
      loaded values. */
  lemma ReadsAfterLoad(env: Env, current: State, arg: State, name: string)
    requires env.stateKeys <= current.Keys
    requires name in env.table
    ensures env.table[name].StateEntry? && name in current ==>
              ReadEntry(env, Loaded(current, arg), name) == Field(Lookup(arg, name))
    ensures env.table[name].GetterEntry? ==>
              ReadEntry(env, Loaded(current, arg), name) ==
              Field(env.table[name].compute(map k | k in env.stateKeys :: Lookup(arg, k)))
  {
    var v := StateView(env, Loaded(current, arg));
    assert v == map k | k in env.stateKeys :: Lookup(arg, k);
  }
}
