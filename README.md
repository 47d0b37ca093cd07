# vue-accessor, modelled in Dafny

`makeAccessor` turns four named tables into one façade object, the
**accessor**. The tables are a state factory, getters, mutations and
actions. The accessor exposes:

- every state field as a get-only property that reads the live state;
- every getter as a get-only property, recomputed on every read;
- every mutation as a non-writable method that applies the mutation to the live state;
- every action as a non-writable method that runs the action against a
  restricted store `{state, getters, mutations}`.

The store's three members are sealed read-only projections. `state`
projects the live state over the construction-time keys. `getters` and
`mutations` project the accessor itself, so an action can change state
only by calling a mutation. `dumpState` reads the live state and
`loadState` assigns it key by key.

The model has seven modules. Five cover the parts of `src/index.ts`, one holds the host values, and one holds the test:

- `JsValues` (`js_values.dfy`): the host values, records, property reads
  and `TypeError`s.
- `Entries` (`entries.dfy`): `Object.fromEntries`, where the last pair for
  a key wins. Lemmas show that concatenating descriptor lists is a
  right-biased union.
- `Proxies` (`proxies.dfy`): `makeReadOnlyProxy`. A projection holds only
  its key list. Each read forwards to the backing object's read function
  at the moment of the read, and every write throws.
- `Assembly` (`assembly.dfy`): the caller's tables (`Config`), the
  accessor's property table (`Assemble`, the one `Object.fromEntries` of
  the source), and a reference definition `Resolve` of what a name means.
  `AssembleResolves` proves the two agree on every name.
- `Semantics` (`semantics.dfy`): what reading or calling an entry does to
  a live state (`ReadEntry`, `Invoke`, `Run`), what `loadState` computes
  (`Loaded`), and the lemmas about them. The main ones: actions write only
  through mutations, getters see only the projection, and load
  round-trips with dump when no mutation runs in between.
- `Accessors` (`accessor.dfy`): the `Accessor` class with the live state
  `data` and the methods `Read`, `Assign` and `Call`. `Read` and `Call` are
  proved against `Semantics` (`ReadEntry` and `Invoke`); `Assign` is stated
  over the table's entry kinds. The module also holds `DumpState` and
  `LoadState`; `LoadState` is the source's key-by-key loop, with
  invariants.
- `Scenario` (`scenario.dfy`): the repository's test (a counter with
  `increase`, `addUp`, `double`, `rock`, `rockPayload`) driven through the
  class. Each observed value is proved.

Modelling choices:

- A getter is a function of what the state projection shows. A getter
  that reads other getters through its second argument still computes
  from that same projection.
- An action is a function from the caller's arguments to the list of
  calls it makes through `store.mutations`. Each call's arguments can
  depend on what the store shows at the moment of the call.
- A call through the mutation projection reads the accessor's property of
  that name. If a later group shadows the name, the call reaches the
  shadowing entry.
- Every action call costs one frame of a `fuel` bound that stands for the
  host's call stack. This holds for the outermost call from outside and
  for an action reached through the mutation projection alike. A mutation
  call costs no frame. Running out is the host's stack-overflow error.
- A mutation returns the new state and whether it threw. A mutation that
  throws keeps the writes it made before throwing.
- The accessor object is not sealed. Assigning to a name outside its
  table adds an ordinary property (`expando`). Assigning to a name in the
  table throws and changes nothing. Writes throw as they do for a
  strict-mode caller; see "## Left out" for sloppy mode.

Two details of `loadState`:

- `loadState` assigns `stateData[key] = state[key]` for every key the
  live state has. A key missing from the argument therefore becomes
  `undefined`; it is not left unchanged.
- These are the live state's current keys, not the construction-time
  list, so `loadState` also assigns keys a mutation added.

## Model

| member | source | states |
|---|---|---|
| Entries.FromEntries | src/index.ts:123-174 | the record's keys are exactly the keys in the list, and the final pair's key holds the final pair's value |
| Entries.FromEntriesAppend | src/index.ts:123-174 | `fromEntries` of two concatenated lists is the right-biased union of their records: on a shared key the later list wins |
| Entries.FromEntriesLastWins | src/index.ts:123-174 | a key gets the value at its last occurrence in the list |
| Entries.FromEntriesWrap | src/index.ts:124-173 | building descriptors from a table keeps its names and wraps each handler in its descriptor |
| Assembly.AssembleIsUnion | src/index.ts:123-174 | the single `fromEntries` over mutations, actions, state, getters is the union of the four group tables, later groups overriding |
| Assembly.MutationTable | src/index.ts:124-134 | the mutation group's table has exactly the mutation names, each bound to its mutation |
| Assembly.ActionTable | src/index.ts:136-153 | the action group's table has exactly the action names, each bound to its action |
| Assembly.StateTable | src/index.ts:155-163 | the state group's table has exactly the construction-time state keys, each a get-only state field |
| Assembly.GetterTable | src/index.ts:165-173 | the getter group's table has exactly the getter names, each bound to its getter |
| Assembly.AssembleResolves | src/index.ts:119-174 | the accessor's names are exactly the union of mutation, action, state and getter names; on a collision getters beat state, state beats actions, actions beat mutations (both directions, every name) |
| Assembly.Build | src/index.ts:118-185 | the accessor's table is the assembled one, and its projections expose the initial state's keys, the getter names and the mutation names |
| Semantics.StateView | src/index.ts:177-177 | the state projection shows exactly the construction-time keys, each read from the live state now |
| Semantics.ReadEntry | src/index.ts:155-173 | a state field reads the live state; a getter is evaluated afresh on the current projection; a mutation or action reads as its call wrapper |
| Semantics.MutationProjectionCallable | src/index.ts:182-185 | `store.mutations[n]` yields a callable exactly when `n` is a mutation name that no state key or getter shadows, and that callable is the accessor's own property `n`; every other name reads a plain value |
| Semantics.StateProjectionReadsLive | src/index.ts:82-98 | `store.state[k]` reads the live state's current value for exactly the construction-time keys and `undefined` for any other key, and agrees with `accessor[k]` wherever no getter shadows `k` |
| Semantics.GetterProjectionRecomputes | src/index.ts:178-181 | `store.getters[g]` evaluates getter `g` afresh on the state projection at the moment of the read; a non-getter name reads `undefined` |
| Semantics.StoreViewMatchesAccessor | src/index.ts:141-146 | at one instant the store shows exactly the construction-time state keys and the getter names, each with the value reading the accessor gives then |
| Semantics.ProjectionsRejectWrites | src/index.ts:82-98 | every assignment through any of the three projections throws (no setter on an exposed key, not extensible otherwise); a delete throws exactly on exposed keys |
| Semantics.GetterSeesOnlyProjection | src/index.ts:165-170 | a getter's value depends only on the live values of the construction-time state keys |
| Semantics.ProjectionsMatchTable | src/index.ts:177-185 | every getter name reads a getter, every unshadowed state key reads the state field, and every mutation name is a property of the accessor |
| Semantics.ShadowedMutationThrows | src/index.ts:182-185 | a mutation name shadowed by a state field or getter reads a plain value through the mutation projection, so an action calling it throws and the state is unchanged |
| Semantics.InvokeOnlyMutates | src/index.ts:124-153 | the state after calling any accessor entry is obtained from the one before by applying the table's mutations in order, with the called name or mutation-projection names only |
| Semantics.RunOnlyMutates | src/index.ts:136-149 | an action's calls change the state only by applying mutations named in its mutation projection |
| Semantics.Loaded | src/index.ts:211-216 | after a load the state keeps exactly its keys, each holding the argument's value (`undefined` if the argument lacks it); extra argument keys are ignored |
| Semantics.LoadDumpRoundTrip | src/index.ts:192-216 | loading what a dump returned leaves the state as it was |
| Semantics.LoadRestores | src/index.ts:204-216 | loading a snapshot with the same keys as the live state makes the live state equal to it |
| Semantics.LoadIdempotent | src/index.ts:204-216 | loading the same argument twice is the same as loading it once |
| Semantics.ReadsAfterLoad | test/index.spec.ts:77-81 | after a load, while the live state still has every construction-time key, each state field of the accessor reads the argument's value and each getter computes on the loaded values |
| Accessors.Accessor.constructor | src/index.ts:100-190 | makes the initial record the live state, assembles the table, and adds no other properties |
| Accessors.Accessor.Read | src/index.ts:155-173 | a property read is evaluated on the live state at the time of the read (no caching); a name outside the table reads an added property or `undefined` |
| Accessors.Accessor.Assign | src/index.ts:121-175 | assigning to a state field or getter throws for want of a setter, to a mutation or action as not writable, and changes nothing; any other name becomes an ordinary property; the live state never changes |
| Accessors.Accessor.Call | src/index.ts:124-153 | a mutation call applies the mutation to the live state with the caller's arguments and passes on its throw, keeping the writes made before it; an action call uses one frame and runs its calls in order against the live state and stops at the first error, keeping earlier writes; anything else throws without change |
| Accessors.DumpState | src/index.ts:192-202 | the dump equals the current live state |
| Accessors.LoadState | src/index.ts:204-216 | the key-by-key loop leaves the live state equal to `Loaded(old state, argument)` |
| Scenario.CounterBuild | test/index.spec.ts:51-56 | the counter's accessor has exactly the six names `value`, `double`, `increase`, `addUp`, `rock`, `rockPayload`, each with its own entry |
| Scenario.NewCounter | test/index.spec.ts:51-56 | a new counter accessor holds `{value: 0}` |
| Scenario.ReadCounter | test/index.spec.ts:59-66 | with `value` at n, `accessor.value` reads n and `accessor.double` reads 2n |
| Scenario.IncreaseCounter | test/index.spec.ts:61-62 | `increase()` adds 1 to the live value and returns normally |
| Scenario.AddUpCounter | test/index.spec.ts:64-66 | `addUp(d)` adds d to the live value, for every d, and returns normally |
| Scenario.CounterTest | test/index.spec.ts:59-81 | the test's observations: 0, 0; 1, 2 after `increase`; 6, 12 after `addUp(5)`; the write to `value` throws; the dump is `{value: 6}`; 2, 4 after loading `{value: 2}` |
| Scenario.RockCounter | test/index.spec.ts:39-44 | `rock()` with one frame adds 1 to the value through the `increase` mutation it calls |
| Scenario.RockPayloadCounter | test/index.spec.ts:45-47 | `rockPayload(d)` with one frame adds d to the value through the `addUp` mutation it calls, for every d |
| Scenario.ActionTest | test/index.spec.ts:36-49 | the two actions move the value 0 → 1 → 4, the getter then reads 8, and an action call with no stack to spare throws and leaves the value at 4 |

## Left out

- Vue's `reactive` and `readonly` (src/index.ts:1, 118, 201): dependency tracking belongs to a library outside this model. The live state is the accessor's map field `data`. A mutation call replaces that field's value by the mutation's result, which stands for the source's in-place writes to the one reactive object; object identity is not modelled.
- Accessors.DumpState: returns the state's value at the moment of the call. The source returns Vue's deep read-only view of the live state, which would also show later changes. So in the source a dump kept across a mutation shows the new values, and loading it later writes each key's current value back onto itself and restores nothing. In the model the dump is a copy, and loading it restores the old state. `Semantics.LoadDumpRoundTrip` and `Semantics.LoadRestores` are therefore a save and restore only in the model; in the source they hold only when no mutation runs between the dump and the load.
- The TypeScript type-level machinery (src/index.ts:5-48), and `getterTree`, `mutationTree` and `actionTree` (src/index.ts:50-80): these have no runtime behaviour beyond returning their input.
- Property-descriptor details beyond get-only, non-writable and sealed: enumerability, and `delete` on the accessor's own state and getter properties. Those properties are `configurable: true`, so deleting one succeeds in the source; the model has no delete on the accessor.
- The symbol-keyed back-channel (src/index.ts:3, 187) is the class field `data`, which only the accessor's methods, `DumpState` and `LoadState` use.
- Asynchronous action bodies, and the return values of mutations and actions that the call wrappers pass back to the caller.
- Action control flow that depends on the result of an earlier call: an action's calls are fixed by its arguments, though each call's arguments may depend on what the store shows at that moment. An action's own exceptions, and `try`/`catch` around a failing call, are not modelled.
- Accessors.Accessor.Call: the host's call-stack limit is the `fuel` argument. Every action call uses one frame, the outermost one included; mutations use none. A getter that reads itself with no end is not modelled.
- Exceptions thrown by getters: a getter is a total function of the state projection, so reading a getter property never throws in the model.
- Values: numbers are unbounded integers (no floating point, no `NaN`), and a state field holds a primitive value, not a nested object. The scenario's `AddTo` gives `undefined` where JavaScript addition would give `NaN` or a string, and its `Double` gives `undefined` where `state.value * 2` would give `NaN` or, for a numeric string such as `"3"`, a number.
- Object-valued state fields: in the source, `accessor.f.x = 1` or `store.state.f.x = 1` inside an action writes the live state without any mutation, because the projections are shallow. The model has no such write. `Semantics.InvokeOnlyMutates`, `Semantics.RunOnlyMutates` and the "live state never changes" clause of `Accessors.Accessor.Assign` therefore hold only for primitive-valued state.
- Inherited `Object.prototype` members: the accessor and the three projections are built on `{}`, so in the source `accessor.toString` reads a function and `accessor.toString()` or `mutations.hasOwnProperty("x")` returns normally. The model has own properties only: it reads such a name as `undefined` (`Semantics.ReadEntry`, `Accessors.Accessor.Read`, the projection lemmas), and calling it throws `NotCallable` (`Semantics.Invoke`, `Semantics.Run`, `Accessors.Accessor.Call`).
- Sloppy-mode writes: the model throws on every rejected write, as the host does for a strict-mode caller. A sloppy-mode caller's write to a get-only or non-writable property, or to a sealed projection, is dropped silently instead. The state is unchanged either way.
- The construction error for a state factory that does not return a record: the model's types make the factory's result a record, and the source does not check it either.
- `console.log` in the test (test/index.spec.ts:43).
