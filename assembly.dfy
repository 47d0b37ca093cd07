/** The construction half of `makeAccessor`: the four named tables supplied
    by the caller, and the name-to-entry table built from them. */
module Assembly {
  import opened JsValues
  import opened Entries

  /** A mutation changes the live state; its first parameter, the state, is
      supplied by the accessor, the rest are the caller's arguments. It may
      throw, and the writes it made before throwing stay in the state. */
  type Mutation = (State, Args) -> (State, Outcome)

  /** A getter computes a value from what the state projection shows (other
      getters are themselves functions of the same projection). */
  type Getter = State -> Value

  /** What an action's code can see through its store when it makes a call:
      the state projection and the getter projection, read at that moment. */
  datatype Store = Store(state: State, getters: map<string, Value>)

  /** One call an action makes through `store.mutations`; its arguments may
      depend on what the store shows at the moment of the call. */
  datatype Call = Call(name: string, args: Store -> Args)

  /** An action, given the caller's arguments, makes a series of calls. */
  type Action = Args -> seq<Call>

  /** One property of the accessor. */
  datatype Entry =
    | MutationEntry(mutate: Mutation)   // callable, `writable: false`
    | ActionEntry(act: Action)          // callable, `writable: false`
    | StateEntry                        // get-only, forwards to the live state
    | GetterEntry(compute: Getter)      // get-only, recomputed on every read

  /** The argument of `makeAccessor`: the record the `state` factory returns
      and the entries of the `getters`, `mutations` and `actions` tables, in
      their key order (an absent table is an empty list). */
  datatype Config = Config(
    state: seq<(string, Value)>,
    getters: seq<(string, Getter)>,
    mutations: seq<(string, Mutation)>,
    actions: seq<(string, Action)>)

  function InitialState(c: Config): State { FromEntries(c.state) }
  function Getters(c: Config): map<string, Getter> { FromEntries(c.getters) }
  function Mutations(c: Config): map<string, Mutation> { FromEntries(c.mutations) }
  function Actions(c: Config): map<string, Action> { FromEntries(c.actions) }

  function MutationDescriptors(c: Config): seq<(string, Entry)> { Wrap(c.mutations, m => MutationEntry(m)) }
  function ActionDescriptors(c: Config): seq<(string, Entry)> { Wrap(c.actions, a => ActionEntry(a)) }
  function StateDescriptors(c: Config): seq<(string, Entry)> { Wrap(c.state, (v: Value) => StateEntry) }
  function GetterDescriptors(c: Config): seq<(string, Entry)> { Wrap(c.getters, g => GetterEntry(g)) }

  /** The accessor's property table: one `Object.fromEntries` over the
      mutation, action, state and getter descriptors, in that order. */
  function Assemble(c: Config): map<string, Entry>
  {
    FromEntries(MutationDescriptors(c) + ActionDescriptors(c) + StateDescriptors(c) + GetterDescriptors(c))
  }

  /** The single `Object.fromEntries` is a right-biased union of the four
      groups' own tables. */
  lemma AssembleIsUnion(c: Config)
    ensures Assemble(c) == FromEntries(MutationDescriptors(c)) + FromEntries(ActionDescriptors(c))
                           + FromEntries(StateDescriptors(c)) + FromEntries(GetterDescriptors(c))
  {
    var md, ad, sd, gd := MutationDescriptors(c), ActionDescriptors(c), StateDescriptors(c), GetterDescriptors(c);
    FromEntriesAppend(md + ad + sd, gd);
    FromEntriesAppend(md + ad, sd);
    FromEntriesAppend(md, ad);
  }

  /** Reference definition of what a name resolves to: getters beat state
      fields, which beat actions, which beat mutations. */
  datatype Resolution = Unbound | Bound(entry: Entry)

  function Resolve(c: Config, k: string): Resolution
  {
    if k in Getters(c) then Bound(GetterEntry(Getters(c)[k]))
    else if k in InitialState(c) then Bound(StateEntry)
    else if k in Actions(c) then Bound(ActionEntry(Actions(c)[k]))
    else if k in Mutations(c) then Bound(MutationEntry(Mutations(c)[k]))
    else Unbound
  }

  /** Each group's own table holds that group's handlers, tagged. */
  lemma MutationTable(c: Config)
    ensures FromEntries(MutationDescriptors(c)).Keys == Mutations(c).Keys
    ensures forall k :: k in Mutations(c) ==> FromEntries(MutationDescriptors(c))[k] == MutationEntry(Mutations(c)[k])
  {
    FromEntriesWrap(c.mutations, m => MutationEntry(m));
  }

  lemma ActionTable(c: Config)
    ensures FromEntries(ActionDescriptors(c)).Keys == Actions(c).Keys
    ensures forall k :: k in Actions(c) ==> FromEntries(ActionDescriptors(c))[k] == ActionEntry(Actions(c)[k])
  {
    FromEntriesWrap(c.actions, a => ActionEntry(a));
  }

  lemma StateTable(c: Config)
    ensures FromEntries(StateDescriptors(c)).Keys == InitialState(c).Keys
    ensures forall k :: k in InitialState(c) ==> FromEntries(StateDescriptors(c))[k] == StateEntry
  {
    FromEntriesWrap(c.state, (v: Value) => StateEntry);
  }

  lemma GetterTable(c: Config)
    ensures FromEntries(GetterDescriptors(c)).Keys == Getters(c).Keys
    ensures forall k :: k in Getters(c) ==> FromEntries(GetterDescriptors(c))[k] == GetterEntry(Getters(c)[k])
  {
    FromEntriesWrap(c.getters, g => GetterEntry(g));
  }

  /** The table agrees with the reference definition on every name: its
      names are exactly the union of the four groups, and on a collision the
      later group in construction order wins. */
  lemma AssembleResolves(c: Config)
    ensures Assemble(c).Keys == Mutations(c).Keys + Actions(c).Keys + InitialState(c).Keys + Getters(c).Keys
    ensures forall k :: k in Assemble(c) <==> Resolve(c, k).Bound?
    ensures forall k :: k in Assemble(c) ==> Assemble(c)[k] == Resolve(c, k).entry
  {
    AssembleIsUnion(c);
    MutationTable(c);
    ActionTable(c);
    StateTable(c);
    GetterTable(c);
    forall k | k in Assemble(c)
      ensures Assemble(c)[k] == Resolve(c, k).entry
    {
      ResolveUnion(c, k);
    }
  }

  /** One name of the four-way union, read against the reference definition. */
  lemma ResolveUnion(c: Config, k: string)
    requires Assemble(c) == FromEntries(MutationDescriptors(c)) + FromEntries(ActionDescriptors(c))
                            + FromEntries(StateDescriptors(c)) + FromEntries(GetterDescriptors(c))
    requires k in Assemble(c)
    ensures Assemble(c)[k] == Resolve(c, k).entry
  {
    MutationTable(c);
    ActionTable(c);
    StateTable(c);
    GetterTable(c);
  }

  /** The construction-time facts the accessor keeps: its table and the key
      lists its three projections expose. */
  datatype Env = Env(
    table: map<string, Entry>,
    stateKeys: set<string>,      // `Object.keys(stateData)` at construction
    getterNames: set<string>,    // `Object.keys(getters || {})`
    mutationNames: set<string>)  // `Object.keys(mutations || {})`

  function Build(c: Config): (env: Env)
    ensures env.table == Assemble(c)
    ensures env.table.Keys == env.mutationNames + Actions(c).Keys + env.stateKeys + env.getterNames
    ensures env.stateKeys == InitialState(c).Keys
    ensures env.getterNames == Getters(c).Keys
    ensures env.mutationNames == Mutations(c).Keys
  {
    AssembleResolves(c);
    Env(Assemble(c), InitialState(c).Keys, Getters(c).Keys, Mutations(c).Keys)
  }
}
