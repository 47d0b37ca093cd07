/** The repository's test: a counter with two mutations, a doubling getter
    and two actions, driven through the accessor. */
module Scenario {
  import opened JsValues
  import opened Proxies
  import opened Assembly
  import opened Semantics
  import opened Accessors

  /** Numeric addition of two numbers; the test never adds anything else. */
  function AddTo(v: Value, delta: Value): Value
  {
    if v.Num? && delta.Num? then Num(v.n + delta.n) else Undefined
  }

  /** The mutation that bumps the counter by one. */
  function Increase(s: State, args: Args): (State, Outcome)
  {
    (s["value" := AddTo(Lookup(s, "value"), Num(1))], Pass)
  }

  /** The mutation that adds its first argument to the counter. */
  function AddUp(s: State, args: Args): (State, Outcome)
  {
    (s["value" := AddTo(Lookup(s, "value"), Arg(args, 0))], Pass)
  }

  /** The getter giving twice the counter. */
  function Double(s: State): Value
  {
    match Lookup(s, "value")
    case Num(n) => Num(2 * n)
    case _ => Undefined
  }

  /** The action that bumps the counter through the increment mutation. */
  function Rock(args: Args): seq<Call>
  {
    [Call("increase", (st: Store) => [])]
  }

  /** The action that passes its first argument on to the adding mutation. */
  function RockPayload(args: Args): seq<Call>
  {
    [Call("addUp", (st: Store) => [Arg(args, 0)])]
  }

  function CounterConfig(): Config
  {
    Config(
      [("value", Num(0))],
      [("double", Double)],
      [("increase", Increase), ("addUp", AddUp)],
      [("rock", Rock), ("rockPayload", RockPayload)])
  }

  /** The accessor's construction-time facts for the counter, written out. */
  function CounterEnv(): Env
  {
    Env(map["increase" := MutationEntry(Increase), "addUp" := MutationEntry(AddUp),
            "rock" := ActionEntry(Rock), "rockPayload" := ActionEntry(RockPayload),
            "value" := StateEntry, "double" := GetterEntry(Double)],
        {"value"}, {"double"}, {"increase", "addUp"})
  }

  /** Building the counter's accessor yields exactly that table: six names,
      each with the entry of the only group that declares it. */
  lemma CounterBuild()
    ensures Build(CounterConfig()) == CounterEnv()
  {
    var c := CounterConfig();
    AssembleResolves(c);
    assert c.mutations[..1] == [("increase", Increase)];
    assert Mutations(c) == map["increase" := Increase, "addUp" := AddUp];
    assert c.actions[..1] == [("rock", Rock)];
    assert Actions(c) == map["rock" := Rock, "rockPayload" := RockPayload];
    assert InitialState(c) == map["value" := Num(0)];
    assert Getters(c) == map["double" := Double];
    var t := Assemble(c);
    assert t.Keys == CounterEnv().table.Keys;
    assert t == CounterEnv().table;
  }

  /** A counter accessor whose live state holds the number `n`. */
  ghost predicate CounterAt(a: Accessor, n: int)
    reads a
  {
    a.Valid() && a.env == CounterEnv() && a.data == map["value" := Num(n)]
  }

  /** Reading `accessor.value` and `accessor.double`. */
  method ReadCounter(a: Accessor, ghost n: int) returns (value: Property, double: Property)
    requires CounterAt(a, n)
    ensures value == Field(Num(n)) && double == Field(Num(2 * n))
  {
    assert StateView(a.env, a.data) == a.data;
    value := a.Read("value");
    double := a.Read("double");
  }

  /** Calling `accessor.increase()`. */
  method IncreaseCounter(a: Accessor, ghost n: int) returns (r: Outcome)
    requires CounterAt(a, n)
    modifies a`data
    ensures CounterAt(a, n + 1) && r == Pass
  {
    r := a.Call("increase", [], 0);
    assert (a.data, r) == Increase(map["value" := Num(n)], []);
  }

  /** Calling `accessor.addUp(delta)`. */
  method AddUpCounter(a: Accessor, ghost n: int, delta: int) returns (r: Outcome)
    requires CounterAt(a, n)
    modifies a`data
    ensures CounterAt(a, n + delta) && r == Pass
  {
    r := a.Call("addUp", [Num(delta)], 0);
    assert (a.data, r) == AddUp(map["value" := Num(n)], [Num(delta)]);
  }

  /** `makeAccessor` over the counter's tables. */
  method NewCounter() returns (a: Accessor)
    ensures fresh(a) && CounterAt(a, 0)
  {
    CounterBuild();
    a := new Accessor(CounterConfig());
  }

  /** The test's sequence of reads, calls, the rejected write, the dump and
      the load, with what each one observes. */
  method CounterTest() returns (observed: seq<Property>, write: Outcome, dump: State)
    ensures observed == [Field(Num(0)), Field(Num(0)),
                      Field(Num(1)), Field(Num(2)),
                      Field(Num(6)), Field(Num(12)),
                      Field(Num(2)), Field(Num(4))]
    ensures write == Fail(NoSetter("value"))
    ensures dump == map["value" := Num(6)]
  {
    var a := NewCounter();
    var v0, d0 := ReadCounter(a, 0);
    var r := IncreaseCounter(a, 0);
    var v1, d1 := ReadCounter(a, 1);
    r := AddUpCounter(a, 1, 5);
    var v2, d2 := ReadCounter(a, 6);
    write := a.Assign("value", Num(7));
    dump := DumpState(a);
    LoadState(a, map["value" := Num(2)]);
    assert CounterAt(a, 2);
    var v3, d3 := ReadCounter(a, 2);
    observed := [v0, d0, v1, d1, v2, d2, v3, d3];
  }

  /** Calling `accessor.rock()` with one frame of stack: the action's one
      call goes through the mutation projection to the accessor's
      `increase`. */
  method RockCounter(a: Accessor, ghost n: int) returns (r: Outcome)
    requires CounterAt(a, n)
    modifies a`data
    ensures CounterAt(a, n + 1) && r == Pass
  {
    var env, d := a.env, a.data;
    assert Rock([]) == [Call("increase", (st: Store) => [])];
    var c := Rock([])[0];
    assert Get(MutationProxy(env), k => ReadEntry(env, d, k), Field(Undefined), c.name) == Method("increase");
    assert Invoke(env, d, "increase", c.args(StoreView(env, d)), 0) == Increase(d, []);
    assert Run(env, d, Rock([]), 0) == Increase(d, []);
    r := a.Call("rock", [], 1);
  }

  /** Calling `accessor.rockPayload(delta)` with one frame of stack: the
      action's one call passes `delta` on to the accessor's `addUp`. */
  method RockPayloadCounter(a: Accessor, ghost n: int, delta: int) returns (r: Outcome)
    requires CounterAt(a, n)
    modifies a`data
    ensures CounterAt(a, n + delta) && r == Pass
  {
    var env, d := a.env, a.data;
    assert RockPayload([Num(delta)]) == [Call("addUp", (st: Store) => [Num(delta)])];
    var c := RockPayload([Num(delta)])[0];
    assert Get(MutationProxy(env), k => ReadEntry(env, d, k), Field(Undefined), c.name) == Method("addUp");
    assert Invoke(env, d, "addUp", c.args(StoreView(env, d)), 0) == AddUp(d, [Num(delta)]);
    assert Run(env, d, RockPayload([Num(delta)]), 0) == AddUp(d, [Num(delta)]);
    r := a.Call("rockPayload", [Num(delta)], 1);
  }

  /** The two actions, which the test declares but does not call: each
      changes the state through the mutation it names, and an action called
      with no stack to spare throws and changes nothing. */
  method ActionTest() returns (observed: seq<Property>, outcomes: seq<Outcome>)
    ensures observed == [Field(Num(1)), Field(Num(4)), Field(Num(8)), Field(Num(4))]
    ensures outcomes == [Pass, Pass, Fail(StackExhausted)]
  {
    var a := NewCounter();
    var r0 := RockCounter(a, 0);
    var v0, _ := ReadCounter(a, 1);
    var r1 := RockPayloadCounter(a, 1, 3);
    var v1, d1 := ReadCounter(a, 4);
    var r2 := a.Call("rock", [], 0);
    assert CounterAt(a, 4);
    var v2, _ := ReadCounter(a, 4);
    observed := [v0, v1, d1, v2];
    outcomes := [r0, r1, r2];
  }
}
