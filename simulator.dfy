/** The simulator (`simulate` in digitalsim.py): for each stimulus step the
    inputs seed a signal environment, passes over the gate list fire every
    gate whose operands all have values until a pass changes nothing, and
    the inputs and outputs are then sampled into their waveforms. */
module Simulator {
  import opened Results
  import opened Text
  import opened Netlist
  import opened Gates

  /** The values known during one stimulus step. */
  type Env = map<string, int>

  /** `env.get(name, 0)`: a node without a value reads as 0. */
  function Get(env: Env, name: string): int {
    if name in env then env[name] else 0
  }

  /** `env'` keeps every value of `env`. */
  predicate Extends(env: Env, env': Env) {
    forall x :: x in env ==> x in env' && env'[x] == env[x]
  }

  // ---- seeding ----

  /** The first `n` pairs of `zip(names, values)` put into a dictionary in
      order, so a later pair overwrites an earlier one with the same name. */
  function SeedUpTo(names: seq<string>, values: seq<int>, n: nat): (env: Env)
    requires n <= |names| && n <= |values|
    ensures forall x :: x in env <==> exists k :: 0 <= k < n && names[k] == x
  {
    if n == 0 then map[]
    else
      var env := SeedUpTo(names, values, n - 1);
      assert forall x :: x in env ==> exists k :: 0 <= k < n - 1 && names[k] == x;
      env[names[n - 1] := values[n - 1]]
  }

  /** `dict(zip(names, values))`: the pairs up to the shorter of the two lists. */
  function Seed(names: seq<string>, values: seq<int>): Env {
    SeedUpTo(names, values, if |names| < |values| then |names| else |values|)
  }

  /** A name takes the value paired with its last occurrence. */
  lemma {:induction false} SeedUpToLast(names: seq<string>, values: seq<int>, n: nat, k: nat)
    requires n <= |names| && n <= |values| && k < n
    requires forall j :: k < j < n ==> names[j] != names[k]
    ensures names[k] in SeedUpTo(names, values, n)
    ensures SeedUpTo(names, values, n)[names[k]] == values[k]
  {
    if k < n - 1 {
      SeedUpToLast(names, values, n - 1, k);
    }
  }

  /** The seeded nodes are the names paired with a value, and each holds the
      value of its last pair. */
  lemma {:induction false} SeedValues(names: seq<string>, values: seq<int>)
    ensures forall x :: x in Seed(names, values) <==>
      exists k :: 0 <= k < |names| && k < |values| && names[k] == x
    ensures forall k ::
      (&& 0 <= k < |names| && k < |values|
       && forall j :: k < j < |names| && j < |values| ==> names[j] != names[k])
      ==> names[k] in Seed(names, values) && Seed(names, values)[names[k]] == values[k]
  {
    var n := if |names| < |values| then |names| else |values|;
    forall k | 0 <= k < n && forall j :: k < j < |names| && j < |values| ==> names[j] != names[k]
      ensures names[k] in Seed(names, values) && Seed(names, values)[names[k]] == values[k]
    {
      SeedUpToLast(names, values, n, k);
    }
  }

  // ---- one pass over the gates ----

  /** The nodes some gate drives. */
  function Outputs(gates: seq<Gate>): set<string> {
    set g | g in gates :: g.output
  }

  /** A gate fires when its output has no value yet and every operand has one. */
  predicate Ready(g: Gate, env: Env) {
    g.output !in env && forall p :: p in g.operands ==> p in env
  }

  /** No gate can fire any more. */
  predicate Closed(gates: seq<Gate>, env: Env) {
    forall g :: g in gates ==> !Ready(g, env)
  }

  /** `[env[p] for p in params]`. */
  function Args(g: Gate, env: Env): seq<int>
    requires forall p :: p in g.operands ==> p in env
  {
    seq(|g.operands|, k requires 0 <= k < |g.operands| => env[g.operands[k]])
  }

  /** The environment during a pass and whether the pass has set a node. */
  datatype Scan = Scan(env: Env, changed: bool)

  /** One iteration of the inner `for` loop: skip a gate whose output has a
      value, evaluate one whose operands all have values, leave it
      otherwise. */
  function Visit(g: Gate, s: Scan): (r: Result<Scan, EvalError>)
    ensures !Ready(g, s.env) ==> r == Ok(s)
    ensures r.Err? ==> Ready(g, s.env) && EvalGate(g.kind, Args(g, s.env)) == Err(r.error)
    ensures r.Ok? ==> Extends(s.env, r.value.env) && r.value.env.Keys <= s.env.Keys + {g.output}
    ensures r.Ok? ==> (r.value.changed <==> s.changed || g.output in r.value.env.Keys - s.env.Keys)
    ensures r.Ok? && Ready(g, s.env) ==>
      g.output in r.value.env && EvalGate(g.kind, Args(g, s.env)) == Ok(r.value.env[g.output])
  {
    if g.output in s.env then Ok(s)
    else if forall p :: p in g.operands ==> p in s.env then
      match EvalGate(g.kind, Args(g, s.env))
      case Err(e) => Err(e)
      case Ok(v) => Ok(Scan(s.env[g.output := v], true))
    else Ok(s)
  }

  /** One pass of the inner `for` loop over the gates, in list order,
      starting with the flag cleared. */
  function Pass(gates: seq<Gate>, env: Env): (r: Result<Scan, EvalError>)
    ensures r.Ok? ==> Extends(env, r.value.env)
    ensures r.Ok? ==> r.value.env.Keys <= env.Keys + Outputs(gates)
    ensures r.Ok? ==> (r.value.changed <==> env.Keys < r.value.env.Keys)
    ensures r.Ok? && !r.value.changed ==> r.value.env == env && Closed(gates, env)
    decreases |gates|
  {
    if gates == [] then Ok(Scan(env, false))
    else
      var init, g := gates[..|gates| - 1], gates[|gates| - 1];
      assert forall h :: h in init ==> h in gates;
      match Pass(init, env)
      case Err(e) => Err(e)
      case Ok(s) => Visit(g, s)
  }

  /** Extending a pass by one gate. */
  lemma {:induction false} PassSnoc(gates: seq<Gate>, j: nat, env: Env)
    requires j < |gates|
    ensures Pass(gates[..j + 1], env) ==
      match Pass(gates[..j], env)
      case Err(e) => Err(e)
      case Ok(s) => Visit(gates[j], s)
  {
    assert gates[..j + 1][..j] == gates[..j];
  }

  /** A pass that fails on a prefix of the gates fails with that error. */
  lemma {:induction false} PassErrPrefix(gates: seq<Gate>, j: nat, env: Env)
    requires j <= |gates| && Pass(gates[..j], env).Err?
    ensures Pass(gates, env) == Pass(gates[..j], env)
    decreases |gates| - j
  {
    if j < |gates| {
      PassSnoc(gates, j, env);
      PassErrPrefix(gates, j + 1, env);
    } else {
      assert gates[..j] == gates;
    }
  }

  /** Setting a node of `o` that had no value leaves fewer nodes of `o`
      without one. */
  lemma {:induction false} FewerMissing<T>(o: set<T>, a: set<T>, b: set<T>)
    requires a < b && b <= a + o
    ensures |o - b| < |o - a|
  {
    var x :| x in b && x !in a;
    var d, d' := o - a, o - b;
    assert x in d - d';
    assert d == d' + (d - d') && d' * (d - d') == {};
  }

  // ---- settling one step ----

  /** The `while changed_flag` loop: passes until one sets nothing. The
      result keeps every seeded value, sets only driven nodes, and leaves no
      gate able to fire. */
  function Settle(gates: seq<Gate>, env: Env): (r: Result<Env, EvalError>)
    ensures r.Ok? ==> Extends(env, r.value)
    ensures r.Ok? ==> r.value.Keys <= env.Keys + Outputs(gates)
    ensures r.Ok? ==> Closed(gates, r.value)
    decreases |Outputs(gates) - env.Keys|
  {
    match Pass(gates, env)
    case Err(e) => Err(e)
    case Ok(s) =>
      if s.changed then
        FewerMissing(Outputs(gates), env.Keys, s.env.Keys);
        Settle(gates, s.env)
      else Ok(env)
  }

  /** The inner `for` loop of one pass, starting with the flag cleared: a
      gate whose output has a value is skipped, one whose operands all have
      values is evaluated and sets the flag. */
  method RunPass(gates: seq<Gate>, start: Env) returns (r: Result<Scan, EvalError>)
    ensures r == Pass(gates, start)
  {
    var env := start;
    var changed := false;
    for j := 0 to |gates|
      invariant Pass(gates[..j], start) == Ok(Scan(env, changed))
    {
      PassSnoc(gates, j, start);
      var g := gates[j];
      if g.output in env {
        continue;
      }
      if forall p :: p in g.operands ==> p in env {
        var v := EvalGate(g.kind, Args(g, env));
        if v.Err? {
          PassErrPrefix(gates, j + 1, start);
          return Err(v.error);
        }
        env := env[g.output := v.value];
        changed := true;
      }
    }
    assert gates[..|gates|] == gates;
    return Ok(Scan(env, changed));
  }

  /** The `while changed_flag` loop of one step: passes until a pass sets
      nothing. */
  method SettleEnv(gates: seq<Gate>, start: Env) returns (r: Result<Env, EvalError>)
    ensures r == Settle(gates, start)
  {
    var env := start;
    var changed := true;
    while changed
      invariant Settle(gates, start) == if changed then Settle(gates, env) else Ok(env)
      decreases |Outputs(gates) - env.Keys| + (if changed then 1 else 0)
    {
      var s := RunPass(gates, env);
      if s.Err? {
        return Err(s.error);
      }
      if s.value.changed {
        FewerMissing(Outputs(gates), env.Keys, s.value.env.Keys);
      }
      env, changed := s.value.env, s.value.changed;
    }
    return Ok(env);
  }

  // ---- what a settled environment holds ----

  /** Node `x` holds what some gate driving it computes from the values in
      `env`. */
  predicate Justified(gates: seq<Gate>, env: Env, x: string) {
    x in env &&
    exists g :: g in gates && g.output == x && (forall p :: p in g.operands ==> p in env) &&
      EvalGate(g.kind, Args(g, env)) == Ok(env[x])
  }

  /** Every value in `env` is either seeded or justified by a gate. */
  predicate Sound(gates: seq<Gate>, seed: Env, env: Env) {
    Extends(seed, env) && forall x :: x in env && x !in seed ==> Justified(gates, env, x)
  }

  /** A gate reads the same operand values in a larger environment. */
  lemma {:induction false} ArgsGrow(g: Gate, env: Env, env': Env)
    requires forall p :: p in g.operands ==> p in env
    requires Extends(env, env')
    ensures forall p :: p in g.operands ==> p in env'
    ensures Args(g, env') == Args(g, env)
  {
  }

  /** A justified value stays justified when further nodes are set. */
  lemma {:induction false} JustifiedGrows(gates: seq<Gate>, env: Env, env': Env, x: string)
    requires Justified(gates, env, x) && Extends(env, env')
    ensures Justified(gates, env', x)
  {
    var g :| g in gates && g.output == x && (forall p :: p in g.operands ==> p in env) &&
      EvalGate(g.kind, Args(g, env)) == Ok(env[x]);
    ArgsGrow(g, env, env');
  }

  /** A visit keeps an environment sound. */
  lemma {:induction false} VisitSound(gates: seq<Gate>, g: Gate, seed: Env, s: Scan)
    requires g in gates && Sound(gates, seed, s.env) && Visit(g, s).Ok?
    ensures Sound(gates, seed, Visit(g, s).value.env)
  {
    if Ready(g, s.env) {
      var v := EvalGate(g.kind, Args(g, s.env)).value;
      var env' := s.env[g.output := v];
      assert Visit(g, s).value.env == env';
      ArgsGrow(g, s.env, env');
      assert Justified(gates, env', g.output);
      forall x | x in env' && x !in seed
        ensures Justified(gates, env', x)
      {
        if x != g.output {
          JustifiedGrows(gates, s.env, env', x);
        }
      }
    }
  }

  /** A pass keeps an environment sound. */
  lemma {:induction false} PassSound(all: seq<Gate>, gates: seq<Gate>, seed: Env, env: Env)
    requires forall g :: g in gates ==> g in all
    requires Sound(all, seed, env) && Pass(gates, env).Ok?
    ensures Sound(all, seed, Pass(gates, env).value.env)
    decreases |gates|
  {
    if gates != [] {
      var init, g := gates[..|gates| - 1], gates[|gates| - 1];
      assert forall h :: h in init ==> h in gates;
      PassSound(all, init, seed, env);
      VisitSound(all, g, seed, Pass(init, env).value);
    }
  }

  /** Settling keeps an environment sound. */
  lemma {:induction false} SettleSound(gates: seq<Gate>, seed: Env, env: Env)
    requires Sound(gates, seed, env) && Settle(gates, env).Ok?
    ensures Sound(gates, seed, Settle(gates, env).value)
    decreases |Outputs(gates) - env.Keys|
  {
    var s := Pass(gates, env).value;
    PassSound(gates, gates, seed, env);
    if s.changed {
      FewerMissing(Outputs(gates), env.Keys, s.env.Keys);
      SettleSound(gates, seed, s.env);
    }
  }

  /** Every gate driving a node of `loop` reads a node of `loop`: a
      combinational cycle not broken by any value from outside. */
  predicate SelfSupporting(gates: seq<Gate>, loop: set<string>) {
    forall g :: g in gates && g.output in loop ==> exists p :: p in g.operands && p in loop
  }

  /** A pass sets no node of a self-supporting set that has no value yet. */
  lemma {:induction false} PassAvoids(all: seq<Gate>, gates: seq<Gate>, loop: set<string>, env: Env)
    requires forall g :: g in gates ==> g in all
    requires SelfSupporting(all, loop) && loop !! env.Keys && Pass(gates, env).Ok?
    ensures loop !! Pass(gates, env).value.env.Keys
    decreases |gates|
  {
    if gates != [] {
      var init, g := gates[..|gates| - 1], gates[|gates| - 1];
      assert forall h :: h in init ==> h in gates;
      PassAvoids(all, init, loop, env);
      var s := Pass(init, env).value;
      if Ready(g, s.env) {
        assert forall p :: p in g.operands ==> p !in loop;
      }
    }
  }

  /** Settling sets no node of a self-supporting set that has no value yet. */
  lemma {:induction false} SettleAvoids(gates: seq<Gate>, loop: set<string>, env: Env)
    requires SelfSupporting(gates, loop) && loop !! env.Keys && Settle(gates, env).Ok?
    ensures loop !! Settle(gates, env).value.Keys
    decreases |Outputs(gates) - env.Keys|
  {
    var s := Pass(gates, env).value;
    PassAvoids(gates, gates, loop, env);
    if s.changed {
      FewerMissing(Outputs(gates), env.Keys, s.env.Keys);
      SettleAvoids(gates, loop, s.env);
    }
  }

  /** Each operand of each gate is a known node or the output of an earlier
      gate in the list. */
  predicate FeedForward(gates: seq<Gate>, known: set<string>) {
    forall i, p :: 0 <= i < |gates| && p in gates[i].operands ==>
      p in known || exists j :: 0 <= j < i && gates[j].output == p
  }

  lemma {:induction false} DefinedFrom(gates: seq<Gate>, known: set<string>, env: Env, i: nat)
    requires FeedForward(gates, known) && known <= env.Keys && Closed(gates, env)
    requires i < |gates|
    ensures gates[i].output in env
    decreases i
  {
    forall p | p in gates[i].operands
      ensures p in env
    {
      if p !in known {
        var j :| 0 <= j < i && gates[j].output == p;
        DefinedFrom(gates, known, env, j);
      }
    }
    assert !Ready(gates[i], env);
  }

  /** An environment that holds the known nodes and in which no gate can
      fire defines the output of every gate of a list that is feed-forward
      in its listed order. */
  lemma {:induction false} SettledDefinesAll(gates: seq<Gate>, known: set<string>, env: Env)
    requires FeedForward(gates, known) && known <= env.Keys && Closed(gates, env)
    ensures forall i :: 0 <= i < |gates| ==> gates[i].output in env
  {
    forall i | 0 <= i < |gates|
      ensures gates[i].output in env
    {
      DefinedFrom(gates, known, env, i);
    }
  }

  /** Every gate has a known kind and enough operands. */
  predicate WellFormed(gates: seq<Gate>) {
    forall g :: g in gates ==> KnownKind(g.kind) && |g.operands| >= Arity(g.kind)
  }

  lemma {:induction false} PassOk(gates: seq<Gate>, env: Env)
    requires WellFormed(gates)
    ensures Pass(gates, env).Ok?
    decreases |gates|
  {
    if gates != [] {
      var init := gates[..|gates| - 1];
      assert forall h :: h in init ==> h in gates;
      PassOk(init, env);
    }
  }

  /** With well-formed gates settling cannot fail. */
  lemma {:induction false} SettleOk(gates: seq<Gate>, env: Env)
    requires WellFormed(gates)
    ensures Settle(gates, env).Ok?
    decreases |Outputs(gates) - env.Keys|
  {
    PassOk(gates, env);
    var s := Pass(gates, env).value;
    if s.changed {
      FewerMissing(Outputs(gates), env.Keys, s.env.Keys);
      SettleOk(gates, s.env);
    }
  }

  // ---- sampling the waveforms ----

  /** `input_signals + output_signals`: the sampled signals, in order. */
  function Signals(c: Circuit): seq<string> {
    c.inputs + c.outputs
  }

  /** `all_nodes`: the inputs, the gate outputs and the outputs. */
  function AllNodes(c: Circuit): set<string> {
    (set x | x in c.inputs) + Outputs(c.gates) + (set x | x in c.outputs)
  }

  lemma {:induction false} SignalsAreNodes(c: Circuit)
    ensures forall k :: 0 <= k < |Signals(c)| ==> Signals(c)[k] in AllNodes(c)
  {
    forall k | 0 <= k < |Signals(c)|
      ensures Signals(c)[k] in AllNodes(c)
    {
      if k < |c.inputs| {
        assert Signals(c)[k] in c.inputs;
      } else {
        assert Signals(c)[k] == c.outputs[k - |c.inputs|];
      }
    }
  }

  /** `waveform_map` before the first step: an empty list per node. */
  function Blank(c: Circuit): map<string, seq<int>> {
    map x | x in AllNodes(c) :: []
  }

  /** `n` copies of `v`. */
  function Repeat(n: nat, v: int): (r: seq<int>)
    ensures |r| == n && forall k :: 0 <= k < n ==> r[k] == v
  {
    if n == 0 then [] else Repeat(n - 1, v) + [v]
  }

  /** The `for sig in ...` loop of one step: every listed signal gets its
      value in `env`, 0 if it has none, appended once per time it is listed. */
  function Sample(waves: map<string, seq<int>>, sigs: seq<string>, env: Env): (r: map<string, seq<int>>)
    requires forall k :: 0 <= k < |sigs| ==> sigs[k] in waves
    ensures r.Keys == waves.Keys
    decreases |sigs|
  {
    if sigs == [] then waves
    else
      var init, x := sigs[..|sigs| - 1], sigs[|sigs| - 1];
      var w := Sample(waves, init, env);
      w[x := w[x] + [Get(env, x)]]
  }

  /** Sampling appends to the waveform of each node its value once per time
      the node is listed, and nothing to a node that is not listed. */
  lemma {:induction false} SampleAppends(waves: map<string, seq<int>>, sigs: seq<string>, env: Env, x: string)
    requires forall k :: 0 <= k < |sigs| ==> sigs[k] in waves
    requires x in waves
    ensures Sample(waves, sigs, env)[x] == waves[x] + Repeat(Count(sigs, x), Get(env, x))
    decreases |sigs|
  {
    if sigs != [] {
      var init, y := sigs[..|sigs| - 1], sigs[|sigs| - 1];
      SampleAppends(waves, init, env, x);
      assert Count(sigs, x) == Count(init, x) + (if y == x then 1 else 0);
      if y == x {
        var n := Count(init, x);
        assert Repeat(n + 1, Get(env, x)) == Repeat(n, Get(env, x)) + [Get(env, x)];
      }
    }
  }

  /** The waveform of node `x` over the steps' environments when it is
      listed `copies` times. */
  function Column(envs: seq<Env>, x: string, copies: nat): (r: seq<int>)
    ensures |r| == copies * |envs|
    decreases |envs|
  {
    if envs == [] then []
    else
      var init := envs[..|envs| - 1];
      assert copies * |envs| == copies * |init| + copies;
      Column(init, x, copies) + Repeat(copies, Get(envs[|envs| - 1], x))
  }

  /** The waveform map after sampling the environments of the steps so far. */
  function Waves(c: Circuit, envs: seq<Env>): (r: map<string, seq<int>>)
    ensures r.Keys == AllNodes(c)
    decreases |envs|
  {
    if envs == [] then Blank(c)
    else
      SignalsAreNodes(c);
      Sample(Waves(c, envs[..|envs| - 1]), Signals(c), envs[|envs| - 1])
  }

  /** Each node's waveform is its column over the steps, one sample per
      listing of the node per step. */
  lemma {:induction false} WavesColumn(c: Circuit, envs: seq<Env>, x: string)
    requires x in AllNodes(c)
    ensures Waves(c, envs)[x] == Column(envs, x, Count(Signals(c), x))
    decreases |envs|
  {
    if envs != [] {
      var init := envs[..|envs| - 1];
      SignalsAreNodes(c);
      WavesColumn(c, init, x);
      SampleAppends(Waves(c, init), Signals(c), envs[|envs| - 1], x);
    }
  }

  lemma {:induction false} WavesSnoc(c: Circuit, envs: seq<Env>, e: Env)
    ensures forall k :: 0 <= k < |Signals(c)| ==> Signals(c)[k] in Waves(c, envs)
    ensures Waves(c, envs + [e]) == Sample(Waves(c, envs), Signals(c), e)
  {
    SignalsAreNodes(c);
    assert (envs + [e])[..|envs|] == envs;
  }

  /** The environment a stimulus step settles to. */
  function StepEnv(c: Circuit, step: Step): Result<Env, EvalError> {
    Settle(c.gates, Seed(c.inputs, step.values))
  }

  function Settler(c: Circuit): Step -> Result<Env, EvalError> {
    step => StepEnv(c, step)
  }

  /** `simulate(circuit)`: every step settled in order, the first failing
      gate evaluation ending the simulation, then the waveforms sampled. */
  function Simulation(c: Circuit): Result<map<string, seq<int>>, EvalError> {
    var envs :- MapAll(c.stimulus, Settler(c));
    Ok(Waves(c, envs))
  }

  method Record(waves: map<string, seq<int>>, sigs: seq<string>, env: Env) returns (w: map<string, seq<int>>)
    requires forall k :: 0 <= k < |sigs| ==> sigs[k] in waves
    ensures w == Sample(waves, sigs, env)
  {
    w := waves;
    for k := 0 to |sigs|
      invariant w == Sample(waves, sigs[..k], env)
    {
      assert sigs[..k + 1][..k] == sigs[..k];
      w := w[sigs[k] := w[sigs[k]] + [Get(env, sigs[k])]];
    }
    assert sigs[..|sigs|] == sigs;
  }

  /** `simulate(circuit)` as written: seed, settle and sample each step. */
  method Simulate(c: Circuit) returns (r: Result<map<string, seq<int>>, EvalError>)
    ensures r == Simulation(c)
  {
    var waves := Blank(c);
    ghost var envs: seq<Env> := [];
    for i := 0 to |c.stimulus|
      invariant MapAll(c.stimulus[..i], Settler(c)) == Ok(envs)
      invariant waves == Waves(c, envs)
    {
      MapAllSnoc(c.stimulus, Settler(c), i, envs);
      var env := SettleEnv(c.gates, Seed(c.inputs, c.stimulus[i].values));
      if env.Err? {
        MapAllErrPrefix(c.stimulus, Settler(c), i + 1);
        return Err(env.error);
      }
      WavesSnoc(c, envs, env.value);
      waves := Record(waves, Signals(c), env.value);
      envs := envs + [env.value];
    }
    assert c.stimulus[..|c.stimulus|] == c.stimulus;
    return Ok(waves);
  }

  // ---- what a simulation produces ----

  /** A column of a node listed once holds one sample per step. */
  lemma {:induction false} ColumnSample(envs: seq<Env>, x: string, k: nat)
    requires k < |envs|
    ensures |Column(envs, x, 1)| == |envs|
    ensures Column(envs, x, 1)[k] == Get(envs[k], x)
    decreases |envs|
  {
    var init := envs[..|envs| - 1];
    if k < |init| {
      ColumnSample(init, x, k);
    }
  }

  /** The waveform map has a key per node, and a node listed `n` times among
      the inputs and outputs gets `n` samples per step; a node that is only
      driven internally keeps an empty waveform. */
  lemma {:induction false} SimulationShape(c: Circuit)
    requires Simulation(c).Ok?
    ensures Simulation(c).value.Keys == AllNodes(c)
    ensures forall x :: x in AllNodes(c) ==>
      |Simulation(c).value[x]| == Count(Signals(c), x) * |c.stimulus|
  {
    var envs := MapAll(c.stimulus, Settler(c)).value;
    forall x | x in AllNodes(c)
      ensures |Simulation(c).value[x]| == Count(Signals(c), x) * |c.stimulus|
    {
      WavesColumn(c, envs, x);
    }
  }

  /** The simulation fails exactly when some step's settling fails, and then
      with the error of the first such step. */
  lemma {:induction false} SimulationFails(c: Circuit)
    ensures Simulation(c).Ok? <==> forall k :: 0 <= k < |c.stimulus| ==> StepEnv(c, c.stimulus[k]).Ok?
    ensures Simulation(c).Err? ==>
      exists k :: 0 <= k < |c.stimulus| && StepEnv(c, c.stimulus[k]) == Err(Simulation(c).error) &&
        forall j :: 0 <= j < k ==> StepEnv(c, c.stimulus[j]).Ok?
  {
    var m := MapAll(c.stimulus, Settler(c));
    assert forall k :: 0 <= k < |c.stimulus| ==> Settler(c)(c.stimulus[k]) == StepEnv(c, c.stimulus[k]);
    if m.Err? {
      assert Simulation(c) == Err(m.error);
    }
  }

  /** Sample `k` of a signal listed once is its value, or 0, in the
      environment step `k` settles to. */
  lemma {:induction false} SimulationSamples(c: Circuit, x: string, k: nat)
    requires Simulation(c).Ok? && Count(Signals(c), x) == 1 && k < |c.stimulus|
    ensures x in Simulation(c).value
    ensures StepEnv(c, c.stimulus[k]).Ok?
    ensures |Simulation(c).value[x]| == |c.stimulus|
    ensures Simulation(c).value[x][k] == Get(StepEnv(c, c.stimulus[k]).value, x)
  {
    var envs := MapAll(c.stimulus, Settler(c)).value;
    assert Settler(c)(c.stimulus[k]) == Ok(envs[k]);
    assert x in AllNodes(c) by {
      SignalsAreNodes(c);
      assert x in Signals(c);
      var i :| 0 <= i < |Signals(c)| && Signals(c)[i] == x;
    }
    WavesColumn(c, envs, x);
    ColumnSample(envs, x, k);
  }

  /** The settled environment of a step keeps the seeded inputs and holds
      at every other node a value that a gate driving it computes. */
  lemma {:induction false} StepSound(c: Circuit, step: Step)
    requires StepEnv(c, step).Ok?
    ensures Sound(c.gates, Seed(c.inputs, step.values), StepEnv(c, step).value)
  {
    SettleSound(c.gates, Seed(c.inputs, step.values), Seed(c.inputs, step.values));
  }

  /** With a value for every name, every name is seeded. */
  lemma {:induction false} SeedCovers(names: seq<string>, values: seq<int>)
    requires |values| >= |names|
    ensures (set x | x in names) <= Seed(names, values).Keys
  {
    forall x | x in names
      ensures x in Seed(names, values)
    {
      var k :| 0 <= k < |names| && names[k] == x;
    }
  }

  /** Only names are seeded. */
  lemma {:induction false} SeedWithin(names: seq<string>, values: seq<int>)
    ensures Seed(names, values).Keys <= set x | x in names
  {
  }

  /** An input listed once among the signals samples its stimulus value. */
  lemma {:induction false} InputSamples(c: Circuit, i: nat, k: nat)
    requires Simulation(c).Ok? && i < |c.inputs| && Count(Signals(c), c.inputs[i]) == 1
    requires k < |c.stimulus| && i < |c.stimulus[k].values|
    ensures c.inputs[i] in Simulation(c).value && |Simulation(c).value[c.inputs[i]]| == |c.stimulus|
    ensures Simulation(c).value[c.inputs[i]][k] == c.stimulus[k].values[i]
  {
    var x, values := c.inputs[i], c.stimulus[k].values;
    SimulationSamples(c, x, k);
    assert Signals(c)[i] == x;
    CountOnce(Signals(c), i, x);
    var n := if |c.inputs| < |values| then |c.inputs| else |values|;
    assert forall j :: i < j < n ==> c.inputs[j] == Signals(c)[j];
    SeedUpToLast(c.inputs, values, n, i);
  }

  /** The nodes of a combinational cycle that no input breaks read 0. */
  lemma {:induction false} LoopsReadLow(c: Circuit, step: Step, loop: set<string>)
    requires SelfSupporting(c.gates, loop) && loop !! (set x | x in c.inputs)
    requires StepEnv(c, step).Ok?
    ensures forall x :: x in loop ==> Get(StepEnv(c, step).value, x) == 0
  {
    SeedWithin(c.inputs, step.values);
    SettleAvoids(c.gates, loop, Seed(c.inputs, step.values));
  }

  /** When every stimulus value is given and the gates can be listed in
      some order (`order`) that is feed-forward from the inputs, every gate
      output has a value after settling, however the netlist itself lists
      the gates: the passes repeat until the out-of-order ones have fired. */
  lemma {:induction false} FeedForwardDefined(c: Circuit, step: Step, order: seq<Gate>)
    requires forall g :: g in order <==> g in c.gates
    requires FeedForward(order, set x | x in c.inputs)
    requires |step.values| >= |c.inputs| && StepEnv(c, step).Ok?
    ensures forall i :: 0 <= i < |c.gates| ==> c.gates[i].output in StepEnv(c, step).value
  {
    var env := StepEnv(c, step).value;
    SeedCovers(c.inputs, step.values);
    assert Closed(order, env);
    SettledDefinesAll(order, (set x | x in c.inputs), env);
    forall i | 0 <= i < |c.gates|
      ensures c.gates[i].output in env
    {
      assert c.gates[i] in order;
      var j :| 0 <= j < |order| && order[j] == c.gates[i];
    }
  }

  /** No two different gates drive the same node. */
  predicate UniqueDrivers(gates: seq<Gate>) {
    forall g, h :: g in gates && h in gates && g.output == h.output ==> g == h
  }

  /** A gate reads the same arguments from two environments that agree on
      its operands. */
  lemma {:induction false} ArgsAgree(g: Gate, e1: Env, e2: Env)
    requires forall p :: p in g.operands ==> p in e1 && p in e2 && e1[p] == e2[p]
    ensures Args(g, e1) == Args(g, e2)
  {
  }

  /** Justification only asks which gates there are, not their order. */
  lemma {:induction false} SoundSameGates(gates: seq<Gate>, order: seq<Gate>, seed: Env, env: Env)
    requires forall g :: g in order <==> g in gates
    requires Sound(gates, seed, env)
    ensures Sound(order, seed, env)
  {
    forall x | x in env && x !in seed
      ensures Justified(order, env, x)
    {
      var g :| g in gates && g.output == x && (forall p :: p in g.operands ==> p in env) &&
        EvalGate(g.kind, Args(g, env)) == Ok(env[x]);
      assert g in order;
    }
  }

  /** Two sound environments that give every gate output of a feed-forward
      list with unique drivers a value agree on each of those outputs: each
      value is forced by the values the gate reads. */
  lemma {:induction false} SoundAgreeAt(order: seq<Gate>, seed: Env, e1: Env, e2: Env, i: nat)
    requires FeedForward(order, seed.Keys) && UniqueDrivers(order)
    requires Sound(order, seed, e1) && Sound(order, seed, e2)
    requires forall j :: 0 <= j < |order| ==> order[j].output in e1 && order[j].output in e2
    requires i < |order|
    ensures e1[order[i].output] == e2[order[i].output]
    decreases i
  {
    var g, x := order[i], order[i].output;
    if x !in seed {
      forall p | p in g.operands
        ensures p in e1 && p in e2 && e1[p] == e2[p]
      {
        if p !in seed {
          var j :| 0 <= j < i && order[j].output == p;
          SoundAgreeAt(order, seed, e1, e2, j);
        }
      }
      ArgsAgree(g, e1, e2);
      var g1 :| g1 in order && g1.output == x && (forall p :: p in g1.operands ==> p in e1) &&
        EvalGate(g1.kind, Args(g1, e1)) == Ok(e1[x]);
      var g2 :| g2 in order && g2.output == x && (forall p :: p in g2.operands ==> p in e2) &&
        EvalGate(g2.kind, Args(g2, e2)) == Ok(e2[x]);
      assert g1 == g && g2 == g;
    }
  }

  /** A node that is seeded or driven has the same value in two sound
      environments that define every gate output. */
  lemma {:induction false} SoundAgreeOn(order: seq<Gate>, seed: Env, e1: Env, e2: Env, x: string)
    requires FeedForward(order, seed.Keys) && UniqueDrivers(order)
    requires Sound(order, seed, e1) && Sound(order, seed, e2)
    requires forall j :: 0 <= j < |order| ==> order[j].output in e1 && order[j].output in e2
    requires x in seed.Keys + Outputs(order)
    ensures x in e1 && x in e2 && e1[x] == e2[x]
  {
    if x !in seed {
      var g :| g in order && g.output == x;
      var j :| 0 <= j < |order| && order[j] == g;
      SoundAgreeAt(order, seed, e1, e2, j);
    }
  }

  /** Two sound environments in which no gate of a feed-forward list with
      unique drivers can fire, and which set nothing but seeded nodes and
      gate outputs, are the same environment. */
  lemma {:induction false} SettledAgree(order: seq<Gate>, seed: Env, e1: Env, e2: Env)
    requires FeedForward(order, seed.Keys) && UniqueDrivers(order)
    requires Sound(order, seed, e1) && Sound(order, seed, e2)
    requires Closed(order, e1) && Closed(order, e2)
    requires e1.Keys <= seed.Keys + Outputs(order) && e2.Keys <= seed.Keys + Outputs(order)
    ensures e1 == e2
  {
    SettledDefinesAll(order, seed.Keys, e1);
    SettledDefinesAll(order, seed.Keys, e2);
    forall x | x in e1 || x in e2
      ensures x in e1 && x in e2 && e1[x] == e2[x]
    {
      SoundAgreeOn(order, seed, e1, e2, x);
    }
  }

  /** What settling a listing of the gates guarantees, stated over another
      listing of the same gates. */
  lemma {:induction false} SettledOver(gates: seq<Gate>, order: seq<Gate>, seed: Env)
    requires forall g :: g in order <==> g in gates
    requires Settle(gates, seed).Ok?
    ensures var e := Settle(gates, seed).value;
      Sound(order, seed, e) && Closed(order, e) && e.Keys <= seed.Keys + Outputs(order)
  {
    var e := Settle(gates, seed).value;
    SettleSound(gates, seed, seed);
    SoundSameGates(gates, order, seed, e);
    assert Outputs(gates) == Outputs(order);
  }

  /** Settling is independent of the order in which the gates are listed
      when no two gates drive the same node and some ordering of them is
      feed-forward from the seeded nodes: any two listings of the same
      gates that both settle reach the same environment. */
  lemma {:induction false} SettleOrderFree(gates: seq<Gate>, gates': seq<Gate>, order: seq<Gate>, seed: Env)
    requires forall g :: g in gates' <==> g in gates
    requires forall g :: g in order <==> g in gates
    requires FeedForward(order, seed.Keys) && UniqueDrivers(gates)
    requires Settle(gates, seed).Ok? && Settle(gates', seed).Ok?
    ensures Settle(gates, seed) == Settle(gates', seed)
  {
    SettledOver(gates, order, seed);
    SettledOver(gates', order, seed);
    assert UniqueDrivers(order);
    SettledAgree(order, seed, Settle(gates, seed).value, Settle(gates', seed).value);
  }

  /** With well-formed gates the simulation cannot fail. */
  lemma {:induction false} SimulationOk(c: Circuit)
    requires WellFormed(c.gates)
    ensures Simulation(c).Ok?
  {
    forall k | 0 <= k < |c.stimulus|
      ensures Settler(c)(c.stimulus[k]).Ok?
    {
      SettleOk(c.gates, Seed(c.inputs, c.stimulus[k].values));
    }
  }
  /** A stimulus step settles to the same environment however the gates of
      a well-formed circuit with unique drivers and a feed-forward ordering
      are listed. */
  lemma {:induction false} StepOrderFree(c: Circuit, gates: seq<Gate>, order: seq<Gate>, step: Step)
    requires forall g :: g in gates <==> g in c.gates
    requires forall g :: g in order <==> g in c.gates
    requires FeedForward(order, set x | x in c.inputs)
    requires UniqueDrivers(c.gates) && WellFormed(c.gates)
    requires |step.values| >= |c.inputs|
    ensures StepEnv(c, step) == StepEnv(c.(gates := gates), step)
  {
    var seed := Seed(c.inputs, step.values);
    SeedCovers(c.inputs, step.values);
    SeedWithin(c.inputs, step.values);
    assert seed.Keys == set x | x in c.inputs;
    assert WellFormed(gates);
    SettleOk(c.gates, seed);
    SettleOk(gates, seed);
    SettleOrderFree(c.gates, gates, order, seed);
  }

  /** The waveform map depends on the gates only through the nodes they
      drive. */
  lemma {:induction false} WavesSameNodes(c: Circuit, c': Circuit, envs: seq<Env>)
    requires Signals(c') == Signals(c) && AllNodes(c') == AllNodes(c)
    ensures Waves(c, envs) == Waves(c', envs)
  {
    forall x | x in AllNodes(c)
      ensures Waves(c, envs)[x] == Waves(c', envs)[x]
    {
      WavesColumn(c, envs, x);
      WavesColumn(c', envs, x);
    }
  }

  /** Re-listing the gates of a well-formed circuit with unique drivers and
      a feed-forward ordering leaves the waveforms unchanged. */
  lemma {:induction false} SimulationOrderFree(c: Circuit, gates: seq<Gate>, order: seq<Gate>)
    requires forall g :: g in gates <==> g in c.gates
    requires forall g :: g in order <==> g in c.gates
    requires FeedForward(order, set x | x in c.inputs)
    requires UniqueDrivers(c.gates) && WellFormed(c.gates)
    requires forall k :: 0 <= k < |c.stimulus| ==> |c.stimulus[k].values| >= |c.inputs|
    ensures Simulation(c) == Simulation(c.(gates := gates))
  {
    var c' := c.(gates := gates);
    assert WellFormed(gates);
    SimulationOk(c);
    SimulationOk(c');
    var envs := MapAll(c.stimulus, Settler(c)).value;
    var envs' := MapAll(c'.stimulus, Settler(c')).value;
    forall k | 0 <= k < |c.stimulus|
      ensures envs[k] == envs'[k]
    {
      StepOrderFree(c, gates, order, c.stimulus[k]);
    }
    assert envs == envs';
    assert Outputs(gates) == Outputs(c.gates);
    WavesSameNodes(c, c', envs);
  }


  // ---- bit values ----

  /** Every value in `env` is 0 or 1. */
  predicate AllBits(env: Env) {
    forall x :: x in env ==> IsBit(env[x])
  }

  lemma {:induction false} SeedBits(names: seq<string>, values: seq<int>, n: nat)
    requires n <= |names| && n <= |values|
    requires forall k :: 0 <= k < |values| ==> IsBit(values[k])
    ensures AllBits(SeedUpTo(names, values, n))
  {
    if n > 0 {
      SeedBits(names, values, n - 1);
    }
  }

  /** Gates fed bits compute bits, so a pass keeps an environment of bits. */
  lemma {:induction false} PassBits(gates: seq<Gate>, env: Env)
    requires AllBits(env) && Pass(gates, env).Ok?
    ensures AllBits(Pass(gates, env).value.env)
    decreases |gates|
  {
    if gates != [] {
      var init, g := gates[..|gates| - 1], gates[|gates| - 1];
      PassBits(init, env);
      var s := Pass(init, env).value;
      if Ready(g, s.env) {
        EvalGateBit(g.kind, Args(g, s.env));
      }
    }
  }

  lemma {:induction false} SettleBits(gates: seq<Gate>, env: Env)
    requires AllBits(env) && Settle(gates, env).Ok?
    ensures AllBits(Settle(gates, env).value)
    decreases |Outputs(gates) - env.Keys|
  {
    var s := Pass(gates, env).value;
    PassBits(gates, env);
    if s.changed {
      FewerMissing(Outputs(gates), env.Keys, s.env.Keys);
      SettleBits(gates, s.env);
    }
  }

  /** A step whose stimulus values are bits settles to bits, and every node
      reads 0 or 1. */
  lemma {:induction false} StepBits(c: Circuit, step: Step, x: string)
    requires forall k :: 0 <= k < |step.values| ==> IsBit(step.values[k])
    requires StepEnv(c, step).Ok?
    ensures IsBit(Get(StepEnv(c, step).value, x))
  {
    var n := if |c.inputs| < |step.values| then |c.inputs| else |step.values|;
    SeedBits(c.inputs, step.values, n);
    SettleBits(c.gates, Seed(c.inputs, step.values));
  }

  lemma {:induction false} ColumnBits(envs: seq<Env>, x: string, copies: nat)
    requires forall j :: 0 <= j < |envs| ==> IsBit(Get(envs[j], x))
    ensures forall m :: 0 <= m < |Column(envs, x, copies)| ==> IsBit(Column(envs, x, copies)[m])
    decreases |envs|
  {
    if envs != [] {
      ColumnBits(envs[..|envs| - 1], x, copies);
    }
  }

  /** When every stimulus value is a bit, every sample of every waveform is
      a bit. */
  lemma {:induction false} SimulationBits(c: Circuit, x: string)
    requires forall k, i :: 0 <= k < |c.stimulus| && 0 <= i < |c.stimulus[k].values| ==>
      IsBit(c.stimulus[k].values[i])
    requires Simulation(c).Ok? && x in Simulation(c).value
    ensures forall m :: 0 <= m < |Simulation(c).value[x]| ==> IsBit(Simulation(c).value[x][m])
  {
    var envs := MapAll(c.stimulus, Settler(c)).value;
    forall j | 0 <= j < |envs|
      ensures IsBit(Get(envs[j], x))
    {
      assert Settler(c)(c.stimulus[j]) == Ok(envs[j]);
      StepBits(c, c.stimulus[j], x);
    }
    WavesColumn(c, envs, x);
    ColumnBits(envs, x, Count(Signals(c), x));
  }
}
