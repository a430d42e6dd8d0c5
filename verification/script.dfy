/**
  Client code as data. The scope handlers passed to IfBlock, WhileBlock and
  TryBlock are callbacks that call back into the same builder; here a
  handler is a script of builder calls, and `Run` replays a script against a
  builder state. Stand-ins are referred to by their position in the
  environment of stand-ins created so far; stand-ins created inside a
  handler are visible only inside it.
 */
module Script {
  import opened Wrappers
  import opened Kinds
  import opened Standins
  import B = Bytecode
  import O = Operation

  datatype Call =
    | New(literal: B.Literal)
    | Import(live: O.LiveObject)
    | Invoke(receiver: nat, meth: Method, args: seq<nat>)
    | Request(target: nat)
    | If(condition: nat, onTrue: seq<Call>, onFalse: Handler)
    | While(condition: nat, loopBody: seq<Call>, update: Handler)
    | Try(tryBody: seq<Call>, except: Handler)
    | Break
    | Continue
    | ReturnStatus(status: B.Int32)
    | ReturnStatusOf(statusRef: nat)
    | FailureCode

  /** The optional second handler of IfBlock, WhileBlock and TryBlock. */
  datatype Handler = Absent | Given(calls: seq<Call>)

  // ---------------------------------------------------------------------------
  // Size (termination measure)
  // ---------------------------------------------------------------------------

  function Size(s: seq<Call>): nat {
    if |s| == 0 then 0 else CallSize(s[0]) + Size(s[1..])
  }

  function CallSize(c: Call): nat {
    1 + match c
        case If(_, t, f) => Size(t) + OptSize(f)
        case While(_, t, f) => Size(t) + OptSize(f)
        case Try(t, f) => Size(t) + OptSize(f)
        case _ => 0
  }

  function OptSize(o: Handler): nat {
    match o
    case Given(calls) => Size(calls)
    case Absent => 0
  }

  // ---------------------------------------------------------------------------
  // Static typing (what the C++ compiler checks for the client)
  // ---------------------------------------------------------------------------

  /** The elements of `xs` at positions `idx`. */
  function Select<T>(xs: seq<T>, idx: seq<nat>): (ys: seq<T>)
    requires forall j | 0 <= j < |idx| :: idx[j] < |xs|
    ensures |ys| == |idx|
    ensures forall j | 0 <= j < |idx| :: ys[j] == xs[idx[j]]
  {
    seq(|idx|, j requires 0 <= j < |idx| => xs[idx[j]])
  }

  /** The kinds of the stand-ins a call adds to the environment (none or one). */
  function Pushed(kinds: seq<Kind>, c: Call): seq<Kind> {
    match c
    case New(lit) => [B.LiteralKind(lit)]
    case Import(obj) => [O.ImportedKind(obj.kind)]
    case Invoke(r, m, _) =>
      if r < |kinds| && SignatureOf(kinds[r], m).Some? then OptionToSeq(SignatureOf(kinds[r], m).value.result)
      else []
    case FailureCode => [Int]
    case _ => []
  }

  predicate Typed(kinds: seq<Kind>, s: seq<Call>)
    decreases Size(s), 1
  {
    |s| == 0 || (CallTyped(kinds, s[0]) && Typed(kinds + Pushed(kinds, s[0]), s[1..]))
  }

  predicate OptTyped(kinds: seq<Kind>, o: Handler)
    decreases OptSize(o), 2
  {
    o.Given? ==> Typed(kinds, o.calls)
  }

  predicate CallTyped(kinds: seq<Kind>, c: Call)
    decreases CallSize(c), 0
  {
    match c
    case Invoke(r, m, args) =>
      && r < |kinds|
      && (forall j | 0 <= j < |args| :: args[j] < |kinds|)
      && Accepts(kinds[r], m, Select(kinds, args))
    case Request(t) => t < |kinds|
    case If(cond, t, f) => cond < |kinds| && kinds[cond] == Bool && Typed(kinds, t) && OptTyped(kinds, f)
    case While(cond, t, f) => cond < |kinds| && kinds[cond] == Bool && Typed(kinds, t) && OptTyped(kinds, f)
    case Try(t, f) => Typed(kinds, t) && OptTyped(kinds, f)
    case ReturnStatusOf(st) => st < |kinds| && kinds[st] == Int
    case _ => true
  }

  /** Every stand-in of the environment belongs to this operation and names an allocated operand. */
  predicate EnvOk(b: O.Builder, env: seq<StandIn>) {
    forall k | 0 <= k < |env| :: env[k].owner == b.self && O.Allocated(b, env[k].operand)
  }

  lemma KindsOfAppend(env: seq<StandIn>, more: seq<StandIn>)
    ensures KindsOf(env + more) == KindsOf(env) + KindsOf(more)
  {
  }

  lemma KindsOfSelect(env: seq<StandIn>, idx: seq<nat>)
    requires forall j | 0 <= j < |idx| :: idx[j] < |env|
    ensures KindsOf(Select(env, idx)) == Select(KindsOf(env), idx)
  {
  }

  // ---------------------------------------------------------------------------
  // Replaying client code against the builder
  // ---------------------------------------------------------------------------

  /**
    Runs a script in the current scope. Whatever it does, the cursor ends
    where it started, the state stays well-formed, and only the current
    scope and scopes created below it change.
   */
  function Run(b: O.Builder, env: seq<StandIn>, s: seq<Call>): (r: O.Builder)
    requires O.WellFormed(b) && EnvOk(b, env) && Typed(KindsOf(env), s)
    ensures O.WellFormed(r)
    ensures r.current == b.current
    ensures O.Grows(b, r, b.current)
    decreases Size(s), 3
  {
    if |s| == 0 then b
    else
      var (b1, env1) := Step(b, env, s[0]);
      var r := Run(b1, env1, s[1..]);
      O.GrowsTransitive(b, b1, r, b.current);
      r
  }

  /** One builder call; returns the new state and the environment extended by the call's result. */
  function Step(b: O.Builder, env: seq<StandIn>, c: Call): (r: (O.Builder, seq<StandIn>))
    requires O.WellFormed(b) && EnvOk(b, env) && CallTyped(KindsOf(env), c)
    ensures O.WellFormed(r.0)
    ensures r.0.current == b.current
    ensures O.Grows(b, r.0, b.current)
    ensures EnvOk(r.0, r.1)
    ensures KindsOf(r.1) == KindsOf(env) + Pushed(KindsOf(env), c)
    decreases CallSize(c), 2
  {
    if c.If? || c.While? || c.Try? then (Region(b, env, c), env) else Leaf(b, env, c)
  }

  /** IfBlock, WhileBlock or TryBlock, with the condition operand as the region's input. */
  function Region(b: O.Builder, env: seq<StandIn>, c: Call): (r: O.Builder)
    requires c.If? || c.While? || c.Try?
    requires O.WellFormed(b) && EnvOk(b, env) && CallTyped(KindsOf(env), c)
    ensures O.WellFormed(r)
    ensures r.current == b.current
    ensures O.Grows(b, r, b.current)
    ensures EnvOk(r, env)
    decreases CallSize(c), 1
  {
    match c
    case If(cond, t, f) => Block(b, env, B.IfConstruct, [env[cond].operand], t, f)
    case While(cond, t, f) => Block(b, env, B.WhileConstruct, [env[cond].operand], t, f)
    case Try(t, f) => Block(b, env, B.TryConstruct, [], t, f)
  }

  /** A call that opens no scope. */
  function Leaf(b: O.Builder, env: seq<StandIn>, c: Call): (r: (O.Builder, seq<StandIn>))
    requires !c.If? && !c.While? && !c.Try?
    requires O.WellFormed(b) && EnvOk(b, env) && CallTyped(KindsOf(env), c)
    ensures O.WellFormed(r.0)
    ensures r.0.current == b.current
    ensures O.Grows(b, r.0, b.current)
    ensures EnvOk(r.0, r.1)
    ensures KindsOf(r.1) == KindsOf(env) + Pushed(KindsOf(env), c)
  {
    if c.Invoke? then CallStep(b, env, c.receiver, c.meth, c.args)
    else if c.New? || c.Import? || c.FailureCode? then Simple(b, env, c)
    else (Plain(b, env, c), env)
  }

  /** A call that creates one stand-in and no scope. */
  function Simple(b: O.Builder, env: seq<StandIn>, c: Call): (r: (O.Builder, seq<StandIn>))
    requires c.New? || c.Import? || c.FailureCode?
    requires O.WellFormed(b) && EnvOk(b, env)
    ensures O.WellFormed(r.0)
    ensures r.0.current == b.current
    ensures O.Grows(b, r.0, b.current)
    ensures EnvOk(r.0, r.1)
    ensures KindsOf(r.1) == KindsOf(env) + Pushed(KindsOf(env), c)
  {
    match c
    case New(lit) =>
      var (b1, x) := O.NewValue(b, lit);
      O.AppendedGrows(b, b1, B.Instruction(B.Create(lit), [], Some(x.operand)));
      KindsOfAppend(env, [x]);
      (b1, env + [x])
    case Import(obj) =>
      var (b1, x) := O.Import(b, obj);
      KindsOfAppend(env, [x]);
      (b1, env + [x])
    case FailureCode =>
      var (b1, x) := O.GetCurrentFailureCode(b);
      O.AppendedGrows(b, b1, B.Instruction(B.FailureCode, [], Some(b.nextId)));
      KindsOfAppend(env, [x]);
      (b1, env + [x])
  }

  /** A call that creates neither a stand-in nor a scope. */
  function Plain(b: O.Builder, env: seq<StandIn>, c: Call): (r: O.Builder)
    requires c.Request? || c.Break? || c.Continue? || c.ReturnStatus? || c.ReturnStatusOf?
    requires O.WellFormed(b) && EnvOk(b, env) && CallTyped(KindsOf(env), c)
    ensures O.WellFormed(r)
    ensures r.current == b.current
    ensures O.Grows(b, r, b.current)
    ensures EnvOk(r, env)
  {
    match c
    case Request(t) =>
      O.RequestResponseFor(b, env[t]).0
    case Break =>
      var r := O.BreakLoop(b);
      O.AppendedGrows(b, r, B.Instruction(B.Break, [], None));
      r
    case Continue =>
      var r := O.ContinueLoop(b);
      O.AppendedGrows(b, r, B.Instruction(B.Continue, [], None));
      r
    case ReturnStatus(code) =>
      var r := O.ReturnOperationStatus(b, code);
      O.AppendedGrows(b, r, B.Instruction(B.ReturnStatusLiteral(code), [], None));
      r
    case ReturnStatusOf(st) =>
      var r := O.ReturnOperationStatusOf(b, env[st]);
      O.AppendedGrows(b, r, B.Instruction(B.ReturnStatusOperand, [env[st].operand], None));
      r
  }

  /** A stand-in method call; its result, if the signature has one, joins the environment. */
  function CallStep(b: O.Builder, env: seq<StandIn>, recv: nat, m: Method, args: seq<nat>)
    : (r: (O.Builder, seq<StandIn>))
    requires O.WellFormed(b) && EnvOk(b, env) && CallTyped(KindsOf(env), Invoke(recv, m, args))
    ensures O.WellFormed(r.0)
    ensures r.0.current == b.current
    ensures O.Grows(b, r.0, b.current)
    ensures EnvOk(r.0, r.1)
    ensures KindsOf(r.1) == KindsOf(env) + Pushed(KindsOf(env), Invoke(recv, m, args))
  {
    var actual := Select(env, args);
    KindsOfSelect(env, args);
    var (b1, out) := O.Invoke(b, env[recv], m, actual);
    O.AppendedGrows(b, b1, B.Instruction(O.OpcodeFor(env[recv].kind, m), [env[recv].operand] + OperandsOf(actual),
                                         if out.Some? then Some(b.nextId) else None));
    KindsOfAppend(env, OptionToSeq(out));
    (b1, env + OptionToSeq(out))
  }

  /**
    Makes `scope` current, runs the handler there, and restores the scope
    that was current before.
   */
  function Within(b: O.Builder, scope: B.ScopeId, env: seq<StandIn>, s: seq<Call>): (r: O.Builder)
    requires O.WellFormed(b) && scope < |b.scopes| && EnvOk(b, env) && Typed(KindsOf(env), s)
    ensures O.WellFormed(r)
    ensures r.current == b.current
    ensures O.Grows(b, r, scope)
    decreases Size(s), 4
  {
    var inner := Run(b.(current := scope), env, s);
    inner.(current := b.current)
  }

  /**
    IfBlock / WhileBlock / TryBlock: one region instruction in the current
    scope, a child scope filled by the required handler and, only when the
    optional handler is given, a second child scope filled by it. Afterwards
    the enclosing scope is current again.
   */
  function Block(b: O.Builder, env: seq<StandIn>, c: B.Construct, inputs: seq<B.OperandId>,
                 first: seq<Call>, second: Handler): (r: O.Builder)
    requires O.WellFormed(b) && EnvOk(b, env)
    requires forall x | x in inputs :: O.Allocated(b, x)
    requires Typed(KindsOf(env), first) && OptTyped(KindsOf(env), second)
    ensures O.WellFormed(r)
    ensures r.current == b.current
    ensures O.Grows(b, r, b.current)
    ensures O.RegionAdded(b, r, c, inputs, second.Given?)
    decreases Size(first) + OptSize(second), 5
  {
    var (b1, f, g) := O.OpenRegion(b, c, inputs, second.Given?);
    assert O.Grows(b, b1, b.current);
    assert O.RegionAdded(b, b1, c, inputs, second.Given?);
    var b2 := Within(b1, f, env, first);
    O.GrowsThroughChild(b, b1, b2, b.current, f);
    O.RegionAddedKept(b, b1, b2, c, inputs, second.Given?, f);
    if second.Given? then
      var b3 := Within(b2, g.value, env, second.calls);
      O.GrowsThroughChild(b, b2, b3, b.current, g.value);
      O.RegionAddedKept(b, b2, b3, c, inputs, second.Given?, g.value);
      b3
    else
      b2
  }
}
