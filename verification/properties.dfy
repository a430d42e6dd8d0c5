/**
  Properties of whole client programs run against the builder: mixed
  connections, response requests, and where instructions land once a block
  builder has returned.
 */
module Properties {
  import opened Wrappers
  import opened Kinds
  import opened Standins
  import B = Bytecode
  import O = Operation
  import S = Script

  /** Once imports span two connections, nothing the client does afterwards can rescue the operation. */
  lemma {:induction false} MixedImportsStayMixed(b: O.Builder, env: seq<StandIn>, s: seq<S.Call>)
    requires O.WellFormed(b) && S.EnvOk(b, env) && S.Typed(KindsOf(env), s)
    requires O.SpansConnections(b)
    ensures O.Admission(S.Run(b, env, s)) == O.Fails
  {
    var r := S.Run(b, env, s);
    var i, j :| 0 <= i < |b.imports| && 0 <= j < |b.imports| && b.imports[i].connection != b.imports[j].connection;
    assert r.imports[i] == b.imports[i] && r.imports[j] == b.imports[j];
  }

  /**
    A client program whose first two calls import objects of two different
    connections fails, whatever it does afterwards.
   */
  lemma TwoConnectionsFail(self: ProgramId, s: seq<S.Call>)
    requires |s| >= 2 && s[0].Import? && s[1].Import?
    requires s[0].live.connection != s[1].live.connection
    requires S.Typed([], s)
    ensures O.Admission(S.Run(O.Init(self), [], s)) == O.Fails
  {
    var b0 := O.Init(self);
    assert KindsOf([]) == [];
    var (b1, env1) := S.Step(b0, [], s[0]);
    ImportStepRecords(b0, [], s[0]);
    assert S.Typed(KindsOf(env1), s[1..]);
    var (b2, env2) := S.Step(b1, env1, s[1]);
    ImportStepRecords(b1, env1, s[1]);
    assert s[1..][0] == s[1] && s[1..][1..] == s[2..];
    assert b2.imports[0].connection != b2.imports[1].connection;
    MixedImportsStayMixed(b2, env2, s[2..]);
  }

  /** An import call records exactly one import, with the object's connection. */
  lemma ImportStepRecords(b: O.Builder, env: seq<StandIn>, c: S.Call)
    requires c.Import? && O.WellFormed(b) && S.EnvOk(b, env)
    ensures S.Step(b, env, c).0.imports == b.imports + [O.Imported(b.nextId, c.live.connection)]
  {
    assert S.Step(b, env, c) == S.Leaf(b, env, c) == S.Simple(b, env, c);
  }

  /** Requesting the same operand twice is the same as requesting it once. */
  lemma RequestResponseIdempotent(b: O.Builder, x: B.OperandId)
    ensures O.RequestResponse(O.RequestResponse(b, x), x) == O.RequestResponse(b, x)
  {
  }

  /**
    After IfBlock, WhileBlock or TryBlock returns, the next instruction goes
    into the enclosing scope, right after the region instruction.
   */
  lemma NextInstructionLandsOutside(b: O.Builder, env: seq<StandIn>, c: B.Construct, inputs: seq<B.OperandId>,
                                    first: seq<S.Call>, second: S.Handler, ins: B.Instruction)
    requires O.WellFormed(b) && S.EnvOk(b, env)
    requires forall x | x in inputs :: O.Allocated(b, x)
    requires S.Typed(KindsOf(env), first) && S.OptTyped(KindsOf(env), second)
    ensures var r := O.InsertInstruction(S.Block(b, env, c, inputs, first, second), ins);
      && r.current == b.current
      && r.scopes[b.current].body == b.scopes[b.current].body +
           [B.Instruction(B.Region(c, |b.scopes|, if second.Given? then Some(|b.scopes| + 1) else None), inputs, None), ins]
  {
    var m := S.Block(b, env, c, inputs, first, second);
    var region := B.Instruction(B.Region(c, |b.scopes|, if second.Given? then Some(|b.scopes| + 1) else None), inputs, None);
    RegionAddedBody(b, m, c, inputs, second.Given?);
    InsertAfter(b, m, region, ins);
  }

  lemma RegionAddedBody(b: O.Builder, m: O.Builder, c: B.Construct, inputs: seq<B.OperandId>, withSecond: bool)
    requires O.RegionAdded(b, m, c, inputs, withSecond)
    ensures m.scopes[b.current].body == b.scopes[b.current].body +
      [B.Instruction(B.Region(c, |b.scopes|, if withSecond then Some(|b.scopes| + 1) else None), inputs, None)]
  {
  }

  lemma InsertAfter(b: O.Builder, m: O.Builder, region: B.Instruction, ins: B.Instruction)
    requires O.WellFormed(m) && m.current == b.current && b.current < |b.scopes|
    requires m.scopes[b.current].body == b.scopes[b.current].body + [region]
    ensures var r := O.InsertInstruction(m, ins);
      && r.current == b.current
      && r.scopes[b.current].body == b.scopes[b.current].body + [region, ins]
  {
    var r := O.InsertInstruction(m, ins);
    assert r.scopes[b.current].body == m.scopes[b.current].body + [ins];
    assert b.scopes[b.current].body + [region] + [ins] == b.scopes[b.current].body + [region, ins];
  }
}
