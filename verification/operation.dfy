/**
  The state of one remote operation while it is being built: the operand-id
  allocator, the scope graph with its current-scope cursor, the operands
  requested for the response and the imported live objects. Every builder
  call is a pure transition from one state to the next.
 */
module Operation {
  import opened Wrappers
  import opened Kinds
  import opened Bytecode
  import opened Standins

  datatype ScopeKind = RootScope | IfTrue | IfFalse | LoopBody | LoopUpdate | TryBody | ExceptBody

  /** The kind of the scope filled by a construct's required handler. */
  function FirstKind(c: Construct): ScopeKind {
    match c
    case IfConstruct => IfTrue
    case WhileConstruct => LoopBody
    case TryConstruct => TryBody
  }

  /** The kind of the scope filled by a construct's optional handler. */
  function SecondKind(c: Construct): ScopeKind {
    match c
    case IfConstruct => IfFalse
    case WhileConstruct => LoopUpdate
    case TryConstruct => ExceptBody
  }

  /** A scope: its kind, the scope it is nested in (the root names itself) and its instructions. */
  datatype Scope = Scope(kind: ScopeKind, parent: ScopeId, body: seq<Instruction>)

  type ConnectionId = nat

  datatype ImportKind = ElementImport | TextRangeImport | ConnectionBoundImport

  /** A live automation object of the client, known only by its kind and its connection. */
  datatype LiveObject = LiveObject(kind: ImportKind, connection: ConnectionId)

  function ImportedKind(k: ImportKind): Kind {
    match k
    case ElementImport => Element
    case TextRangeImport => TextRange
    case ConnectionBoundImport => ConnectionBoundObject
  }

  /** An operand bound to an imported live object of some connection. */
  datatype Imported = Imported(operand: OperandId, connection: ConnectionId)

  datatype ResponseToken = ResponseToken(operand: OperandId)

  /**
    The builder state. `scopes[0]` is the root graph; every other scope is a
    subgraph created by a block builder. `current` is the scope that receives
    newly inserted instructions.
   */
  datatype Builder = Builder(
    self: ProgramId,
    nextId: nat,
    scopes: seq<Scope>,
    current: ScopeId,
    responses: set<OperandId>,
    imports: seq<Imported>)

  // ---------------------------------------------------------------------------
  // Well-formedness
  // ---------------------------------------------------------------------------

  /** Operand `x` has been handed out by the allocator. */
  predicate Allocated(b: Builder, x: OperandId) {
    1 <= x < b.nextId
  }

  /** Some instruction of `body` is a region whose child scope is `c`. */
  predicate ChildOf(body: seq<Instruction>, c: ScopeId) {
    exists i | 0 <= i < |body| :: c in Children(body[i].op)
  }

  /**
    The scopes form a tree below the root: every non-root scope was created
    after its parent and is named by exactly one region instruction of its
    parent, and a region never uses one scope for both of its bodies.
   */
  predicate TreeShaped(scopes: seq<Scope>) {
    && |scopes| > 0
    && scopes[0].kind == RootScope
    && scopes[0].parent == 0
    && (forall s | 1 <= s < |scopes| :: Nested(scopes, s))
    && (forall s, i | 0 <= s < |scopes| && 0 <= i < |scopes[s].body| :: SeparateBodies(scopes[s].body[i].op))
    && NamedOnce(scopes)
  }

  /** A region with two bodies gives them two different scopes. */
  predicate SeparateBodies(op: Opcode) {
    op.Region? && op.second.Some? ==> op.second.value != op.first
  }

  /** Within one scope, no two instructions name the same child scope. */
  predicate NamedOnce(scopes: seq<Scope>) {
    forall s, i, j, c | 0 <= s < |scopes| && 0 <= i < |scopes[s].body| && 0 <= j < |scopes[s].body| &&
      c in Children(scopes[s].body[i].op) && c in Children(scopes[s].body[j].op) :: i == j
  }

  /** Non-root scope `s` was created after its parent and is named by a region instruction there. */
  predicate Nested(scopes: seq<Scope>, s: ScopeId)
    requires s < |scopes|
  {
    && scopes[s].parent < s
    && scopes[s].kind != RootScope
    && ChildOf(scopes[scopes[s].parent].body, s)
  }

  /** An instruction of scope `s` refers only to allocated operands and to child scopes of `s`. */
  predicate InstructionOk(b: Builder, s: ScopeId, ins: Instruction) {
    && (forall x | x in ins.inputs :: Allocated(b, x))
    && (ins.result.Some? ==> Allocated(b, ins.result.value))
    && (forall c | c in Children(ins.op) :: s < c < |b.scopes| && b.scopes[c].parent == s)
  }

  predicate InstructionsOk(b: Builder) {
    forall s, i | 0 <= s < |b.scopes| && 0 <= i < |b.scopes[s].body| ::
      InstructionOk(b, s, b.scopes[s].body[i])
  }

  /** Operand `x` is the result of some instruction or the target of some import. */
  predicate Binds(b: Builder, x: OperandId) {
    BoundIn(b.scopes, b.imports, x)
  }

  predicate BoundIn(scopes: seq<Scope>, imports: seq<Imported>, x: OperandId) {
    || (exists s, i | 0 <= s < |scopes| && 0 <= i < |scopes[s].body| :: scopes[s].body[i].result == Some(x))
    || (exists j | 0 <= j < |imports| :: imports[j].operand == x)
  }

  /** No operand is bound twice: by two instructions, two imports, or one of each. */
  predicate DistinctBindings(b: Builder) {
    Distinct(b.scopes, b.imports)
  }

  predicate Distinct(scopes: seq<Scope>, imports: seq<Imported>) {
    && (forall s1, i1, s2, i2 |
          && 0 <= s1 < |scopes| && 0 <= i1 < |scopes[s1].body|
          && 0 <= s2 < |scopes| && 0 <= i2 < |scopes[s2].body|
          && scopes[s1].body[i1].result.Some?
          && scopes[s1].body[i1].result == scopes[s2].body[i2].result
          :: s1 == s2 && i1 == i2)
    && (forall j1, j2 | 0 <= j1 < |imports| && 0 <= j2 < |imports| &&
          imports[j1].operand == imports[j2].operand :: j1 == j2)
    && (forall j, s, i | 0 <= j < |imports| && 0 <= s < |scopes| && 0 <= i < |scopes[s].body| ::
          scopes[s].body[i].result != Some(imports[j].operand))
  }

  predicate WellFormed(b: Builder) {
    && 1 <= b.nextId
    && b.current < |b.scopes|
    && TreeShaped(b.scopes)
    && InstructionsOk(b)
    && DistinctBindings(b)
    && (forall x | x in b.responses :: Allocated(b, x))
    && (forall j | 0 <= j < |b.imports| :: Allocated(b, b.imports[j].operand))
  }

  /** Everything bound so far lies below the allocator's next id. */
  lemma BoundBelowNext(b: Builder, x: OperandId)
    requires WellFormed(b)
    requires Binds(b, x)
    ensures Allocated(b, x)
  {
    if exists s, i | 0 <= s < |b.scopes| && 0 <= i < |b.scopes[s].body| :: b.scopes[s].body[i].result == Some(x) {
      var s, i :| 0 <= s < |b.scopes| && 0 <= i < |b.scopes[s].body| && b.scopes[s].body[i].result == Some(x);
      assert InstructionOk(b, s, b.scopes[s].body[i]);
    }
  }

  /**
    In a well-formed state every non-root scope is named by exactly one
    instruction of the whole graph: one in its parent, and none anywhere
    else; so each child scope belongs to exactly one construct.
   */
  lemma NamedByExactlyOne(b: Builder, c: ScopeId)
    requires WellFormed(b) && 1 <= c < |b.scopes|
    ensures b.scopes[c].parent < c && ChildOf(b.scopes[b.scopes[c].parent].body, c)
    ensures forall s1, i1, s2, i2 |
      && 0 <= s1 < |b.scopes| && 0 <= i1 < |b.scopes[s1].body|
      && 0 <= s2 < |b.scopes| && 0 <= i2 < |b.scopes[s2].body|
      && c in Children(b.scopes[s1].body[i1].op) && c in Children(b.scopes[s2].body[i2].op)
      :: s1 == s2 && i1 == i2
  {
    assert Nested(b.scopes, c);
    forall s1, i1, s2, i2 |
      && 0 <= s1 < |b.scopes| && 0 <= i1 < |b.scopes[s1].body|
      && 0 <= s2 < |b.scopes| && 0 <= i2 < |b.scopes[s2].body|
      && c in Children(b.scopes[s1].body[i1].op) && c in Children(b.scopes[s2].body[i2].op)
      ensures s1 == s2 && i1 == i2
    {
      assert InstructionOk(b, s1, b.scopes[s1].body[i1]);
      assert InstructionOk(b, s2, b.scopes[s2].body[i2]);
    }
  }

  /**
    A graph in which two different instructions name the same scope, or one
    region uses the same scope for both of its bodies, is not well-formed.
   */
  lemma SharedScopeIsIllFormed(b: Builder, s1: ScopeId, i1: nat, s2: ScopeId, i2: nat, c: ScopeId)
    requires s1 < |b.scopes| && i1 < |b.scopes[s1].body| && s2 < |b.scopes| && i2 < |b.scopes[s2].body|
    requires c in Children(b.scopes[s1].body[i1].op) && c in Children(b.scopes[s2].body[i2].op)
    requires (s1, i1) != (s2, i2) || !SeparateBodies(b.scopes[s1].body[i1].op)
    ensures !WellFormed(b)
  {
    if WellFormed(b) {
      assert InstructionOk(b, s1, b.scopes[s1].body[i1]);
      NamedByExactlyOne(b, c);
      assert false;
    }
  }

  /**
    In a well-formed state an admissible instruction names no scope: every
    child of the current scope is already named there, so region
    instructions enter the graph only through OpenRegion.
   */
  lemma AdmissibleNamesNoScope(b: Builder, ins: Instruction)
    requires WellFormed(b) && Admissible(b, ins)
    ensures Children(ins.op) == {}
  {
    forall c | c in Children(ins.op)
      ensures 1 <= c < |b.scopes| && b.scopes[c].parent == b.current && Nested(b.scopes, c)
    {
      assert InstructionOk(b, b.current, ins);
    }
  }

  /**
    A chain of scopes from the root graph down to `s`: each link is a child
    scope named by a region instruction of the scope before it. Every scope,
    and so every instruction, lives in the tree below the root.
   */
  function PathFromRoot(scopes: seq<Scope>, s: ScopeId): (path: seq<ScopeId>)
    requires TreeShaped(scopes) && s < |scopes|
    ensures |path| >= 1 && path[0] == 0 && path[|path| - 1] == s
    ensures forall k | 0 <= k < |path| :: path[k] < |scopes|
    ensures forall k | 0 <= k < |path| - 1 ::
      scopes[path[k + 1]].parent == path[k] && ChildOf(scopes[path[k]].body, path[k + 1])
    decreases s
  {
    if s == 0 then [0]
    else
      assert Nested(scopes, s);
      PathFromRoot(scopes, scopes[s].parent) + [s]
  }

  // ---------------------------------------------------------------------------
  // Allocation and insertion
  // ---------------------------------------------------------------------------

  /** A fresh operation: id counter at 1, an empty root graph that is also the current scope. */
  function Init(self: ProgramId): (b: Builder)
    ensures WellFormed(b)
    ensures b.self == self && b.nextId == 1 && b.current == 0
    ensures |b.scopes| == 1 && b.scopes[0].body == []
    ensures forall x :: !Binds(b, x)
    ensures b.responses == {} && b.imports == []
  {
    Builder(self, 1, [Scope(RootScope, 0, [])], 0, {}, [])
  }

  /** Hands out the next operand id and advances the counter; nothing else changes. */
  function GetNextId(b: Builder): (r: (Builder, OperandId))
    ensures r.1 == b.nextId && r.0.nextId == r.1 + 1
    ensures r.0.(nextId := b.nextId) == b
  {
    (b.(nextId := b.nextId + 1), b.nextId)
  }

  /** In a well-formed state the id handed out is positive, above every id bound before, and unbound. */
  lemma AllocationIsFresh(b: Builder)
    requires WellFormed(b)
    ensures var (b', id) := GetNextId(b);
      && id >= 1
      && WellFormed(b')
      && !Binds(b, id)
      && (forall x: OperandId | Binds(b, x) :: x < id)
      && (forall x | x in b.responses :: x < id)
  {
    var (b', id) := GetNextId(b);
    forall x: OperandId | Binds(b, x) ensures x < id {
      BoundBelowNext(b, x);
    }
  }

  /** `n` successive GetNextId calls and the ids they hand out, in order. */
  function Issue(b: Builder, n: nat): (r: (Builder, seq<OperandId>))
    ensures |r.1| == n
    ensures r.0 == b.(nextId := b.nextId + n)
    ensures forall k | 0 <= k < n :: b.nextId <= r.1[k] < r.0.nextId
    ensures forall k, l | 0 <= k < l < n :: r.1[k] < r.1[l]
    decreases n
  {
    if n == 0 then (b, [])
    else
      var (b1, id) := GetNextId(b);
      var (r, ids) := Issue(b1, n - 1);
      (r, [id] + ids)
  }

  /** The ids handed out are consecutive from the counter's value. */
  lemma {:induction false} IssueCounts(b: Builder, n: nat)
    ensures forall k | 0 <= k < n :: Issue(b, n).1[k] == b.nextId + k
    decreases n
  {
    if n > 0 {
      IssueCounts(GetNextId(b).0, n - 1);
    }
  }

  /** The first id a fresh operation hands out is 1, so 0 is never issued. */
  lemma FirstIdIsOne(self: ProgramId, n: nat)
    requires n >= 1
    ensures Issue(Init(self), n).1[0] == 1
    ensures forall k | 0 <= k < n :: Issue(Init(self), n).1[k] == k + 1 && Issue(Init(self), n).1[k] != 0
  {
    IssueCounts(Init(self), n);
  }

  /** `r` is `b` with exactly `ins` appended to the current scope and nothing else changed. */
  predicate Appended(b: Builder, r: Builder, ins: Instruction) {
    && b.current < |b.scopes|
    && |r.scopes| == |b.scopes|
    && r.scopes[b.current] == b.scopes[b.current].(body := b.scopes[b.current].body + [ins])
    && (forall s | 0 <= s < |b.scopes| && s != b.current :: r.scopes[s] == b.scopes[s])
    && r.current == b.current
    && r.self == b.self
    && r.responses == b.responses
    && r.imports == b.imports
  }

  /** An instruction that may be added to the current scope without breaking well-formedness. */
  predicate Admissible(b: Builder, ins: Instruction) {
    && b.current < |b.scopes|
    && InstructionOk(b, b.current, ins)
    && (ins.result.Some? ==> !Binds(b, ins.result.value))
    && SeparateBodies(ins.op)
    && (forall c | c in Children(ins.op) :: !ChildOf(b.scopes[b.current].body, c))
  }

  /** Appends one instruction to the current scope. */
  function InsertInstruction(b: Builder, ins: Instruction): (r: Builder)
    requires b.current < |b.scopes|
    ensures Appended(b, r, ins)
    ensures r.nextId == b.nextId
    ensures WellFormed(b) && Admissible(b, ins) ==> WellFormed(r)
  {
    var cur := b.scopes[b.current];
    var r := b.(scopes := b.scopes[b.current := cur.(body := cur.body + [ins])]);
    InsertKeepsWellFormed(b, ins, r);
    r
  }

  lemma InsertKeepsWellFormed(b: Builder, ins: Instruction, r: Builder)
    requires Appended(b, r, ins) && r.nextId == b.nextId
    ensures WellFormed(b) && Admissible(b, ins) ==> WellFormed(r)
  {
    if WellFormed(b) && Admissible(b, ins) {
      InsertKeepsTree(b, ins, r);
      InsertKeepsInstructions(b, ins, r);
      InsertKeepsBindings(b, ins, r);
    }
  }

  lemma InsertKeepsTree(b: Builder, ins: Instruction, r: Builder)
    requires Appended(b, r, ins) && TreeShaped(b.scopes)
    requires SeparateBodies(ins.op) && forall c | c in Children(ins.op) :: !ChildOf(b.scopes[b.current].body, c)
    ensures TreeShaped(r.scopes)
  {
    InsertKeepsNaming(b, ins, r);
    forall s | 1 <= s < |r.scopes| ensures Nested(r.scopes, s) {
      assert Nested(b.scopes, s);
      var p := b.scopes[s].parent;
      var i :| 0 <= i < |b.scopes[p].body| && s in Children(b.scopes[p].body[i].op);
      assert r.scopes[p].body[i] == b.scopes[p].body[i];
    }
  }

  /** An instruction naming no scope its scope already names keeps every scope named once. */
  lemma InsertKeepsNaming(b: Builder, ins: Instruction, r: Builder)
    requires Appended(b, r, ins) && TreeShaped(b.scopes)
    requires SeparateBodies(ins.op) && forall c | c in Children(ins.op) :: !ChildOf(b.scopes[b.current].body, c)
    ensures forall s, i | 0 <= s < |r.scopes| && 0 <= i < |r.scopes[s].body| :: SeparateBodies(r.scopes[s].body[i].op)
    ensures NamedOnce(r.scopes)
  {
    var cur := b.current;
    var n := |b.scopes[cur].body|;
    assert r.scopes[cur].body[n] == ins;
    assert forall k | 0 <= k < n :: r.scopes[cur].body[k] == b.scopes[cur].body[k];
    forall s, i | 0 <= s < |r.scopes| && 0 <= i < |r.scopes[s].body|
      ensures SeparateBodies(r.scopes[s].body[i].op)
    {
      if s != cur || i < n {
        assert r.scopes[s].body[i] == b.scopes[s].body[i];
      }
    }
    forall s, i, j, c | 0 <= s < |r.scopes| && 0 <= i < |r.scopes[s].body| && 0 <= j < |r.scopes[s].body| &&
      c in Children(r.scopes[s].body[i].op) && c in Children(r.scopes[s].body[j].op)
      ensures i == j
    {
      if s != cur || (i < n && j < n) {
        assert r.scopes[s].body[i] == b.scopes[s].body[i] && r.scopes[s].body[j] == b.scopes[s].body[j];
      } else if i != j {
        assert false;
      }
    }
  }

  lemma InsertKeepsInstructions(b: Builder, ins: Instruction, r: Builder)
    requires Appended(b, r, ins) && r.nextId == b.nextId
    requires InstructionsOk(b) && Admissible(b, ins)
    ensures InstructionsOk(r)
  {
    var cur := b.current;
    forall s, i | 0 <= s < |r.scopes| && 0 <= i < |r.scopes[s].body|
      ensures InstructionOk(r, s, r.scopes[s].body[i])
    {
      if s == cur && i == |b.scopes[cur].body| {
        assert r.scopes[s].body[i] == ins;
      } else {
        assert r.scopes[s].body[i] == b.scopes[s].body[i];
        assert InstructionOk(b, s, b.scopes[s].body[i]);
      }
    }
  }

  lemma InsertKeepsBindings(b: Builder, ins: Instruction, r: Builder)
    requires Appended(b, r, ins) && DistinctBindings(b)
    requires ins.result.Some? ==> !Binds(b, ins.result.value)
    ensures DistinctBindings(r)
  {
    var cur := b.current;
    var n := |b.scopes[cur].body|;
    forall s, i | 0 <= s < |r.scopes| && 0 <= i < |r.scopes[s].body|
      ensures r.scopes[s].body[i] == if s == cur && i == n then ins else b.scopes[s].body[i]
    {
    }
    forall s, i | 0 <= s < |b.scopes| && 0 <= i < |b.scopes[s].body| && ins.result.Some?
      ensures b.scopes[s].body[i].result != ins.result
    {
    }
  }

  /**
    Allocates a result operand when `out` names a result kind, then appends
    one instruction computing it; returns the stand-in for the result.
   */
  function Emit(b: Builder, op: Opcode, inputs: seq<OperandId>, out: Option<Kind>): (r: (Builder, Option<StandIn>))
    requires b.current < |b.scopes|
    ensures r.1.Some? <==> out.Some?
    ensures out.Some? ==> r.1.value == StandIn(out.value, b.nextId, b.self)
    ensures r.0.nextId == if out.Some? then b.nextId + 1 else b.nextId
    ensures Appended(b, r.0, Instruction(op, inputs, if out.Some? then Some(b.nextId) else None))
    ensures WellFormed(b) && Children(op) == {} && (forall x | x in inputs :: Allocated(b, x))
      ==> WellFormed(r.0)
  {
    var result := if out.Some? then Some(b.nextId) else None;
    var ins := Instruction(op, inputs, result);
    var b1 := if out.Some? then GetNextId(b).0 else b;
    var r := InsertInstruction(b1, ins);
    EmitKeepsWellFormed(b, b1, ins);
    (r, if out.Some? then Some(StandIn(out.value, b.nextId, b.self)) else None)
  }

  lemma EmitKeepsWellFormed(b: Builder, b1: Builder, ins: Instruction)
    requires b1 == b || (b1 == GetNextId(b).0 && ins.result == Some(b.nextId))
    requires ins.result.Some? <==> b1 != b
    requires b.current < |b.scopes|
    ensures WellFormed(b) && Children(ins.op) == {} && (forall x | x in ins.inputs :: Allocated(b, x))
      ==> WellFormed(b1) && Admissible(b1, ins)
  {
    if WellFormed(b) && Children(ins.op) == {} && (forall x | x in ins.inputs :: Allocated(b, x)) {
      if b1 != b {
        AllocationIsFresh(b);
        assert !Binds(b1, b.nextId);
      }
    }
  }

  lemma AllocationIsFreshIf(b: Builder)
    ensures WellFormed(b) ==> !Binds(b, b.nextId) && WellFormed(GetNextId(b).0)
  {
    if WellFormed(b) {
      AllocationIsFresh(b);
    }
  }

  // ---------------------------------------------------------------------------
  // Operation API
  // ---------------------------------------------------------------------------

  /** NewBool, NewInt, ..., NewNull, NewEmpty: a fresh operand initialised to a literal. */
  function NewValue(b: Builder, lit: Literal): (r: (Builder, StandIn))
    requires b.current < |b.scopes|
    ensures r.1 == StandIn(LiteralKind(lit), b.nextId, b.self)
    ensures r.0.nextId == b.nextId + 1
    ensures Appended(b, r.0, Instruction(Create(lit), [], Some(r.1.operand)))
    ensures WellFormed(b) ==> WellFormed(r.0) && !Binds(b, r.1.operand) && Binds(r.0, r.1.operand)
  {
    var (b1, s) := Emit(b, Create(lit), [], Some(LiteralKind(lit)));
    assert b1.scopes[b.current].body[|b.scopes[b.current].body|].result == Some(b.nextId);
    AllocationIsFreshIf(b);
    (b1, s.value)
  }

  /**
    ImportElement, ImportTextRange, ImportConnectionBoundObject: binds a
    fresh operand to a live object of some connection; the scope graph is
    not touched.
   */
  function Import(b: Builder, obj: LiveObject): (r: (Builder, StandIn))
    ensures r.1 == StandIn(ImportedKind(obj.kind), b.nextId, b.self)
    ensures r.0.nextId == b.nextId + 1
    ensures r.0.scopes == b.scopes && r.0.current == b.current && r.0.responses == b.responses
    ensures r.0.self == b.self
    ensures r.0.imports == b.imports + [Imported(r.1.operand, obj.connection)]
    ensures WellFormed(b) ==> WellFormed(r.0) && !Binds(b, r.1.operand) && Binds(r.0, r.1.operand)
  {
    var (b1, id) := GetNextId(b);
    var r := b1.(imports := b1.imports + [Imported(id, obj.connection)]);
    ImportKeepsWellFormed(b, r, id, obj.connection);
    (r, StandIn(ImportedKind(obj.kind), id, b.self))
  }

  lemma ImportKeepsWellFormed(b: Builder, r: Builder, id: OperandId, conn: ConnectionId)
    requires id == b.nextId
    requires r == b.(nextId := b.nextId + 1, imports := b.imports + [Imported(id, conn)])
    ensures WellFormed(b) ==> WellFormed(r) && !Binds(b, id) && Binds(r, id)
  {
    if WellFormed(b) {
      AllocationIsFresh(b);
      assert r.imports[|b.imports|].operand == id;
      forall s, i | 0 <= s < |r.scopes| && 0 <= i < |r.scopes[s].body|
        ensures InstructionOk(r, s, r.scopes[s].body[i])
      {
        assert InstructionOk(b, s, b.scopes[s].body[i]);
      }
      forall j, s, i | 0 <= j < |r.imports| && 0 <= s < |r.scopes| && 0 <= i < |r.scopes[s].body|
        ensures r.scopes[s].body[i].result != Some(r.imports[j].operand)
      {
        if j == |b.imports| {
          assert !Binds(b, id);
        }
      }
    }
  }

  /** The opcode a stand-in method call emits. */
  function OpcodeFor(k: Kind, m: Method): (op: Opcode)
    ensures Children(op) == {}
  {
    match m
    case Set => Assign
    case IsEqual => Compare(true)
    case IsNotEqual => Compare(false)
    case LookupGuid => GuidLookup
    case Named(n) => Domain(k, n)
  }

  /**
    A call of method `m` on stand-in `recv` with arguments `args`: one
    instruction whose inputs are the receiver followed by the arguments,
    and, when the signature declares a result, a fresh stand-in of that kind.
   */
  function Invoke(b: Builder, recv: StandIn, m: Method, args: seq<StandIn>): (r: (Builder, Option<StandIn>))
    requires b.current < |b.scopes|
    requires recv.owner == b.self
    requires Accepts(recv.kind, m, KindsOf(args))
    ensures r.1.Some? <==> SignatureOf(recv.kind, m).value.result.Some?
    ensures r.1.Some? ==> r.1.value.kind == SignatureOf(recv.kind, m).value.result.value
    ensures r.1.Some? ==> r.1.value.operand == b.nextId && r.1.value.owner == b.self
    ensures r.0.nextId == if r.1.Some? then b.nextId + 1 else b.nextId
    ensures Appended(b, r.0, Instruction(OpcodeFor(recv.kind, m), [recv.operand] + OperandsOf(args),
                                         if r.1.Some? then Some(b.nextId) else None))
    ensures WellFormed(b) && Allocated(b, recv.operand) && (forall a | a in args :: Allocated(b, a.operand))
      ==> WellFormed(r.0)
  {
    var inputs := [recv.operand] + OperandsOf(args);
    assert forall x | x in inputs :: x == recv.operand || exists a | a in args :: a.operand == x;
    Emit(b, OpcodeFor(recv.kind, m), inputs, SignatureOf(recv.kind, m).value.result)
  }

  /** RequestResponse(id): mark an operand to be marshaled back; the scopes are untouched. */
  function RequestResponse(b: Builder, x: OperandId): (r: Builder)
    ensures r.responses == b.responses + {x}
    ensures r.scopes == b.scopes && r.nextId == b.nextId && r.current == b.current
    ensures r.imports == b.imports && r.self == b.self
    ensures WellFormed(b) && Allocated(b, x) ==> WellFormed(r)
  {
    b.(responses := b.responses + {x})
  }

  /** RequestResponse(object): requests the stand-in's operand and returns a token naming it. */
  function RequestResponseFor(b: Builder, s: StandIn): (r: (Builder, ResponseToken))
    ensures r.0 == RequestResponse(b, s.operand)
    ensures r.1.operand == s.operand && r.1.operand in r.0.responses
  {
    (RequestResponse(b, s.operand), ResponseToken(s.operand))
  }

  /**
    Appends a region instruction for construct `c` to the current scope and
    creates its child scopes (the second only when `withSecond`), each nested
    in the current scope and initially empty. The cursor does not move.
   */
  function OpenRegion(b: Builder, c: Construct, inputs: seq<OperandId>, withSecond: bool)
    : (r: (Builder, ScopeId, Option<ScopeId>))
    requires b.current < |b.scopes|
    ensures r.1 == |b.scopes|
    ensures r.2 == if withSecond then Some(r.1 + 1) else None
    ensures |r.0.scopes| == |b.scopes| + (if withSecond then 2 else 1)
    ensures r.0.scopes[r.1] == Scope(FirstKind(c), b.current, [])
    ensures withSecond ==> r.0.scopes[r.1 + 1] == Scope(SecondKind(c), b.current, [])
    ensures r.0.scopes[b.current] == b.scopes[b.current].(body := b.scopes[b.current].body + [Instruction(Region(c, r.1, r.2), inputs, None)])
    ensures forall s | 0 <= s < |b.scopes| && s != b.current :: r.0.scopes[s] == b.scopes[s]
    ensures r.0.nextId == b.nextId && r.0.current == b.current && r.0.self == b.self
    ensures r.0.responses == b.responses && r.0.imports == b.imports
    ensures WellFormed(b) && (forall x | x in inputs :: Allocated(b, x)) ==> WellFormed(r.0)
  {
    var first := |b.scopes|;
    var second: Option<ScopeId> := if withSecond then Some(first + 1) else None;
    var created := [Scope(FirstKind(c), b.current, [])] + (if withSecond then [Scope(SecondKind(c), b.current, [])] else []);
    var b1 := b.(scopes := b.scopes + created);
    var ins := Instruction(Region(c, first, second), inputs, None);
    var r := InsertInstruction(b1, ins);
    OpenRegionKeepsWellFormed(b, r, ins);
    (r, first, second)
  }

  /** `r` is `b` with region `ins` appended to the current scope and its empty child scopes created. */
  predicate RegionOpened(b: Builder, r: Builder, ins: Instruction) {
    && b.current < |b.scopes|
    && ins.op.Region? && ins.result == None
    && ins.op.first == |b.scopes|
    && |r.scopes| == |b.scopes| + (if ins.op.second.Some? then 2 else 1)
    && (ins.op.second.Some? ==> ins.op.second.value == |b.scopes| + 1)
    && r == b.(scopes := r.scopes)
    && r.scopes[b.current] == b.scopes[b.current].(body := b.scopes[b.current].body + [ins])
    && (forall s | 0 <= s < |b.scopes| && s != b.current :: r.scopes[s] == b.scopes[s])
    && (forall s | |b.scopes| <= s < |r.scopes| ::
          r.scopes[s].parent == b.current && r.scopes[s].body == [] && r.scopes[s].kind != RootScope)
  }

  lemma OpenRegionKeepsWellFormed(b: Builder, r: Builder, ins: Instruction)
    requires RegionOpened(b, r, ins)
    ensures WellFormed(b) && (forall x | x in ins.inputs :: Allocated(b, x)) ==> WellFormed(r)
  {
    if WellFormed(b) && (forall x | x in ins.inputs :: Allocated(b, x)) {
      OpenRegionKeepsTree(b, r, ins);
      OpenRegionKeepsInstructions(b, r, ins);
      OpenRegionKeepsBindings(b, r, ins);
    }
  }

  lemma OpenRegionKeepsTree(b: Builder, r: Builder, ins: Instruction)
    requires RegionOpened(b, r, ins) && TreeShaped(b.scopes) && InstructionsOk(b)
    ensures TreeShaped(r.scopes)
  {
    OpenRegionKeepsNaming(b, r, ins);
    var cur := b.current;
    var n := |b.scopes[cur].body|;
    assert r.scopes[cur].body[n] == ins;
    forall s | 1 <= s < |r.scopes| ensures Nested(r.scopes, s) {
      if s >= |b.scopes| {
        assert s in Children(r.scopes[cur].body[n].op);
      } else {
        assert Nested(b.scopes, s);
        var p := b.scopes[s].parent;
        var i :| 0 <= i < |b.scopes[p].body| && s in Children(b.scopes[p].body[i].op);
        assert r.scopes[p].body[i] == b.scopes[p].body[i];
      }
    }
  }

  /** A region naming only brand-new scopes keeps every scope named once. */
  lemma OpenRegionKeepsNaming(b: Builder, r: Builder, ins: Instruction)
    requires RegionOpened(b, r, ins) && TreeShaped(b.scopes) && InstructionsOk(b)
    ensures forall s, i | 0 <= s < |r.scopes| && 0 <= i < |r.scopes[s].body| :: SeparateBodies(r.scopes[s].body[i].op)
    ensures NamedOnce(r.scopes)
  {
    var cur := b.current;
    var n := |b.scopes[cur].body|;
    assert r.scopes[cur].body[n] == ins;
    assert forall k | 0 <= k < n :: r.scopes[cur].body[k] == b.scopes[cur].body[k];
    forall k | 0 <= k < n ensures forall c | c in Children(b.scopes[cur].body[k].op) :: c < |b.scopes| {
      assert InstructionOk(b, cur, b.scopes[cur].body[k]);
    }
    forall s, i | 0 <= s < |r.scopes| && 0 <= i < |r.scopes[s].body|
      ensures SeparateBodies(r.scopes[s].body[i].op)
    {
      if s != cur || i < n {
        assert r.scopes[s].body[i] == b.scopes[s].body[i];
      }
    }
    forall s, i, j, c | 0 <= s < |r.scopes| && 0 <= i < |r.scopes[s].body| && 0 <= j < |r.scopes[s].body| &&
      c in Children(r.scopes[s].body[i].op) && c in Children(r.scopes[s].body[j].op)
      ensures i == j
    {
      if s != cur || (i < n && j < n) {
        assert r.scopes[s].body[i] == b.scopes[s].body[i] && r.scopes[s].body[j] == b.scopes[s].body[j];
      } else if i != j {
        assert false;
      }
    }
  }

  lemma OpenRegionKeepsInstructions(b: Builder, r: Builder, ins: Instruction)
    requires RegionOpened(b, r, ins) && InstructionsOk(b)
    requires forall x | x in ins.inputs :: Allocated(b, x)
    ensures InstructionsOk(r)
  {
    var cur := b.current;
    var n := |b.scopes[cur].body|;
    forall s, i | 0 <= s < |r.scopes| && 0 <= i < |r.scopes[s].body|
      ensures InstructionOk(r, s, r.scopes[s].body[i])
    {
      if s == cur && i == n {
        assert r.scopes[s].body[i] == ins;
      } else {
        assert s < |b.scopes|;
        assert r.scopes[s].body[i] == b.scopes[s].body[i];
        assert InstructionOk(b, s, b.scopes[s].body[i]);
      }
    }
  }

  lemma OpenRegionKeepsBindings(b: Builder, r: Builder, ins: Instruction)
    requires RegionOpened(b, r, ins) && DistinctBindings(b)
    ensures DistinctBindings(r)
  {
    var cur := b.current;
    var n := |b.scopes[cur].body|;
    forall s, i | 0 <= s < |r.scopes| && 0 <= i < |r.scopes[s].body|
      ensures s < |b.scopes|
      ensures r.scopes[s].body[i] == if s == cur && i == n then ins else b.scopes[s].body[i]
    {
    }
  }

  /** BreakLoop: one break instruction in the current scope. */
  function BreakLoop(b: Builder): (r: Builder)
    requires b.current < |b.scopes|
    ensures Appended(b, r, Instruction(Break, [], None)) && r.nextId == b.nextId
    ensures WellFormed(b) ==> WellFormed(r)
  {
    Emit(b, Break, [], None).0
  }

  /** ContinueLoop: one continue instruction in the current scope. */
  function ContinueLoop(b: Builder): (r: Builder)
    requires b.current < |b.scopes|
    ensures Appended(b, r, Instruction(Continue, [], None)) && r.nextId == b.nextId
    ensures WellFormed(b) ==> WellFormed(r)
  {
    Emit(b, Continue, [], None).0
  }

  /** ReturnOperationStatus(hresult): ends the operation with a literal status. */
  function ReturnOperationStatus(b: Builder, status: Int32): (r: Builder)
    requires b.current < |b.scopes|
    ensures Appended(b, r, Instruction(ReturnStatusLiteral(status), [], None)) && r.nextId == b.nextId
    ensures WellFormed(b) ==> WellFormed(r)
  {
    Emit(b, ReturnStatusLiteral(status), [], None).0
  }

  /** ReturnOperationStatus(AutomationRemoteInt): ends the operation with the value of an Int operand. */
  function ReturnOperationStatusOf(b: Builder, status: StandIn): (r: Builder)
    requires b.current < |b.scopes|
    requires status.kind == Int
    ensures Appended(b, r, Instruction(ReturnStatusOperand, [status.operand], None)) && r.nextId == b.nextId
    ensures WellFormed(b) && Allocated(b, status.operand) ==> WellFormed(r)
  {
    Emit(b, ReturnStatusOperand, [status.operand], None).0
  }

  /** GetCurrentFailureCode: a fresh Int operand holding the failure code. */
  function GetCurrentFailureCode(b: Builder): (r: (Builder, StandIn))
    requires b.current < |b.scopes|
    ensures r.1 == StandIn(Int, b.nextId, b.self) && r.0.nextId == b.nextId + 1
    ensures Appended(b, r.0, Instruction(FailureCode, [], Some(b.nextId)))
    ensures WellFormed(b) ==> WellFormed(r.0)
  {
    var (r, s) := Emit(b, FailureCode, [], Some(Int));
    (r, s.value)
  }

  // ---------------------------------------------------------------------------
  // How states evolve
  // ---------------------------------------------------------------------------

  /**
    `r` is a later state of `b` in which only scope `at` and newly created
    scopes have changed: `at` has kept its instructions and gained more, the
    new scopes hang below `at`, and the counter, responses and imports only
    grew.
   */
  predicate Grows(b: Builder, r: Builder, at: ScopeId) {
    && at < |b.scopes|
    && r.self == b.self
    && b.nextId <= r.nextId
    && |b.scopes| <= |r.scopes|
    && (forall s | 0 <= s < |b.scopes| && s != at :: r.scopes[s] == b.scopes[s])
    && r.scopes[at].kind == b.scopes[at].kind
    && r.scopes[at].parent == b.scopes[at].parent
    && b.scopes[at].body <= r.scopes[at].body
    && (forall s | |b.scopes| <= s < |r.scopes| :: r.scopes[s].parent == at || |b.scopes| <= r.scopes[s].parent)
    && b.responses <= r.responses
    && b.imports <= r.imports
  }

  lemma AppendedGrows(b: Builder, r: Builder, ins: Instruction)
    requires Appended(b, r, ins) && b.nextId <= r.nextId
    ensures Grows(b, r, b.current)
  {
  }

  lemma GrowsTransitive(b: Builder, m: Builder, r: Builder, at: ScopeId)
    requires Grows(b, m, at) && Grows(m, r, at)
    ensures Grows(b, r, at)
  {
  }

  /** Growth inside a scope created after `b` counts as growth below `at`. */
  lemma GrowsThroughChild(b: Builder, m: Builder, r: Builder, at: ScopeId, child: ScopeId)
    requires Grows(b, m, at) && Grows(m, r, child)
    requires |b.scopes| <= child < |m.scopes|
    ensures Grows(b, r, at)
  {
  }

  /** Growth at `at` leaves every other old scope alone and hangs nothing new directly below them. */
  lemma GrowsElsewhere(m: Builder, r: Builder, at: ScopeId, cur: ScopeId)
    requires Grows(m, r, at) && cur < |m.scopes| && cur != at
    ensures r.scopes[cur] == m.scopes[cur]
    ensures forall s | 0 <= s < |m.scopes| :: r.scopes[s].kind == m.scopes[s].kind && r.scopes[s].parent == m.scopes[s].parent
    ensures forall s | |m.scopes| <= s < |r.scopes| :: r.scopes[s].parent != cur
  {
  }

  /**
    Compared with `b`, state `r` holds exactly one new region instruction for
    construct `c` at the end of the current scope, whose child scopes are the
    next one or two scopes of the arena, nested in the current scope with the
    kinds the construct gives them; no other new scope hangs directly below
    the current scope.
   */
  predicate RegionAdded(b: Builder, r: Builder, c: Construct, inputs: seq<OperandId>, withSecond: bool) {
    var first := |b.scopes|;
    && b.current < |b.scopes|
    && |r.scopes| >= first + (if withSecond then 2 else 1)
    && r.scopes[b.current].body ==
         b.scopes[b.current].body + [Instruction(Region(c, first, if withSecond then Some(first + 1) else None), inputs, None)]
    && r.scopes[first].kind == FirstKind(c) && r.scopes[first].parent == b.current
    && (withSecond ==> r.scopes[first + 1].kind == SecondKind(c) && r.scopes[first + 1].parent == b.current)
    && (forall s | first <= s < |r.scopes| && r.scopes[s].parent == b.current ::
          s == first || (withSecond && s == first + 1))
  }

  /** Filling one of the new child scopes keeps the region as it was added. */
  lemma RegionAddedKept(b: Builder, m: Builder, r: Builder, c: Construct, inputs: seq<OperandId>, withSecond: bool,
                        at: ScopeId)
    requires RegionAdded(b, m, c, inputs, withSecond)
    requires Grows(m, r, at) && |b.scopes| <= at < |m.scopes|
    ensures RegionAdded(b, r, c, inputs, withSecond)
  {
    GrowsElsewhere(m, r, at, b.current);
  }

  // ---------------------------------------------------------------------------
  // Outcome of execution
  // ---------------------------------------------------------------------------

  /** The imported objects come from more than one connection. */
  predicate SpansConnections(b: Builder) {
    exists i, j | 0 <= i < |b.imports| && 0 <= j < |b.imports| ::
      b.imports[i].connection != b.imports[j].connection
  }

  /**
    What Execute can do with a built operation: a mix of connections fails
    the whole operation; otherwise the program is handed to the transport,
    whose answer is not modelled.
   */
  datatype Verdict = Fails | HandedToTransport

  function Admission(b: Builder): (v: Verdict)
    ensures v == Fails <==>
      |b.imports| > 0 && exists j | 0 <= j < |b.imports| :: b.imports[j].connection != b.imports[0].connection
  {
    SpansAgainstFirst(b);
    if SpansConnections(b) then Fails else HandedToTransport
  }

  /** Two imports disagree exactly when some import disagrees with the first one. */
  lemma SpansAgainstFirst(b: Builder)
    ensures SpansConnections(b) <==>
      |b.imports| > 0 && exists j | 0 <= j < |b.imports| :: b.imports[j].connection != b.imports[0].connection
  {
    if SpansConnections(b) {
      var i, j :| 0 <= i < |b.imports| && 0 <= j < |b.imports| && b.imports[i].connection != b.imports[j].connection;
      assert b.imports[i].connection != b.imports[0].connection || b.imports[j].connection != b.imports[0].connection;
    }
  }
}
