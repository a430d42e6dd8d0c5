/**
  The abstract instruction vocabulary of a remote operation. The byte layout
  of the real instruction stream is not modelled: an instruction is an opcode
  tag, its input operands and at most one result operand.
 */
module Bytecode {
  import opened Wrappers
  import opened Kinds
  import Names

  /** Operand identifiers; the allocator starts at 1, so 0 never names an operand. */
  type OperandId = nat

  /** Index of a scope in the operation's scope arena (0 is the root graph). */
  type ScopeId = nat

  type Int32 = x: int | -0x8000_0000 <= x < 0x8000_0000
  type Uint32 = x: int | 0 <= x < 0x1_0000_0000
  type Uint16 = x: int | 0 <= x < 0x1_0000

  /**
    The initial value of a new remote object. Booleans, integers and
    characters keep their value; floating-point, string, geometry, GUID and
    byte-array payloads are opaque.
   */
  datatype Literal =
    | BoolLit(b: bool)
    | IntLit(i: Int32)
    | UintLit(u: Uint32)
    | DoubleLit
    | CharLit(c: Uint16)
    | StringLit
    | PointLit
    | RectLit
    | GuidLit
    | CacheRequestLit
    | ArrayLit
    | StringMapLit
    | NullLit
    | EmptyLit
    | ByteArrayLit

  /** The stand-in kind that the `New...` constructor for a literal returns. */
  function LiteralKind(lit: Literal): Kind {
    match lit
    case BoolLit(_) => Bool
    case IntLit(_) => Int
    case UintLit(_) => Uint
    case DoubleLit => Double
    case CharLit(_) => Char
    case StringLit => String
    case PointLit => Point
    case RectLit => Rect
    case GuidLit => Guid
    case CacheRequestLit => CacheRequest
    case ArrayLit => Array
    case StringMapLit => StringMap
    case NullLit => AnyObject
    case EmptyLit => AnyObject
    case ByteArrayLit => ByteArray
  }

  /** The three structured control-flow constructs. */
  datatype Construct = IfConstruct | WhileConstruct | TryConstruct

  datatype Opcode =
    | Create(literal: Literal)
      // Set: copy the second input into the first
    | Assign
      // IsEqual (equal) or IsNotEqual (!equal)
    | Compare(equal: bool)
      // LookupGuid: the GUID of an annotation-type or property id
    | GuidLookup
      // one opcode per (object kind, operation name)
    | Domain(kind: Kind, name: Names.OpName)
      // a structured region whose bodies are child scopes of the arena
    | Region(construct: Construct, first: ScopeId, second: Option<ScopeId>)
    | Break
    | Continue
    | ReturnStatusLiteral(status: Int32)
      // the status is the value of the single input operand
    | ReturnStatusOperand
    | FailureCode

  datatype Instruction = Instruction(op: Opcode, inputs: seq<OperandId>, result: Option<OperandId>)

  /** The child scopes a structural instruction refers to. */
  function Children(op: Opcode): (cs: set<ScopeId>)
    ensures op.Region? ==> op.first in cs
    ensures op.Region? && op.second.Some? ==> op.second.value in cs
    ensures !op.Region? ==> cs == {}
    ensures forall c | c in cs :: op.Region? && (c == op.first || op.second == Some(c))
  {
    match op
    case Region(_, first, second) =>
      {first} + (if second.Some? then {second.value} else {})
    case _ => {}
  }
}
