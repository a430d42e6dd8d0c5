# Remote-operation program builder

A model of how the client-side `AutomationRemoteOperation` builds a remote UI Automation operation.

Client code works with "stand-ins": local handles for operands of a program that will later run in the provider's process. Nothing runs while the program is being built. Each of these calls appends one instruction to the scope that is current at that moment:
- `NewInt`, `NewBool` and the other `New*` constructors;
- a method call on a stand-in;
- `IfBlock`, `WhileBlock` and `TryBlock`.

`ImportElement` and the other imports append no instruction. An import allocates an id and records the imported object's connection.

The builder state holds:
- an operand-id counter that starts at 1;
- the root graph and the sub-scopes below it;
- a current-scope cursor;
- the set of operands requested for the response;
- the imported live objects, each with its connection.

The block builders run their handlers with a child scope made current, then restore the scope that was current before.

The stand-in classes of the generated header become one generic handle, `StandIn(kind, operand, owner)`, plus a signature table. The table says which methods each kind offers, what argument kinds each method takes, and which kind it returns.

Modules:
- `Wrappers`: `Option`.
- `Kinds`: the stand-in kinds and their base classes.
- `Names`: the names of the generated pattern and text-range operations.
- `Bytecode`: abstract instructions, each an opcode tag, input operand ids and an optional result id.
- `Standins`: the handle and the signature table.
- `SignatureFacts`: what the table promises.
- `Operation`: the builder state and every builder call, as pure transitions.
- `Script`: client code as data. A scope handler (a C++ callback) is a script of builder calls, replayed against the state by `Run`.
- `Properties`: facts about whole client programs.

Methods declared `void` (`Set`, `Invoke`, `Expand`, `Toggle` and the like) give no stand-in and allocate no operand.

## Model

| member | source | states |
|---|---|---|
| Operation.Init | src/UIAutomation/Microsoft.UI.UIAutomation/AutomationRemoteOperation.h:117-129 | A fresh operation has counter 1, one empty root graph that is also the current scope, no bound operands, no responses and no imports, and it is well-formed. |
| Operation.GetNextId | src/UIAutomation/Microsoft.UI.UIAutomation/AutomationRemoteOperation.h:46-48 | The id handed out is the counter's current value and the counter moves one past it. Nothing else in the state changes: scopes, cursor, responses and imports stay as they were. |
| Operation.AllocationIsFresh | src/UIAutomation/Microsoft.UI.UIAutomation/AutomationRemoteOperation.h:46-48 | In a well-formed state, the id GetNextId hands out is at least 1, bound nowhere, and greater than every operand bound or requested so far. The state it leaves stays well-formed. |
| Operation.Issue | src/UIAutomation/Microsoft.UI.UIAutomation/AutomationRemoteOperation.h:46-48 | n successive GetNextId calls hand out n strictly increasing ids, so no two are equal. Each id lies between the old and the new counter, and only the counter changes. |
| Operation.IssueCounts | src/UIAutomation/Microsoft.UI.UIAutomation/AutomationRemoteOperation.h:117-120 | The k-th id handed out is the counter's starting value plus k. |
| Operation.FirstIdIsOne | src/UIAutomation/Microsoft.UI.UIAutomation/AutomationRemoteOperation.h:120 | On a fresh operation the first id is 1, the k-th is k+1, and 0 is never issued. |
| Operation.InsertInstruction | src/UIAutomation/Microsoft.UI.UIAutomation/AutomationRemoteOperation.h:42-45 | Exactly the given instruction is appended to the current scope. Every other scope, the counter, the cursor, the responses and the imports are unchanged. An admissible instruction keeps the state well-formed. Admissible instructions name no scope, so region instructions enter the graph only through OpenRegion. |
| Operation.NewValue | src/UIAutomation/Microsoft.UI.UIAutomation/AutomationRemoteOperation.h:54-70 | A New* constructor returns a stand-in of the literal's kind, owned by this operation and bound to the freshly allocated id. That id was unbound before and is bound afterwards. Exactly one creating instruction is appended to the current scope. |
| Operation.Import | src/UIAutomation/Microsoft.UI.UIAutomation/AutomationRemoteOperation.h:24-32 | An Import* call returns a stand-in of the imported kind bound to a fresh, previously unbound id. It records the import with its connection and leaves the scopes, cursor and responses alone. |
| Operation.Invoke | src/UIAutomation/Microsoft.UI.UIAutomation/AutomationRemoteOperation.h:24-28 | A stand-in method call appends one instruction whose inputs are the receiver followed by the arguments. It returns a fresh stand-in exactly when the signature declares a result, and that stand-in has the declared kind. |
| Operation.RequestResponse | src/UIAutomation/Microsoft.UI.UIAutomation/AutomationRemoteOperation.h:49-51 | The operand joins the response set. No scope changes, and neither do the counter, the cursor or the imports. A well-formed state stays well-formed when the operand is allocated. |
| Operation.RequestResponseFor | src/UIAutomation/Microsoft.UI.UIAutomation/AutomationRemoteOperation.h:83 | Requesting a stand-in requests its operand and returns a token naming an operand that is now in the response set. |
| Properties.RequestResponseIdempotent | src/UIAutomation/Microsoft.UI.UIAutomation/AutomationRemoteOperation.h:49-51 | Requesting the same operand twice leaves the same state as requesting it once. |
| Operation.OpenRegion | src/UIAutomation/Microsoft.UI.UIAutomation/AutomationRemoteOperation.h:85-105 | One region instruction is appended to the current scope. It names one new empty child scope, or two when the optional handler is given, each nested in the current scope. The cursor and all other scopes are unchanged. |
| Operation.PathFromRoot | src/UIAutomation/Microsoft.UI.UIAutomation/AutomationRemoteOperation.h:122-124 | Every scope is reached from the root graph by a chain of scopes, each named by a region instruction of the one before. So no instruction lives outside the root tree. |
| Operation.NamedByExactlyOne | src/UIAutomation/Microsoft.UI.UIAutomation/AutomationRemoteOperation.h:122-124 | In a well-formed state every non-root scope is named by a region instruction of its parent. No other instruction anywhere names it, so each subgraph belongs to exactly one construct. |
| Operation.AdmissibleNamesNoScope | src/UIAutomation/Microsoft.UI.UIAutomation/AutomationRemoteOperation.h:42-45 | In a well-formed state an instruction admissible for InsertInstruction names no child scope. Every scope nested in the current scope is already named there. |
| Operation.SharedScopeIsIllFormed | src/UIAutomation/Microsoft.UI.UIAutomation/AutomationRemoteOperation.h:122-124 | Any graph in which two different instructions name the same scope, or one region uses the same scope for both bodies, is not well-formed. |
| Script.Block | src/UIAutomation/Microsoft.UI.UIAutomation/AutomationRemoteOperation.h:85-105 | After IfBlock, WhileBlock or TryBlock, the scope current at the call is current again. It holds one new region instruction. The first child scope has the construct's kind. The second child scope exists only when the optional handler was given. No other new scope hangs directly below the enclosing scope. |
| Script.Within | src/UIAutomation/Microsoft.UI.UIAutomation/AutomationRemoteOperation.h:126-129 | A handler runs with its scope current. Afterwards the cursor is back where it was, and only that scope and scopes created below it have changed. |
| Script.Run | src/UIAutomation/Microsoft.UI.UIAutomation/AutomationRemoteOperation.h:20-32 | Any well-typed client program keeps the state well-formed and leaves the cursor where it started. It changes only the current scope and the scopes it creates below it. |
| Properties.NextInstructionLandsOutside | src/UIAutomation/Microsoft.UI.UIAutomation/AutomationRemoteOperation.h:126-129 | The first instruction inserted after a block builder returns lands in the enclosing scope, right after the region instruction. |
| Operation.BreakLoop | src/UIAutomation/Microsoft.UI.UIAutomation/AutomationRemoteOperation.h:97 | Appends one break instruction to the current scope, allocates nothing and keeps well-formedness. |
| Operation.ContinueLoop | src/UIAutomation/Microsoft.UI.UIAutomation/AutomationRemoteOperation.h:98 | Appends one continue instruction to the current scope, allocates nothing and keeps well-formedness. |
| Operation.ReturnOperationStatus | src/UIAutomation/Microsoft.UI.UIAutomation/AutomationRemoteOperation.h:94 | Appends one return-status instruction carrying the literal status, allocates nothing and keeps well-formedness. |
| Operation.ReturnOperationStatusOf | src/UIAutomation/Microsoft.UI.UIAutomation/AutomationRemoteOperation.h:95 | Appends one return-status instruction whose input is the Int operand, allocates nothing, and keeps well-formedness when that operand is allocated. |
| Operation.GetCurrentFailureCode | src/UIAutomation/Microsoft.UI.UIAutomation/AutomationRemoteOperation.h:107 | Returns a fresh Int stand-in computed by one instruction appended to the current scope. |
| Operation.Admission | src/UIAutomation/Microsoft.UI.UIAutomation/AutomationRemoteOperation.h:34-35 | The operation fails exactly when some imported object comes from a connection other than the first import's. |
| Operation.SpansAgainstFirst | src/UIAutomation/Microsoft.UI.UIAutomation/AutomationRemoteOperation.h:34-35 | Two imports of different connections exist exactly when some import differs from the first one. |
| Properties.MixedImportsStayMixed | src/UIAutomation/Microsoft.UI.UIAutomation/AutomationRemoteOperation.h:34-35 | Once imports span two connections, whatever the client does next, the operation still fails. |
| Properties.TwoConnectionsFail | src/UIAutomation/Microsoft.UI.UIAutomation/AutomationRemoteOperation.h:34-35 | A program whose first two calls import objects of two different connections fails, whatever it does afterwards. |
| SignatureFacts.SetTakesSameKind | src/UIAutomation/Microsoft.UI.UIAutomation/Standins.g.h:88-89 | Every generated stand-in (enum, id, pattern, text range) has Set. Set accepts exactly one argument, of the receiver's own kind, and returns nothing. |
| SignatureFacts.EqualityOnEnumsOnly | src/UIAutomation/Microsoft.UI.UIAutomation/Standins.g.h:90-91 | Among the generated stand-ins, IsEqual and IsNotEqual exist exactly on the enum and id kinds. There they accept exactly one same-kind argument and return a Bool. |
| SignatureFacts.EnumMethods | src/UIAutomation/Microsoft.UI.UIAutomation/Standins.g.h:85-111 | An enum or id stand-in offers exactly Set, IsEqual and IsNotEqual, plus LookupGuid when it is AnnotationType or PropertyId. |
| SignatureFacts.PatternsHaveSetButNoEquality | src/UIAutomation/Microsoft.UI.UIAutomation/Standins.g.h:402-407 | Every pattern stand-in has Set, taking its own kind, and has neither IsEqual nor IsNotEqual. |
| SignatureFacts.LookupGuidOnlyOnIds | src/UIAutomation/Microsoft.UI.UIAutomation/Standins.g.h:103-111 | LookupGuid exists on AnnotationType and PropertyId and on no other kind. It takes nothing and returns a Guid. |
| SignatureFacts.OnlyTextRangeExtends | src/UIAutomation/Microsoft.UI.UIAutomation/Standins.g.h:571 | Among the generated stand-ins, TextRange alone is based on ExtensionTarget. |
| SignatureFacts.NamedOnlyOnPatternsAndRanges | src/UIAutomation/Microsoft.UI.UIAutomation/Standins.g.h:571-598 | Among the generated stand-ins, only pattern and text-range ones have named operations. |
| SignatureFacts.TextRangeResults | src/UIAutomation/Microsoft.UI.UIAutomation/Standins.g.h:576-581 | On a text range, Clone, FindAttribute and FindText return a TextRange, with the declared parameter kinds. |
| SignatureFacts.TextRangeCompare | src/UIAutomation/Microsoft.UI.UIAutomation/Standins.g.h:577 | Text-range Compare takes a TextRange and returns a Bool. |
| SignatureFacts.RangeValueGetters | src/UIAutomation/Microsoft.UI.UIAutomation/Standins.g.h:435-440 | RangeValue's value, maximum, minimum, large-change and small-change getters return a Double. |
| SignatureFacts.GridResults | src/UIAutomation/Microsoft.UI.UIAutomation/Standins.g.h:474-476 | The Grid row and column counts return an Int. GetItem(Int, Int) returns an Element. |
| SignatureFacts.ActionsReturnNothing | src/UIAutomation/Microsoft.UI.UIAutomation/Standins.g.h:407 | Invoke, Expand, Collapse and Toggle take nothing and return no stand-in. |

## Left out

- `Execute` and the platform `CoreAutomationRemoteOperation` member (AutomationRemoteOperation.h:109,132) are left out. They are the cross-process transport. `Operation.Admission` stands in for them only as far as the header comment states: mixed connections fail. Every other outcome is "handed to the transport".
- `IsOpcodeSupported`, `IsGuidSupported` and `IsCacheRequestSupported` are left out. The live connection answers them.
- The bytecode layout, the linearisation of the scope tree, and `RemoteOperationGraph` / `RemoteOperationInstructions` are not part of this model. Instructions are abstract: an opcode tag, input ids and an optional result id. Scopes sit in an arena indexed by scope id, with a parent link.
- Initial values of `NewDouble`, `NewPoint`, `NewRect`, `NewString`, `NewGuid` and `NewByteArray` are opaque tokens. Floats and WinRT value types are not modelled. `NewBool`, `NewInt`, `NewUint` and `NewChar` keep their values, as booleans and integers.
- `BreakLoop`, `ContinueLoop`, `ReturnOperationStatus` and `GetCurrentFailureCode` are modelled only as instructions inserted into the current scope. Their meaning at run time belongs to the provider side. No builder-time error is modelled, such as a break outside a loop.
- The methods of the hand-written stand-in classes (Bool, Int, Uint, Double, Char, String, Point, Rect, Guid, CacheRequest, Array, StringMap, AnyObject, ByteArray, Element, ConnectionBoundObject) are not modelled; only their kinds are. In the table these kinds have no methods at all. Their arithmetic, comparisons and navigation cannot be called in a modelled client program.
- SignatureFacts.SetTakesSameKind states Set only for the generated kinds. The hand-written kinds' Set is outside the table.
- SignatureFacts.EqualityOnEnumsOnly states "exactly on the enum and id kinds" only among the generated kinds. Int, Bool and the other hand-written kinds also compare, outside the table.
- SignatureFacts.NamedOnlyOnPatternsAndRanges is stated only among the generated kinds. The hand-written kinds' own operations are outside the table.
- `Operation.Issue`: the counter is an unbounded natural. The source's `int m_nextId` would overflow after 2^31 - 1 ids, which is not modelled.
- `TextPattern2.GetCaretRange` takes its Bool stand-in by reference and writes it. The model treats that Bool as an ordinary input; the write-back is not modelled.
- `Script.Run`: stand-ins created inside a handler are visible only inside that handler's script. Use afterwards in the enclosing code is not modelled, though C++ allows it when the lambda captures by reference.
- `Operation.Init` makes the root graph the current scope. `m_currentScope` has no initialiser (AutomationRemoteOperation.h:129). The model takes the root graph, which holds every top-level instruction (AutomationRemoteOperation.h:122-124).
- `Operation.OpenRegion`: the region instruction is appended before the handlers run. Handlers write only into the new child scopes, so the final state does not depend on this order.
- `Script.Within` restores the cursor only for handlers that return normally. Client scripts have no failing call, so restoring the scope when a handler throws is not modelled.
- What each pattern operation does in the target application (Scroll, Move, Zoom and the rest) happens on the provider side and is not modelled. So are WinRT projection, the factory and the generated include list.
