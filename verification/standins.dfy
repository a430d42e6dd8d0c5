/**
  The typed stand-in layer. A stand-in is a handle on one operand of one
  remote operation, tagged with its kind; which operations a kind offers and
  which kind each operation returns is a finite signature table.
 */
module Standins {
  import opened Wrappers
  import opened Kinds
  import opened Bytecode
  import opened Names

  /** Identity of the remote operation (program) that owns a stand-in. */
  type ProgramId = nat

  /** Every stand-in is built from exactly an operand id and its owning operation. */
  datatype StandIn = StandIn(kind: Kind, operand: OperandId, owner: ProgramId)

  datatype Method =
    | Set
    | IsEqual
    | IsNotEqual
    | LookupGuid
    | Named(name: OpName)

  /** A parameter type: one stand-in kind, or any remote object. */
  datatype Param = Of(kind: Kind) | AnyRemoteObject

  datatype Signature = Signature(params: seq<Param>, result: Option<Kind>)

  /** An operation without parameters that gives back a stand-in of kind `k`. */
  function Getter(k: Kind): Option<Signature> { Some(Signature([], Some(k))) }
  /** An operation with parameters that gives back a stand-in of kind `k`. */
  function Query(ps: seq<Param>, k: Kind): Option<Signature> { Some(Signature(ps, Some(k))) }
  /** An operation that gives nothing back. */
  function Action(ps: seq<Param>): Option<Signature> { Some(Signature(ps, None)) }

  /**
    The operations of a pattern stand-in: what each takes and what it gives back.
    Each per-pattern table below is a chain of discriminator tests (`n.GetValue?`)
    rather than a `match` on `n`: a `match` with a wildcard case is expanded into
    one branch per constructor of the 135-name `OpName`, in every one of the 35
    tables, which makes the lemmas about the table much more expensive to prove.
   */
  function PatternOp(p: PatternKind, n: OpName): Option<Signature> {
    match p
    case InvokePattern => InvokePatternOps(n)
    case SelectionPattern => SelectionPatternOps(n)
    case ValuePattern => ValuePatternOps(n)
    case RangeValuePattern => RangeValuePatternOps(n)
    case ScrollPattern => ScrollPatternOps(n)
    case ExpandCollapsePattern => ExpandCollapsePatternOps(n)
    case GridPattern => GridPatternOps(n)
    case GridItemPattern => GridItemPatternOps(n)
    case MultipleViewPattern => MultipleViewPatternOps(n)
    case WindowPattern => WindowPatternOps(n)
    case SelectionItemPattern => SelectionItemPatternOps(n)
    case DockPattern => DockPatternOps(n)
    case TablePattern => TablePatternOps(n)
    case TableItemPattern => TableItemPatternOps(n)
    case TextPattern => TextPatternOps(n)
    case TogglePattern => TogglePatternOps(n)
    case TransformPattern => TransformPatternOps(n)
    case ScrollItemPattern => ScrollItemPatternOps(n)
    case LegacyIAccessiblePattern => LegacyIAccessiblePatternOps(n)
    case ItemContainerPattern => ItemContainerPatternOps(n)
    case VirtualizedItemPattern => VirtualizedItemPatternOps(n)
    case SynchronizedInputPattern => SynchronizedInputPatternOps(n)
    case AnnotationPattern => AnnotationPatternOps(n)
    case TextPattern2 => TextPattern2Ops(n)
    case StylesPattern => StylesPatternOps(n)
    case SpreadsheetPattern => SpreadsheetPatternOps(n)
    case SpreadsheetItemPattern => SpreadsheetItemPatternOps(n)
    case TransformPattern2 => TransformPattern2Ops(n)
    case TextChildPattern => TextChildPatternOps(n)
    case DragPattern => DragPatternOps(n)
    case DropTargetPattern => DropTargetPatternOps(n)
    case TextEditPattern => TextEditPatternOps(n)
    case CustomNavigationPattern => CustomNavigationPatternOps(n)
    case SelectionPattern2 => SelectionPattern2Ops(n)
  }

  function InvokePatternOps(n: OpName): Option<Signature> {
    if n.Invoke? then Action([])
    else None
  }

  function SelectionPatternOps(n: OpName): Option<Signature> {
    if n.GetSelection? then Getter(Array)
    else if n.GetCanSelectMultiple? then Getter(Bool)
    else if n.GetIsSelectionRequired? then Getter(Bool)
    else None
  }

  function ValuePatternOps(n: OpName): Option<Signature> {
    if n.GetValue? then Getter(String)
    else if n.GetIsReadOnly? then Getter(Bool)
    else if n.SetValue? then Action([Of(String)])
    else None
  }

  function RangeValuePatternOps(n: OpName): Option<Signature> {
    if n.GetValue? then Getter(Double)
    else if n.GetIsReadOnly? then Getter(Bool)
    else if n.GetMaximum? then Getter(Double)
    else if n.GetMinimum? then Getter(Double)
    else if n.GetLargeChange? then Getter(Double)
    else if n.GetSmallChange? then Getter(Double)
    else if n.SetValue? then Action([Of(Double)])
    else None
  }

  function ScrollPatternOps(n: OpName): Option<Signature> {
    if n.GetHorizontalScrollPercent? then Getter(Double)
    else if n.GetVerticalScrollPercent? then Getter(Double)
    else if n.GetHorizontalViewSize? then Getter(Double)
    else if n.GetVerticalViewSize? then Getter(Double)
    else if n.GetHorizontallyScrollable? then Getter(Bool)
    else if n.GetVerticallyScrollable? then Getter(Bool)
    else if n.Scroll? then Action([Of(Enum(ScrollAmount)), Of(Enum(ScrollAmount))])
    else if n.SetScrollPercent? then Action([Of(Double), Of(Double)])
    else None
  }

  function ExpandCollapsePatternOps(n: OpName): Option<Signature> {
    if n.GetExpandCollapseState? then Getter(Enum(ExpandCollapseState))
    else if n.Expand? then Action([])
    else if n.Collapse? then Action([])
    else None
  }

  function GridPatternOps(n: OpName): Option<Signature> {
    if n.GetRowCount? then Getter(Int)
    else if n.GetColumnCount? then Getter(Int)
    else if n.GetItem? then Query([Of(Int), Of(Int)], Element)
    else None
  }

  function GridItemPatternOps(n: OpName): Option<Signature> {
    if n.GetContainingGrid? then Getter(Element)
    else if n.GetRow? then Getter(Int)
    else if n.GetColumn? then Getter(Int)
    else if n.GetRowSpan? then Getter(Int)
    else if n.GetColumnSpan? then Getter(Int)
    else None
  }

  function MultipleViewPatternOps(n: OpName): Option<Signature> {
    if n.GetCurrentView? then Getter(Int)
    else if n.GetSupportedViews? then Getter(Array)
    else if n.GetViewName? then Query([Of(Int)], String)
    else if n.SetCurrentView? then Action([Of(Int)])
    else None
  }

  function WindowPatternOps(n: OpName): Option<Signature> {
    if n.GetCanMaximize? then Getter(Bool)
    else if n.GetCanMinimize? then Getter(Bool)
    else if n.GetIsModal? then Getter(Bool)
    else if n.GetIsTopmost? then Getter(Bool)
    else if n.GetWindowVisualState? then Getter(Enum(WindowVisualState))
    else if n.GetWindowInteractionState? then Getter(Enum(WindowInteractionState))
    else if n.Close? then Action([])
    else if n.WaitForInputIdle? then Query([Of(Int)], Bool)
    else if n.SetWindowVisualState? then Action([Of(Enum(WindowVisualState))])
    else None
  }

  function SelectionItemPatternOps(n: OpName): Option<Signature> {
    if n.GetIsSelected? then Getter(Bool)
    else if n.GetSelectionContainer? then Getter(Element)
    else if n.Select? then Action([])
    else if n.AddToSelection? then Action([])
    else if n.RemoveFromSelection? then Action([])
    else None
  }

  function DockPatternOps(n: OpName): Option<Signature> {
    if n.GetDockPosition? then Getter(Enum(DockPosition))
    else if n.SetDockPosition? then Action([Of(Enum(DockPosition))])
    else None
  }

  function TablePatternOps(n: OpName): Option<Signature> {
    if n.GetRowHeaders? then Getter(Array)
    else if n.GetColumnHeaders? then Getter(Array)
    else if n.GetRowOrColumnMajor? then Getter(Enum(RowOrColumnMajor))
    else None
  }

  function TableItemPatternOps(n: OpName): Option<Signature> {
    if n.GetRowHeaderItems? then Getter(Array)
    else if n.GetColumnHeaderItems? then Getter(Array)
    else None
  }

  function TextPatternOps(n: OpName): Option<Signature> {
    if n.RangeFromPoint? then Query([Of(Point)], TextRange)
    else if n.RangeFromChild? then Query([Of(Element)], TextRange)
    else if n.GetSelection? then Getter(Array)
    else if n.GetVisibleRanges? then Getter(Array)
    else if n.GetDocumentRange? then Getter(TextRange)
    else if n.GetSupportedTextSelection? then Getter(Enum(SupportedTextSelection))
    else None
  }

  function TogglePatternOps(n: OpName): Option<Signature> {
    if n.GetToggleState? then Getter(Enum(ToggleState))
    else if n.Toggle? then Action([])
    else None
  }

  function TransformPatternOps(n: OpName): Option<Signature> {
    if n.GetCanMove? then Getter(Bool)
    else if n.GetCanResize? then Getter(Bool)
    else if n.GetCanRotate? then Getter(Bool)
    else if n.Move? then Action([Of(Double), Of(Double)])
    else if n.Resize? then Action([Of(Double), Of(Double)])
    else if n.Rotate? then Action([Of(Double)])
    else None
  }

  function ScrollItemPatternOps(n: OpName): Option<Signature> {
    if n.ScrollIntoView? then Action([])
    else None
  }

  function LegacyIAccessiblePatternOps(n: OpName): Option<Signature> {
    if n.GetChildId? then Getter(Int)
    else if n.GetName? then Getter(String)
    else if n.GetValue? then Getter(String)
    else if n.GetDescription? then Getter(String)
    else if n.GetRole? then Getter(Uint)
    else if n.GetState? then Getter(Uint)
    else if n.GetHelp? then Getter(String)
    else if n.GetKeyboardShortcut? then Getter(String)
    else if n.GetSelection? then Getter(Array)
    else if n.GetDefaultAction? then Getter(String)
    else if n.Select? then Action([Of(Int)])
    else if n.DoDefaultAction? then Action([])
    else if n.SetValue? then Action([Of(String)])
    else None
  }

  function ItemContainerPatternOps(n: OpName): Option<Signature> {
    if n.FindItemByProperty? then Query([Of(Element), Of(Enum(PropertyId)), AnyRemoteObject], Element)
    else None
  }

  function VirtualizedItemPatternOps(n: OpName): Option<Signature> {
    if n.Realize? then Action([])
    else None
  }

  function SynchronizedInputPatternOps(n: OpName): Option<Signature> {
    if n.StartListening? then Action([Of(Enum(SynchronizedInputType))])
    else if n.Cancel? then Action([])
    else None
  }

  function AnnotationPatternOps(n: OpName): Option<Signature> {
    if n.GetAnnotationTypeId? then Getter(Enum(AnnotationType))
    else if n.GetAnnotationTypeName? then Getter(String)
    else if n.GetAuthor? then Getter(String)
    else if n.GetDateTime? then Getter(String)
    else if n.GetTarget? then Getter(Element)
    else None
  }

  function TextPattern2Ops(n: OpName): Option<Signature> {
    if n.RangeFromAnnotation? then Query([Of(Element)], TextRange)
    else if n.GetCaretRange? then Query([Of(Bool)], TextRange)
    else None
  }

  function StylesPatternOps(n: OpName): Option<Signature> {
    if n.GetStyleId? then Getter(Enum(StyleId))
    else if n.GetStyleName? then Getter(String)
    else if n.GetFillColor? then Getter(Int)
    else if n.GetFillPatternStyle? then Getter(String)
    else if n.GetShape? then Getter(String)
    else if n.GetFillPatternColor? then Getter(Int)
    else if n.GetExtendedProperties? then Getter(String)
    else None
  }

  function SpreadsheetPatternOps(n: OpName): Option<Signature> {
    if n.GetItemByName? then Query([Of(String)], Element)
    else None
  }

  function SpreadsheetItemPatternOps(n: OpName): Option<Signature> {
    if n.GetFormula? then Getter(String)
    else if n.GetAnnotationObjects? then Getter(Array)
    else if n.GetAnnotationTypes? then Getter(Array)
    else None
  }

  function TransformPattern2Ops(n: OpName): Option<Signature> {
    if n.GetCanZoom? then Getter(Bool)
    else if n.GetZoomLevel? then Getter(Double)
    else if n.GetZoomMinimum? then Getter(Double)
    else if n.GetZoomMaximum? then Getter(Double)
    else if n.Zoom? then Action([Of(Double)])
    else if n.ZoomByUnit? then Action([Of(Enum(ZoomUnit))])
    else None
  }

  function TextChildPatternOps(n: OpName): Option<Signature> {
    if n.GetTextContainer? then Getter(Element)
    else if n.GetTextRange? then Getter(TextRange)
    else None
  }

  function DragPatternOps(n: OpName): Option<Signature> {
    if n.GetIsGrabbed? then Getter(Bool)
    else if n.GetDropEffect? then Getter(String)
    else if n.GetDropEffects? then Getter(Array)
    else if n.GetGrabbedItems? then Getter(Array)
    else None
  }

  function DropTargetPatternOps(n: OpName): Option<Signature> {
    if n.GetDropTargetEffect? then Getter(String)
    else if n.GetDropTargetEffects? then Getter(Array)
    else None
  }

  function TextEditPatternOps(n: OpName): Option<Signature> {
    if n.GetActiveComposition? then Getter(TextRange)
    else if n.GetConversionTarget? then Getter(TextRange)
    else None
  }

  function CustomNavigationPatternOps(n: OpName): Option<Signature> {
    if n.Navigate? then Query([Of(Enum(NavigateDirection))], Element)
    else None
  }

  function SelectionPattern2Ops(n: OpName): Option<Signature> {
    if n.GetFirstSelectedItem? then Getter(Element)
    else if n.GetLastSelectedItem? then Getter(Element)
    else if n.GetCurrentSelectedItem? then Getter(Element)
    else if n.GetItemCount? then Getter(Int)
    else None
  }

  /** The operations of a text-range stand-in. */
  function TextRangeOp(n: OpName): Option<Signature> {
    if n.Clone? then Getter(TextRange)
    else if n.Compare? then Query([Of(TextRange)], Bool)
    else if n.CompareEndpoints? then Query([Of(Enum(TextPatternRangeEndpoint)), Of(TextRange), Of(Enum(TextPatternRangeEndpoint))], Int)
    else if n.ExpandToEnclosingUnit? then Action([Of(Enum(TextUnit))])
    else if n.FindAttribute? then Query([Of(Enum(TextAttributeId)), AnyRemoteObject, Of(Bool)], TextRange)
    else if n.FindText? then Query([Of(String), Of(Bool), Of(Bool)], TextRange)
    else if n.GetAttributeValue? then Query([Of(Enum(TextAttributeId))], AnyObject)
    else if n.GetBoundingRectangles? then Getter(Array)
    else if n.GetEnclosingElement? then Getter(Element)
    else if n.GetText? then Query([Of(Int)], String)
    else if n.Move? then Query([Of(Enum(TextUnit)), Of(Int)], Int)
    else if n.MoveEndpointByUnit? then Query([Of(Enum(TextPatternRangeEndpoint)), Of(Enum(TextUnit)), Of(Int)], Int)
    else if n.MoveEndpointByRange? then Action([Of(Enum(TextPatternRangeEndpoint)), Of(TextRange), Of(Enum(TextPatternRangeEndpoint))])
    else if n.Select? then Action([])
    else if n.AddToSelection? then Action([])
    else if n.RemoveFromSelection? then Action([])
    else if n.ScrollIntoView? then Action([Of(Bool)])
    else if n.GetChildren? then Getter(Array)
    else if n.ShowContextMenu? then Action([])
    else None
  }

  /** The operation named `n` on a stand-in of kind `k`: only pattern and text-range stand-ins have such operations. */
  function NamedOp(k: Kind, n: OpName): Option<Signature> {
    match k
    case Pattern(p) => PatternOp(p, n)
    case TextRange => TextRangeOp(n)
    case _ => None
  }

  /** The signature of method `m` on a stand-in of kind `k`, if it has one. */
  function SignatureOf(k: Kind, m: Method): Option<Signature> {
    match m
    case Set => if k.Generated() then Some(Signature([Of(k)], None)) else None
    case IsEqual => if k.Enum? then Some(Signature([Of(k)], Some(Bool))) else None
    case IsNotEqual => if k.Enum? then Some(Signature([Of(k)], Some(Bool))) else None
    case LookupGuid => if k == Enum(AnnotationType) || k == Enum(PropertyId) then Getter(Guid) else None
    case Named(n) => NamedOp(k, n)
  }

  /** The kinds of a sequence of stand-ins, position by position. */
  function KindsOf(xs: seq<StandIn>): (ks: seq<Kind>)
    ensures |ks| == |xs|
    ensures forall i | 0 <= i < |xs| :: ks[i] == xs[i].kind
  {
    seq(|xs|, i requires 0 <= i < |xs| => xs[i].kind)
  }

  /** The operands of a sequence of stand-ins, position by position. */
  function OperandsOf(xs: seq<StandIn>): (ids: seq<OperandId>)
    ensures |ids| == |xs|
    ensures forall i | 0 <= i < |xs| :: ids[i] == xs[i].operand
  {
    seq(|xs|, i requires 0 <= i < |xs| => xs[i].operand)
  }

  predicate Fits(p: Param, k: Kind) {
    match p
    case Of(want) => k == want
    case AnyRemoteObject => true
  }

  /** Argument kinds `args` are accepted by method `m` on kind `k`. */
  predicate Accepts(k: Kind, m: Method, args: seq<Kind>) {
    && SignatureOf(k, m).Some?
    && |SignatureOf(k, m).value.params| == |args|
    && forall j | 0 <= j < |args| :: Fits(SignatureOf(k, m).value.params[j], args[j])
  }
}
