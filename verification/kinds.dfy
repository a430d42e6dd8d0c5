/**
  The semantic kinds of remote objects. Every stand-in class of the client
  library is represented by one tag of `Kind` instead of a class of its own.
 */
module Kinds {

  /** Enumeration- and identifier-like stand-ins (they offer Set, IsEqual and IsNotEqual). */
  datatype EnumKind =
    | ActiveEnd | AnimationStyle | AnnotationType | BulletStyle | CapStyle
    | CaretBidiMode | CaretPosition | ControlType | DockPosition
    | ExpandCollapseState | FlowDirections | HeadingLevel
    | HorizontalTextAlignment | LandmarkType | LiveSetting | Metadata
    | NavigateDirection | OrientationType | OutlineStyles | PatternId
    | PropertyId | RowOrColumnMajor | SayAsInterpretAs | ScrollAmount
    | StyleId | SupportedTextSelection | SynchronizedInputType
    | TextAttributeId | TextDecorationLineStyle | TextPatternRangeEndpoint
    | TextUnit | ToggleState | WindowInteractionState | WindowVisualState
    | ZoomUnit

  /** Control-pattern stand-ins (they offer Set and their own operations). */
  datatype PatternKind =
    | InvokePattern | SelectionPattern | ValuePattern | RangeValuePattern
    | ScrollPattern | ExpandCollapsePattern | GridPattern | GridItemPattern
    | MultipleViewPattern | WindowPattern | SelectionItemPattern | DockPattern
    | TablePattern | TableItemPattern | TextPattern | TogglePattern
    | TransformPattern | ScrollItemPattern | LegacyIAccessiblePattern
    | ItemContainerPattern | VirtualizedItemPattern | SynchronizedInputPattern
    | AnnotationPattern | TextPattern2 | StylesPattern | SpreadsheetPattern
    | SpreadsheetItemPattern | TransformPattern2 | TextChildPattern
    | DragPattern | DropTargetPattern | TextEditPattern
    | CustomNavigationPattern | SelectionPattern2

  /**
    A stand-in kind. `Enum`, `Pattern` and `TextRange` are the generated
    classes; the remaining tags are the hand-written value and element
    stand-ins that the generated classes mention as argument or result types.
   */
  datatype Kind =
    | Enum(enumKind: EnumKind)
    | Pattern(patternKind: PatternKind)
    | TextRange
    | Bool | Int | Uint | Double | Char | String | Point | Rect | Guid
    | CacheRequest | Array | StringMap | AnyObject | ByteArray
    | Element | ConnectionBoundObject
  {
    /** True for the kinds whose classes come from the generated stand-in file. */
    predicate Generated() {
      Enum? || Pattern? || TextRange?
    }
  }

  /** The runtime base class a generated stand-in derives from. */
  datatype BaseClass = RemoteObject | ExtensionTarget

  function BaseOf(k: Kind): BaseClass
    requires k.Generated()
  {
    if k.TextRange? then ExtensionTarget else RemoteObject
  }
}
