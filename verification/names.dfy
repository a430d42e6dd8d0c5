/**
  The names of the operations the generated pattern and text-range stand-ins
  declare besides Set: a closed set, since the stand-in header is
  generated from a fixed list of patterns.
 */
module Names {
  datatype OpName =
    | Invoke | GetSelection | GetCanSelectMultiple | GetIsSelectionRequired | GetValue
    | GetIsReadOnly | SetValue | GetMaximum | GetMinimum | GetLargeChange | GetSmallChange
    | GetHorizontalScrollPercent | GetVerticalScrollPercent | GetHorizontalViewSize
    | GetVerticalViewSize | GetHorizontallyScrollable | GetVerticallyScrollable | Scroll
    | SetScrollPercent | GetExpandCollapseState | Expand | Collapse | GetRowCount | GetColumnCount
    | GetItem | GetContainingGrid | GetRow | GetColumn | GetRowSpan | GetColumnSpan | GetCurrentView
    | GetSupportedViews | GetViewName | SetCurrentView | GetCanMaximize | GetCanMinimize
    | GetIsModal | GetIsTopmost | GetWindowVisualState | GetWindowInteractionState | Close
    | WaitForInputIdle | SetWindowVisualState | GetIsSelected | GetSelectionContainer | Select
    | AddToSelection | RemoveFromSelection | GetDockPosition | SetDockPosition | GetRowHeaders
    | GetColumnHeaders | GetRowOrColumnMajor | GetRowHeaderItems | GetColumnHeaderItems
    | RangeFromPoint | RangeFromChild | GetVisibleRanges | GetDocumentRange
    | GetSupportedTextSelection | GetToggleState | Toggle | GetCanMove | GetCanResize | GetCanRotate
    | Move | Resize | Rotate | ScrollIntoView | GetChildId | GetName | GetDescription | GetRole
    | GetState | GetHelp | GetKeyboardShortcut | GetDefaultAction | DoDefaultAction
    | FindItemByProperty | Realize | StartListening | Cancel | GetAnnotationTypeId
    | GetAnnotationTypeName | GetAuthor | GetDateTime | GetTarget | RangeFromAnnotation
    | GetCaretRange | GetStyleId | GetStyleName | GetFillColor | GetFillPatternStyle | GetShape
    | GetFillPatternColor | GetExtendedProperties | GetItemByName | GetFormula
    | GetAnnotationObjects | GetAnnotationTypes | GetCanZoom | GetZoomLevel | GetZoomMinimum
    | GetZoomMaximum | Zoom | ZoomByUnit | GetTextContainer | GetTextRange | GetIsGrabbed
    | GetDropEffect | GetDropEffects | GetGrabbedItems | GetDropTargetEffect | GetDropTargetEffects
    | GetActiveComposition | GetConversionTarget | Navigate | GetFirstSelectedItem
    | GetLastSelectedItem | GetCurrentSelectedItem | GetItemCount | Clone | Compare
    | CompareEndpoints | ExpandToEnclosingUnit | FindAttribute | FindText | GetAttributeValue
    | GetBoundingRectangles | GetEnclosingElement | GetText | MoveEndpointByUnit
    | MoveEndpointByRange | GetChildren | ShowContextMenu
}
