/**
  What the stand-in signature table promises: which kinds offer Set,
  IsEqual, IsNotEqual and LookupGuid, and what representative operations
  give back.
 */
module SignatureFacts {
  import opened Wrappers
  import opened Kinds
  import opened Names
  import opened Standins

  /**
    Every generated stand-in has `Set`, which takes exactly one stand-in of
    the receiver's own kind and gives nothing back.
   */
  lemma SetTakesSameKind(k: Kind, args: seq<Kind>)
    ensures k.Generated() ==> SignatureOf(k, Set) == Some(Signature([Of(k)], None))
    ensures k.Generated() ==> (Accepts(k, Set, args) <==> args == [k])
  {
    if k.Generated() && Accepts(k, Set, args) {
      assert Fits(Of(k), args[0]);
    }
  }

  /**
    Among the generated stand-ins, `IsEqual` and `IsNotEqual` exist exactly
    on the enum and id kinds; they take one stand-in of the same kind and
    give a Bool.
   */
  lemma EqualityOnEnumsOnly(k: Kind, m: Method, args: seq<Kind>)
    requires m == IsEqual || m == IsNotEqual
    ensures k.Generated() ==> (SignatureOf(k, m).Some? <==> k.Enum?)
    ensures k.Enum? ==> SignatureOf(k, m) == Some(Signature([Of(k)], Some(Bool)))
    ensures k.Enum? ==> (Accepts(k, m, args) <==> args == [k])
  {
    if k.Enum? && Accepts(k, m, args) {
      assert Fits(Of(k), args[0]);
    }
  }

  /**
    An enum or id stand-in offers Set, IsEqual and IsNotEqual, and
    LookupGuid only when it is AnnotationType or PropertyId; nothing else.
   */
  lemma EnumMethods(e: EnumKind, m: Method)
    ensures SignatureOf(Enum(e), m).Some? <==>
      m.Set? || m.IsEqual? || m.IsNotEqual? || (m.LookupGuid? && (e == AnnotationType || e == PropertyId))
  {
  }

  /** Pattern stand-ins can be assigned but not compared. */
  lemma PatternsHaveSetButNoEquality(p: PatternKind)
    ensures SignatureOf(Pattern(p), Set) == Some(Signature([Of(Pattern(p))], None))
    ensures SignatureOf(Pattern(p), IsEqual).None? && SignatureOf(Pattern(p), IsNotEqual).None?
  {
  }

  /** `LookupGuid` exists only on AnnotationType and PropertyId, and gives a Guid. */
  lemma LookupGuidOnlyOnIds(k: Kind)
    ensures SignatureOf(k, LookupGuid).Some? <==> k == Enum(AnnotationType) || k == Enum(PropertyId)
    ensures SignatureOf(k, LookupGuid).Some? ==>
      SignatureOf(k, LookupGuid).value == Signature([], Some(Guid))
  {
  }

  /** TextRange is the one generated stand-in built on ExtensionTarget; every other one is a RemoteObject. */
  lemma OnlyTextRangeExtends(k: Kind)
    requires k.Generated()
    ensures BaseOf(k) == ExtensionTarget <==> k == TextRange
  {
  }

  /** Among the generated stand-ins, only pattern and text-range ones have named operations. */
  lemma NamedOnlyOnPatternsAndRanges(k: Kind, n: OpName)
    ensures k.Generated() && SignatureOf(k, Named(n)).Some? ==> k.Pattern? || k == TextRange
  {
  }

  /** Text-range navigation gives text ranges back. */
  lemma TextRangeResults()
    ensures SignatureOf(TextRange, Named(Clone)) == Getter(TextRange)
    ensures SignatureOf(TextRange, Named(FindAttribute)) == Query([Of(Enum(TextAttributeId)), AnyRemoteObject, Of(Bool)], TextRange)
    ensures SignatureOf(TextRange, Named(FindText)) == Query([Of(String), Of(Bool), Of(Bool)], TextRange)
  {
  }

  /** Comparing two text ranges gives a Bool. */
  lemma TextRangeCompare()
    ensures SignatureOf(TextRange, Named(OpName.Compare)) == Query([Of(TextRange)], Bool)
  {
  }

  /** RangeValue getters give a Double. */
  lemma RangeValueGetters()
    ensures SignatureOf(Pattern(RangeValuePattern), Named(GetValue)) == Getter(Double)
    ensures SignatureOf(Pattern(RangeValuePattern), Named(GetMaximum)) == Getter(Double)
    ensures SignatureOf(Pattern(RangeValuePattern), Named(GetMinimum)) == Getter(Double)
    ensures SignatureOf(Pattern(RangeValuePattern), Named(GetLargeChange)) == Getter(Double)
    ensures SignatureOf(Pattern(RangeValuePattern), Named(GetSmallChange)) == Getter(Double)
  {
  }

  /** Grid counts give an Int and GetItem(row, column) gives an Element. */
  lemma GridResults()
    ensures SignatureOf(Pattern(GridPattern), Named(GetRowCount)) == Getter(Int)
    ensures SignatureOf(Pattern(GridPattern), Named(GetColumnCount)) == Getter(Int)
    ensures SignatureOf(Pattern(GridPattern), Named(GetItem)) == Query([Of(Int), Of(Int)], Element)
  {
  }

  /** Actions give no stand-in back. */
  lemma ActionsReturnNothing()
    ensures SignatureOf(Pattern(InvokePattern), Named(Invoke)) == Action([])
    ensures SignatureOf(Pattern(ExpandCollapsePattern), Named(Expand)) == Action([])
    ensures SignatureOf(Pattern(ExpandCollapsePattern), Named(Collapse)) == Action([])
    ensures SignatureOf(Pattern(TogglePattern), Named(Toggle)) == Action([])
  {
  }
}
