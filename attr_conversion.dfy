/** Translation of StableHLO attributes into their MHLO equivalents
    (`convertAttr` in stablehlo_legalize_to_hlo.cc). */
module AttrConversion {

  import opened Wrappers

  /** The two dialects whose attribute kinds the translator knows by name. */
  datatype Dialect = Stablehlo | Mhlo

  /** The enumerated attribute kinds; each dialect defines one of each. */
  datatype EnumKind =
    | ComparisonDirection
    | ComparisonType
    | CustomCallApiVersion
    | FftType
    | Precision
    | RngAlgorithm
    | RngDistribution
    | Transpose

  /** The enum symbols the target dialect knows: `(k, s)` is present exactly
      when MHLO's generated `symbolize` function for kind `k` accepts `s`. */
  type SymbolTable = set<(EnumKind, string)>

  const StablehloNamespace := "stablehlo"
  const MhloNamespace := "mhlo"
  const BuiltinNamespace := "builtin"

  /** An attribute value. The records and enums belong to the dialect named
      by their `dialect` field; an enum value is represented by the symbol
      its `stringify` function gives. `Array` is the builtin ArrayAttr and
      `Dictionary` the builtin DictionaryAttr, whose entries may themselves
      be attributes of any dialect. `Opaque` is every other attribute: builtin ones (integers, strings,
      dense elements, ...), those of other dialects, and StableHLO
      attribute kinds that the translator does not handle (namespace
      "stablehlo"). */
  datatype Attr =
    | ChannelHandle(dialect: Dialect, handle: int, channelType: int)
    | ConvDimensionNumbers(
        dialect: Dialect,
        inputBatchDimension: int,
        inputFeatureDimension: int,
        inputSpatialDimensions: seq<int>,
        kernelInputFeatureDimension: int,
        kernelOutputFeatureDimension: int,
        kernelSpatialDimensions: seq<int>,
        outputBatchDimension: int,
        outputFeatureDimension: int,
        outputSpatialDimensions: seq<int>)
    | DotDimensionNumbers(
        dialect: Dialect,
        lhsBatchingDimensions: seq<int>,
        rhsBatchingDimensions: seq<int>,
        lhsContractingDimensions: seq<int>,
        rhsContractingDimensions: seq<int>)
    | GatherDimensionNumbers(
        dialect: Dialect,
        offsetDims: seq<int>,
        collapsedSliceDims: seq<int>,
        startIndexMap: seq<int>,
        indexVectorDim: int)
    | ScatterDimensionNumbers(
        dialect: Dialect,
        updateWindowDims: seq<int>,
        insertedWindowDims: seq<int>,
        scatterDimsToOperandDims: seq<int>,
        indexVectorDim: int)
    | Enum(dialect: Dialect, kind: EnumKind, symbol: string)
    | Array(elems: seq<Attr>)
    | Dictionary(entries: seq<(string, Attr)>)
    | Opaque(namespace: string, body: string)

  /** The namespace of the dialect an attribute belongs to. */
  function Namespace(a: Attr): string
  {
    match a
    case Array(_) => BuiltinNamespace
    case Dictionary(_) => BuiltinNamespace
    case Opaque(ns, _) => ns
    case _ => if a.dialect == Stablehlo then StablehloNamespace else MhloNamespace
  }

  /** The structured record kinds. */
  predicate IsRecord(a: Attr)
  {
    a.ChannelHandle? || a.ConvDimensionNumbers? || a.DotDimensionNumbers?
    || a.GatherDimensionNumbers? || a.ScatterDimensionNumbers?
  }

  /** No attribute of the StableHLO namespace occurs in `a` at top level or
      inside arrays (the entries of a dictionary are not looked at). */
  predicate FreeOfStablehlo(a: Attr)
    decreases a
  {
    && Namespace(a) != StablehloNamespace
    && (a.Array? ==> forall i | 0 <= i < |a.elems| :: FreeOfStablehlo(a.elems[i]))
  }

  /** The enum case: look the stringified symbol up among the target
      dialect's symbols of the same kind. */
  function ConvertEnum(kind: EnumKind, symbol: string, symbols: SymbolTable): (r: Option<Attr>)
    ensures r.Some? <==> (kind, symbol) in symbols
    ensures r.Some? ==> r.value == Enum(Mhlo, kind, symbol)
  {
    if (kind, symbol) in symbols then Some(Enum(Mhlo, kind, symbol)) else None
  }

  /** Translates one attribute; `None` is the null attribute of the source,
      i.e. failure. */
  function ConvertAttr(a: Attr, symbols: SymbolTable): (r: Option<Attr>)
    ensures r.Some? ==> FreeOfStablehlo(r.value)
    decreases a
  {
    if a.ChannelHandle? && a.dialect == Stablehlo then
      Some(ChannelHandle(Mhlo, a.handle, a.channelType))
    else if a.ConvDimensionNumbers? && a.dialect == Stablehlo then
      Some(ConvDimensionNumbers(
             Mhlo, a.inputBatchDimension, a.inputFeatureDimension,
             a.inputSpatialDimensions, a.kernelInputFeatureDimension,
             a.kernelOutputFeatureDimension, a.kernelSpatialDimensions,
             a.outputBatchDimension, a.outputFeatureDimension,
             a.outputSpatialDimensions))
    else if a.DotDimensionNumbers? && a.dialect == Stablehlo then
      Some(DotDimensionNumbers(
             Mhlo, a.lhsBatchingDimensions, a.rhsBatchingDimensions,
             a.lhsContractingDimensions, a.rhsContractingDimensions))
    else if a.GatherDimensionNumbers? && a.dialect == Stablehlo then
      Some(GatherDimensionNumbers(
             Mhlo, a.offsetDims, a.collapsedSliceDims, a.startIndexMap,
             a.indexVectorDim))
    else if a.ScatterDimensionNumbers? && a.dialect == Stablehlo then
      Some(ScatterDimensionNumbers(
             Mhlo, a.updateWindowDims, a.insertedWindowDims,
             a.scatterDimsToOperandDims, a.indexVectorDim))
    else if a.Enum? && a.dialect == Stablehlo then
      ConvertEnum(a.kind, a.symbol, symbols)
    else if Namespace(a) == StablehloNamespace then
      // a StableHLO attribute kind the translator was not taught
      None
    else if a.Array? then
      match ConvertAttrs(a.elems, symbols)
      case None => None
      case Some(ys) => Some(Array(ys))
    else
      Some(a)
  }

  /** The elements of an array attribute, translated in order; fails at the
      first element whose translation fails. */
  function ConvertAttrs(xs: seq<Attr>, symbols: SymbolTable): (r: Option<seq<Attr>>)
    ensures r.Some? ==> |r.value| == |xs|
    ensures r.Some? ==> forall i :: 0 <= i < |xs| ==> ConvertAttr(xs[i], symbols) == Some(r.value[i])
    ensures r.None? <==> exists i :: 0 <= i < |xs| && ConvertAttr(xs[i], symbols).None?
    decreases xs
  {
    if xs == [] then Some([])
    else
      match ConvertAttr(xs[0], symbols)
      case None => None
      case Some(y) =>
        match ConvertAttrs(xs[1..], symbols)
        case None => None
        case Some(ys) => Some([y] + ys)
  }

  /** An attribute outside the StableHLO namespace that is not an array is
      returned unchanged. */
  lemma ForeignAttrUnchanged(a: Attr, symbols: SymbolTable)
    requires Namespace(a) != StablehloNamespace && !a.Array?
    ensures ConvertAttr(a, symbols) == Some(a)
  {
  }

  /** A dictionary is not looked into: it is returned unchanged even when
      its entries hold StableHLO attributes. */
  lemma DictionaryUnchanged(entries: seq<(string, Attr)>, symbols: SymbolTable)
    ensures ConvertAttr(Dictionary(entries), symbols) == Some(Dictionary(entries))
  {
  }

  /** An array translates to an array of the same length whose i-th element
      is the translation of the i-th source element; `[]` maps to `[]`. */
  lemma ArrayElementwise(xs: seq<Attr>, symbols: SymbolTable)
    ensures xs == [] ==> ConvertAttr(Array(xs), symbols) == Some(Array([]))
    ensures ConvertAttr(Array(xs), symbols).Some? ==>
      var r := ConvertAttr(Array(xs), symbols).value;
      && r.Array? && |r.elems| == |xs|
      && forall i :: 0 <= i < |xs| ==> ConvertAttr(xs[i], symbols) == Some(r.elems[i])
  {
  }

  /** An array fails to translate exactly when one of its elements does. */
  lemma ArrayFailsIff(xs: seq<Attr>, symbols: SymbolTable)
    ensures ConvertAttr(Array(xs), symbols).None? <==>
      exists i :: 0 <= i < |xs| && ConvertAttr(xs[i], symbols).None?
  {
  }

  /** A StableHLO enum translates to the MHLO enum of the same kind with the
      same stringified symbol, and fails exactly when MHLO has no such
      symbol. */
  lemma EnumTranslation(kind: EnumKind, symbol: string, symbols: SymbolTable)
    ensures ConvertAttr(Enum(Stablehlo, kind, symbol), symbols).Some? <==> (kind, symbol) in symbols
    ensures ConvertAttr(Enum(Stablehlo, kind, symbol), symbols).Some? ==>
      var r := ConvertAttr(Enum(Stablehlo, kind, symbol), symbols).value;
      r.Enum? && r.dialect == Mhlo && r.kind == kind && r.symbol == symbol
  {
  }

  /** A StableHLO record always translates, into the MHLO record of the same
      kind whose every field equals the source's. */
  lemma RecordTranslation(a: Attr, symbols: SymbolTable)
    requires IsRecord(a) && a.dialect == Stablehlo
    ensures match a
      case ChannelHandle(_, h, t) =>
        ConvertAttr(a, symbols) == Some(ChannelHandle(Mhlo, h, t))
      case ConvDimensionNumbers(_, ibd, ifd, isd, kifd, kofd, ksd, obd, ofd, osd) =>
        ConvertAttr(a, symbols) == Some(ConvDimensionNumbers(Mhlo, ibd, ifd, isd, kifd, kofd, ksd, obd, ofd, osd))
      case DotDimensionNumbers(_, lb, rb, lc, rc) =>
        ConvertAttr(a, symbols) == Some(DotDimensionNumbers(Mhlo, lb, rb, lc, rc))
      case GatherDimensionNumbers(_, od, cs, sim, ivd) =>
        ConvertAttr(a, symbols) == Some(GatherDimensionNumbers(Mhlo, od, cs, sim, ivd))
      case ScatterDimensionNumbers(_, uw, iw, sd, ivd) =>
        ConvertAttr(a, symbols) == Some(ScatterDimensionNumbers(Mhlo, uw, iw, sd, ivd))
      case _ => false
  {
  }

  /** A StableHLO-namespace attribute of a kind the translator does not
      handle always fails; no StableHLO attribute is ever passed through. */
  lemma UnhandledStablehloFails(a: Attr, symbols: SymbolTable)
    requires Namespace(a) == StablehloNamespace
    ensures !IsRecord(a) && !a.Enum? ==> ConvertAttr(a, symbols).None?
    ensures ConvertAttr(a, symbols) != Some(a)
  {
  }

  /** An attribute already free of StableHLO is its own translation. */
  lemma {:induction false} FreeAttrUnchanged(a: Attr, symbols: SymbolTable)
    requires FreeOfStablehlo(a)
    ensures ConvertAttr(a, symbols) == Some(a)
    decreases a
  {
    if a.Array? {
      FreeAttrsUnchanged(a.elems, symbols);
    }
  }

  lemma {:induction false} FreeAttrsUnchanged(xs: seq<Attr>, symbols: SymbolTable)
    requires forall i :: 0 <= i < |xs| ==> FreeOfStablehlo(xs[i])
    ensures ConvertAttrs(xs, symbols) == Some(xs)
    decreases xs
  {
    if xs != [] {
      FreeAttrUnchanged(xs[0], symbols);
      FreeAttrsUnchanged(xs[1..], symbols);
      assert [xs[0]] + xs[1..] == xs;
    }
  }

  /** Translating a translated attribute again changes nothing. */
  lemma ConvertIdempotent(a: Attr, symbols: SymbolTable)
    requires ConvertAttr(a, symbols).Some?
    ensures ConvertAttr(ConvertAttr(a, symbols).value, symbols) == ConvertAttr(a, symbols)
  {
    FreeAttrUnchanged(ConvertAttr(a, symbols).value, symbols);
  }
}
