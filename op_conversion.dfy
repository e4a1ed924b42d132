/** The generic per-kind conversion rule
    (`StablehloToHloOpConverter::matchAndRewrite` in
    stablehlo_legalize_to_hlo.cc): one StableHLO operation is replaced by
    the MHLO operation of the same mnemonic. */
module OpConversion {

  import opened Wrappers
  import opened AttrConversion

  /** A type, opaque to this core: only the injected converter looks at it. */
  datatype Type = Type(name: string)

  /** An SSA value, known by its identity only. */
  datatype Value = Value(id: nat)

  /** An operation kind, by mnemonic ("compare", "case", ...). A StableHLO
      kind maps to the MHLO kind with the same mnemonic. */
  type OpKind = string

  /** The one kind whose builder takes an extra argument. */
  const CaseKind: OpKind := "case"

  datatype NamedAttribute = NamedAttribute(name: string, value: Attr)

  /** A block, known by its identity only; the operations inside it are
      already converted when its region is moved. */
  datatype Block = Block(id: nat)

  /** A region: the list of blocks an operation owns. */
  class Region {
    var blocks: seq<Block>

    constructor ()
      ensures blocks == []
    {
      blocks := [];
    }
  }

  /** The regions of an operation are distinct objects (each is owned by
      exactly one operation). */
  ghost predicate Distinct(rs: seq<Region>)
  {
    forall i, j :: 0 <= i < j < |rs| ==> rs[i] != rs[j]
  }

  /** A source (StableHLO) operation. */
  datatype Op = Op(
    kind: OpKind,
    resultTypes: seq<Type>,
    operands: seq<Value>,
    attrs: seq<NamedAttribute>,
    regions: seq<Region>)

  /** The adaptor: the operands as already converted by the driver. */
  datatype Adaptor = Adaptor(operands: seq<Value>)

  /** What the MHLO side knows of itself: its enum symbols, and how many
      regions the generated builder of each (non-case) kind creates. */
  datatype TargetDialect = TargetDialect(symbols: SymbolTable, regionCount: OpKind -> nat)

  /** The injected type converter. */
  class TypeConverter {
    const convert: Type -> Option<Type>

    constructor (convert: Type -> Option<Type>)
      ensures this.convert == convert
    {
      this.convert := convert;
    }
  }

  /** `TypeConverter::convertTypes`: converts every type in order and fails
      if any one fails. */
  function ConvertTypes(ts: seq<Type>, convert: Type -> Option<Type>): (r: Option<seq<Type>>)
    ensures r.Some? ==> |r.value| == |ts|
    ensures r.Some? ==> forall i :: 0 <= i < |ts| ==> convert(ts[i]) == Some(r.value[i])
    ensures r.None? <==> exists i :: 0 <= i < |ts| && convert(ts[i]).None?
  {
    if ts == [] then Some([])
    else
      match convert(ts[0])
      case None => None
      case Some(t) =>
        match ConvertTypes(ts[1..], convert)
        case None => None
        case Some(us) => Some([t] + us)
  }

  /** The attribute list of an operation, each value translated and each
      name kept; fails if any value fails to translate. */
  function ConvertNamedAttrs(attrs: seq<NamedAttribute>, symbols: SymbolTable): (r: Option<seq<NamedAttribute>>)
    ensures r.Some? ==> |r.value| == |attrs|
    ensures r.Some? ==> forall i :: 0 <= i < |attrs| ==>
      r.value[i].name == attrs[i].name && ConvertAttr(attrs[i].value, symbols) == Some(r.value[i].value)
    ensures r.None? <==> exists i :: 0 <= i < |attrs| && ConvertAttr(attrs[i].value, symbols).None?
  {
    if attrs == [] then Some([])
    else
      match ConvertAttr(attrs[0].value, symbols)
      case None => None
      case Some(v) =>
        match ConvertNamedAttrs(attrs[1..], symbols)
        case None => None
        case Some(rest) => Some([NamedAttribute(attrs[0].name, v)] + rest)
  }

  /** The arguments the rule passes to the target builder; `branchCount` is
      the extra argument only the case builder takes. */
  datatype OpBuild = OpBuild(
    kind: OpKind,
    resultTypes: seq<Type>,
    operands: seq<Value>,
    attrs: seq<NamedAttribute>,
    branchCount: Option<nat>)

  /** What the rule builds for `op`, or `None` when it does not apply. */
  function ConvertOp(op: Op, adaptor: Adaptor, convert: Type -> Option<Type>, symbols: SymbolTable): (r: Option<OpBuild>)
    ensures r.None? <==>
      || (exists i :: 0 <= i < |op.resultTypes| && convert(op.resultTypes[i]).None?)
      || (exists i :: 0 <= i < |op.attrs| && ConvertAttr(op.attrs[i].value, symbols).None?)
    ensures r.Some? ==>
      && r.value.kind == op.kind
      && |r.value.resultTypes| == |op.resultTypes|
      && (forall i :: 0 <= i < |op.resultTypes| ==> convert(op.resultTypes[i]) == Some(r.value.resultTypes[i]))
      && r.value.operands == adaptor.operands
      && |r.value.attrs| == |op.attrs|
      && (forall i :: 0 <= i < |op.attrs| ==>
            r.value.attrs[i].name == op.attrs[i].name
            && ConvertAttr(op.attrs[i].value, symbols) == Some(r.value.attrs[i].value))
    ensures r.Some? ==> r.value.branchCount == if op.kind == CaseKind then Some(|op.regions|) else None
  {
    match ConvertTypes(op.resultTypes, convert)
    case None => None
    case Some(types) =>
      match ConvertNamedAttrs(op.attrs, symbols)
      case None => None
      case Some(attrs) =>
        var branches := if op.kind == CaseKind then Some(|op.regions|) else None;
        Some(OpBuild(op.kind, types, adaptor.operands, attrs, branches))
  }

  /** The number of regions the target builder creates for `b`. */
  function TargetRegionCount(b: OpBuild, target: TargetDialect): nat
  {
    match b.branchCount
    case Some(n) => n
    case None => target.regionCount(b.kind)
  }

  /** The new operation has at least as many region slots as the source has
      regions (so the region loop moves every source region) exactly when
      the kind is case, whose builder receives the branch count, or the
      target builder's own region count is large enough; the counts are
      equal exactly when the kind is case or the builder's count agrees. */
  lemma RegionSlotsMatch(op: Op, adaptor: Adaptor, convert: Type -> Option<Type>, target: TargetDialect)
    requires ConvertOp(op, adaptor, convert, target.symbols).Some?
    ensures var b := ConvertOp(op, adaptor, convert, target.symbols).value;
      TargetRegionCount(b, target) == |op.regions| <==>
        op.kind == CaseKind || target.regionCount(op.kind) == |op.regions|
    ensures var b := ConvertOp(op, adaptor, convert, target.symbols).value;
      TargetRegionCount(b, target) >= |op.regions| <==>
        op.kind == CaseKind || target.regionCount(op.kind) >= |op.regions|
  {
  }

  /** A newly built MHLO operation with its (initially empty) region slots. */
  class TargetOp {
    const kind: OpKind
    const resultTypes: seq<Type>
    const operands: seq<Value>
    const attrs: seq<NamedAttribute>
    const regions: seq<Region>

    constructor (kind: OpKind, resultTypes: seq<Type>, operands: seq<Value>,
                 attrs: seq<NamedAttribute>, numRegions: nat)
      ensures this.kind == kind && this.resultTypes == resultTypes
      ensures this.operands == operands && this.attrs == attrs
      ensures |regions| == numRegions && Distinct(regions)
      ensures forall i :: 0 <= i < |regions| ==> fresh(regions[i]) && regions[i].blocks == []
    {
      var rs: seq<Region> := [];
      while |rs| < numRegions
        invariant |rs| <= numRegions && Distinct(rs)
        invariant forall i :: 0 <= i < |rs| ==> fresh(rs[i]) && rs[i].blocks == []
      {
        var r := new Region();
        rs := rs + [r];
      }
      this.kind := kind;
      this.resultTypes := resultTypes;
      this.operands := operands;
      this.attrs := attrs;
      this.regions := rs;
    }

    /** This operation was built from the builder arguments `b`. */
    predicate BuiltFrom(b: OpBuild)
    {
      && kind == b.kind && resultTypes == b.resultTypes
      && operands == b.operands && attrs == b.attrs
    }
  }

  /** One recorded replacement: `source` is replaced by `target`. */
  datatype Replacement = Replacement(source: Op, target: TargetOp)

  /** The two rewriter primitives this rule uses. Replacement is recorded,
      in order; how the driver later commits it is not part of this core. */
  class ConversionPatternRewriter {
    var replacements: seq<Replacement>

    constructor ()
      ensures replacements == []
    {
      replacements := [];
    }

    /** Builds the target operation and records that it replaces `source`. */
    method ReplaceOpWithNewOp(source: Op, b: OpBuild, numRegions: nat) returns (t: TargetOp)
      modifies this
      ensures fresh(t) && t.BuiltFrom(b)
      ensures |t.regions| == numRegions && Distinct(t.regions)
      ensures forall i :: 0 <= i < |t.regions| ==> fresh(t.regions[i]) && t.regions[i].blocks == []
      ensures replacements == old(replacements) + [Replacement(source, t)]
    {
      t := new TargetOp(b.kind, b.resultTypes, b.operands, b.attrs, numRegions);
      replacements := replacements + [Replacement(source, t)];
    }

    /** Moves all blocks of `src` to the end of `dst`, leaving `src` empty. */
    method InlineRegionBefore(src: Region, dst: Region)
      requires src != dst
      modifies src, dst
      ensures dst.blocks == old(dst.blocks) + old(src.blocks)
      ensures src.blocks == []
    {
      dst.blocks := dst.blocks + src.blocks;
      src.blocks := [];
    }
  }

  /** The conversion rule for one StableHLO kind. */
  class StablehloToHloOpConverter {
    const rootKind: OpKind
    const typeConverter: TypeConverter
    const target: TargetDialect

    constructor (rootKind: OpKind, typeConverter: TypeConverter, target: TargetDialect)
      ensures this.rootKind == rootKind && this.typeConverter == typeConverter
      ensures this.target == target
    {
      this.rootKind := rootKind;
      this.typeConverter := typeConverter;
      this.target := target;
    }

    /** The attribute loop of the rule: translates every attribute value,
        keeping its name, and stops at the first failure. */
    method ConvertAttributes(attrs: seq<NamedAttribute>) returns (r: Option<seq<NamedAttribute>>)
      ensures r == ConvertNamedAttrs(attrs, target.symbols)
    {
      var hloAttrs: seq<NamedAttribute> := [];
      for i := 0 to |attrs|
        invariant |hloAttrs| == i
        invariant forall j :: 0 <= j < i ==>
          hloAttrs[j].name == attrs[j].name
          && ConvertAttr(attrs[j].value, target.symbols) == Some(hloAttrs[j].value)
      {
        var hloAttr := ConvertAttr(attrs[i].value, target.symbols);
        if hloAttr.None? {
          return None;
        }
        hloAttrs := hloAttrs + [NamedAttribute(attrs[i].name, hloAttr.value)];
      }
      var spec := ConvertNamedAttrs(attrs, target.symbols);
      assert spec.Some? && |spec.value| == |hloAttrs|;
      assert forall j :: 0 <= j < |attrs| ==> spec.value[j] == hloAttrs[j];
      assert spec.value == hloAttrs;
      return Some(hloAttrs);
    }

    /** Replaces `op` by its MHLO counterpart, or fails leaving everything
        untouched. On success the source regions are moved, in order, into
        the new operation's region slots, pairwise as far as both lists
        reach. */
    method MatchAndRewrite(op: Op, adaptor: Adaptor, rewriter: ConversionPatternRewriter) returns (success: bool)
      requires op.kind == rootKind
      requires Distinct(op.regions)
      modifies rewriter, op.regions
      ensures success <==> ConvertOp(op, adaptor, typeConverter.convert, target.symbols).Some?
      ensures !success ==> rewriter.replacements == old(rewriter.replacements)
      ensures !success ==> forall j :: 0 <= j < |op.regions| ==> op.regions[j].blocks == old(op.regions[j].blocks)
      ensures success ==>
        && |rewriter.replacements| == |old(rewriter.replacements)| + 1
        && rewriter.replacements[..|old(rewriter.replacements)|] == old(rewriter.replacements)
      ensures success ==>
        var b := ConvertOp(op, adaptor, typeConverter.convert, target.symbols).value;
        var t := rewriter.replacements[|old(rewriter.replacements)|].target;
        && rewriter.replacements[|old(rewriter.replacements)|].source == op
        && fresh(t) && t.BuiltFrom(b)
        && |t.regions| == TargetRegionCount(b, target)
        && (forall j :: 0 <= j < |t.regions| ==> fresh(t.regions[j]))
        && (forall j :: 0 <= j < |op.regions| && j < |t.regions| ==>
              t.regions[j].blocks == old(op.regions[j].blocks) && op.regions[j].blocks == [])
        && (forall j :: |t.regions| <= j < |op.regions| ==> op.regions[j].blocks == old(op.regions[j].blocks))
        && (forall j :: |op.regions| <= j < |t.regions| ==> t.regions[j].blocks == [])
    {
      var hloTypes := ConvertTypes(op.resultTypes, typeConverter.convert);
      if hloTypes.None? {
        return false;
      }
      var hloOperands := adaptor.operands;
      var hloAttrs := ConvertAttributes(op.attrs);
      if hloAttrs.None? {
        return false;
      }
      var branches := if op.kind == CaseKind then Some(|op.regions|) else None;
      var b := OpBuild(op.kind, hloTypes.value, hloOperands, hloAttrs.value, branches);
      assert ConvertOp(op, adaptor, typeConverter.convert, target.symbols) == Some(b);
      var hloOp := rewriter.ReplaceOpWithNewOp(op, b, TargetRegionCount(b, target));
      ghost var replaced := rewriter.replacements;

      var n := if |op.regions| < |hloOp.regions| then |op.regions| else |hloOp.regions|;
      for i := 0 to n
        invariant rewriter.replacements == replaced
        invariant forall j :: 0 <= j < i ==>
          hloOp.regions[j].blocks == old(op.regions[j].blocks) && op.regions[j].blocks == []
        invariant forall j :: i <= j < |op.regions| ==> op.regions[j].blocks == old(op.regions[j].blocks)
        invariant forall j :: i <= j < |hloOp.regions| ==> hloOp.regions[j].blocks == []
      {
        rewriter.InlineRegionBefore(op.regions[i], hloOp.regions[i]);
      }
      return true;
    }
  }
}
