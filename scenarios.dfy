/** What a client of the rule can conclude from its contract alone, for the
    compare and case operations and for two independent operations. */
module Scenarios {

  import opened Wrappers
  import opened AttrConversion
  import opened OpConversion

  /** A compare with `comparison_direction = GE`, two operands and a
      `tensor<4xi1>` result becomes an MHLO compare with the same direction,
      the same operands and the converted result type. */
  method CompareScenario()
  {
    var tensor := Type("tensor<4xi1>");
    var mhloTensor := Type("mhlo-tensor<4xi1>");
    var tc := new TypeConverter(t => if t == tensor then Some(mhloTensor) else None);
    var target := TargetDialect({(ComparisonDirection, "GE")}, _ => 0);
    var rule := new StablehloToHloOpConverter("compare", tc, target);
    var direction := NamedAttribute("comparison_direction", Enum(Stablehlo, ComparisonDirection, "GE"));
    var op := Op("compare", [tensor], [Value(1), Value(2)], [direction], []);
    var rewriter := new ConversionPatternRewriter();
    var ok := rule.MatchAndRewrite(op, Adaptor([Value(1), Value(2)]), rewriter);
    assert ConvertAttr(direction.value, target.symbols) == Some(Enum(Mhlo, ComparisonDirection, "GE"));
    assert ok;
    var t := rewriter.replacements[0].target;
    assert t.kind == "compare" && t.resultTypes == [mhloTensor];
    assert t.operands == [Value(1), Value(2)];
    assert t.attrs == [NamedAttribute("comparison_direction", Enum(Mhlo, ComparisonDirection, "GE"))];
  }

  /** A case with three branches is built with branch count 3 and receives
      the three regions in their original order. */
  method CaseScenario()
  {
    var tc := new TypeConverter(t => Some(t));
    var target := TargetDialect({}, _ => 0);
    var rule := new StablehloToHloOpConverter(CaseKind, tc, target);
    var r0 := new Region();
    var r1 := new Region();
    var r2 := new Region();
    r0.blocks, r1.blocks, r2.blocks := [Block(0)], [Block(1)], [Block(2), Block(3)];
    var op := Op(CaseKind, [], [Value(0)], [], [r0, r1, r2]);
    var rewriter := new ConversionPatternRewriter();
    var ok := rule.MatchAndRewrite(op, Adaptor([Value(0)]), rewriter);
    assert ok;
    var t := rewriter.replacements[0].target;
    assert |t.regions| == 3;
    assert t.regions[0].blocks == [Block(0)] && t.regions[1].blocks == [Block(1)];
    assert t.regions[2].blocks == [Block(2), Block(3)];
    assert r0.blocks == [] && r1.blocks == [] && r2.blocks == [];
  }

  /** An operation carrying an attribute kind the translator does not know
      is left alone, and the next, unrelated operation converts as usual. */
  method FailureIsolationScenario()
  {
    var tc := new TypeConverter(t => Some(t));
    var target := TargetDialect({}, _ => 1);
    var rule := new StablehloToHloOpConverter("add", tc, target);
    var rewriter := new ConversionPatternRewriter();
    var region := new Region();
    region.blocks := [Block(7)];
    var bad := Op("add", [Type("f32")], [], [NamedAttribute("x", Opaque(StablehloNamespace, "new_attr"))], [region]);
    var ok := rule.MatchAndRewrite(bad, Adaptor([]), rewriter);
    assert ConvertAttr(bad.attrs[0].value, target.symbols).None?;
    assert !ok && rewriter.replacements == [] && region.blocks == [Block(7)];
    var good := Op("add", [Type("f32")], [Value(1), Value(2)], [], []);
    ok := rule.MatchAndRewrite(good, Adaptor([Value(1), Value(2)]), rewriter);
    assert ok && |rewriter.replacements| == 1 && rewriter.replacements[0].source == good;
    assert region.blocks == [Block(7)];
  }
}
