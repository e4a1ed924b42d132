/** The registration entry point (`populateStablehloToHloPatterns`): one
    conversion rule per StableHLO operation kind. */
module PatternRegistry {

  import opened OpConversion

  /** The pattern set the rules are registered into. */
  class RewritePatternSet {
    var patterns: seq<StablehloToHloOpConverter>

    constructor ()
      ensures patterns == []
    {
      patterns := [];
    }
  }

  /** Rule `p` converts `kind` with the given converter and target dialect. */
  ghost predicate Wired(p: StablehloToHloOpConverter, kind: OpKind, converter: TypeConverter, target: TargetDialect)
  {
    p.rootKind == kind && p.typeConverter == converter && p.target == target
  }

  /** Adds one fresh rule per kind of `opList` (the generated list of all
      StableHLO operations), in order, after the rules already present. */
  method PopulateStablehloToHloPatterns(patterns: RewritePatternSet, converter: TypeConverter,
                                        target: TargetDialect, opList: seq<OpKind>)
    modifies patterns
    ensures |patterns.patterns| == |old(patterns.patterns)| + |opList|
    ensures patterns.patterns[..|old(patterns.patterns)|] == old(patterns.patterns)
    ensures forall k :: |old(patterns.patterns)| <= k < |patterns.patterns| ==>
      fresh(patterns.patterns[k])
      && Wired(patterns.patterns[k], opList[k - |old(patterns.patterns)|], converter, target)
    ensures old(patterns.patterns) == [] && NoDuplicates(opList) ==> OneRuleEach(patterns.patterns, opList)
  {
    ghost var before := patterns.patterns;
    for i := 0 to |opList|
      invariant |patterns.patterns| == |before| + i
      invariant patterns.patterns[..|before|] == before
      invariant forall k :: |before| <= k < |patterns.patterns| ==>
        fresh(patterns.patterns[k]) && Wired(patterns.patterns[k], opList[k - |before|], converter, target)
    {
      var p := new StablehloToHloOpConverter(opList[i], converter, target);
      patterns.patterns := patterns.patterns + [p];
    }
    if before == [] && NoDuplicates(opList) {
      OneRulePerKind(patterns.patterns, opList);
    }
  }

  /** The operation list names each kind at most once. */
  predicate NoDuplicates(opList: seq<OpKind>)
  {
    forall i, j :: 0 <= i < j < |opList| ==> opList[i] != opList[j]
  }

  /** Every listed kind has exactly one rule in `ps`, and every rule belongs
      to a listed kind. */
  ghost predicate OneRuleEach(ps: seq<StablehloToHloOpConverter>, opList: seq<OpKind>)
  {
    && (forall i :: 0 <= i < |ps| ==> ps[i].rootKind in opList)
    && (forall k :: k in opList ==>
          exists i :: 0 <= i < |ps| && ps[i].rootKind == k
            && (forall j :: 0 <= j < |ps| && ps[j].rootKind == k ==> j == i))
  }

  /** When the operation list names each kind once, every listed kind has
      exactly one rule and every rule belongs to a listed kind. */
  lemma OneRulePerKind(ps: seq<StablehloToHloOpConverter>, opList: seq<OpKind>)
    requires |ps| == |opList|
    requires forall i :: 0 <= i < |ps| ==> ps[i].rootKind == opList[i]
    requires NoDuplicates(opList)
    ensures OneRuleEach(ps, opList)
  {
  }
}
