# StableHLO to MHLO legalization, modelled in Dafny

This project models the core of the StableHLO-to-MHLO legalization in
`tensorflow/compiler/xla/mlir_hlo/lib/Dialect/mhlo/transforms/stablehlo_legalize_to_hlo.cc`. The pass rewrites every operation of the StableHLO dialect into
the MHLO operation with the same mnemonic. The model has three parts:

- the attribute translator `convertAttr` (module `AttrConversion`):
  - StableHLO record attributes: channel handle and conv/dot/gather/scatter
    dimension numbers;
  - StableHLO enum attributes: comparison direction/type, custom-call API
    version, FFT type, precision, RNG algorithm/distribution, transpose;
  - builtin arrays, translated element by element;
  - builtin dictionaries, returned unchanged without looking at their
    entries;
  - every other attribute, which is passed through unchanged unless it
    belongs to the StableHLO namespace;
- the generic conversion rule `StablehloToHloOpConverter::matchAndRewrite`
  (module `OpConversion`): it converts result types through an injected
  type converter, keeps the adaptor's operands, translates every attribute
  value keeping its name, builds the target operation, adding the branch
  count for `case`, records the replacement and moves the source regions
  into the new operation's region slots;
- the registration `populateStablehloToHloPatterns` (module
  `PatternRegistry`), as one rule per kind of an abstract operation list.

Both dialects' attributes share one datatype. Records and enums carry a
`dialect` tag. `Opaque(namespace, body)` stands for every attribute the
translator does not look inside. A StableHLO attribute kind that the
translator does not handle is an `Opaque` whose namespace is "stablehlo".

An enum value is represented by the symbol its `stringify` function
returns. The target dialect's generated `symbolize` functions become a set
of (kind, symbol) pairs.

Failure (MLIR's null attribute, `failure()`) is `None`. The rule is a
method on a class. The rewriter is a class that logs replacements and moves
the blocks of one region object to another.

Module `Scenarios` holds three client methods. They show what the
contracts let a caller conclude about a compare operation, a three-branch
case and two independent operations.

The region loop zips
the source regions with the new operation's region slots, so it moves only
as many regions as both lists hold. The model keeps that behaviour:
`MatchAndRewrite` moves every source region exactly when the new operation
has at least as many region slots as the source has regions, and
`RegionSlotsMatch` states when that is so.

## Model

| member | source | states |
|---|---|---|
| AttrConversion.ConvertAttr | tensorflow/compiler/xla/mlir_hlo/lib/Dialect/mhlo/transforms/stablehlo_legalize_to_hlo.cc:43-127 | a successful translation has no StableHLO-namespace attribute at top level or inside arrays (dictionary entries are passed through unlooked-at) |
| AttrConversion.ConvertEnum | tensorflow/compiler/xla/mlir_hlo/lib/Dialect/mhlo/transforms/stablehlo_legalize_to_hlo.cc:37-41 | the enum macro succeeds if and only if MHLO knows the (kind, symbol) pair, and then yields the MHLO enum of that kind and symbol |
| AttrConversion.DictionaryUnchanged | tensorflow/compiler/xla/mlir_hlo/lib/Dialect/mhlo/transforms/stablehlo_legalize_to_hlo.cc:114-126 | a builtin dictionary is returned unchanged, even when its entries hold StableHLO attributes |
| AttrConversion.ConvertAttrs | tensorflow/compiler/xla/mlir_hlo/lib/Dialect/mhlo/transforms/stablehlo_legalize_to_hlo.cc:117-124 | array elements: same length, the i-th result is the translation of the i-th element, and failure exactly when some element fails |
| AttrConversion.ForeignAttrUnchanged | tensorflow/compiler/xla/mlir_hlo/lib/Dialect/mhlo/transforms/stablehlo_legalize_to_hlo.cc:114-126 | an attribute outside the StableHLO namespace that is not an array comes back unchanged |
| AttrConversion.ArrayElementwise | tensorflow/compiler/xla/mlir_hlo/lib/Dialect/mhlo/transforms/stablehlo_legalize_to_hlo.cc:117-124 | an array translates to an array of the same length whose i-th element is the i-th element's translation; the empty array maps to the empty array |
| AttrConversion.ArrayFailsIff | tensorflow/compiler/xla/mlir_hlo/lib/Dialect/mhlo/transforms/stablehlo_legalize_to_hlo.cc:119-121 | an array fails to translate if and only if one of its elements does |
| AttrConversion.EnumTranslation | tensorflow/compiler/xla/mlir_hlo/lib/Dialect/mhlo/transforms/stablehlo_legalize_to_hlo.cc:37-41 | a StableHLO enum translates to the MHLO enum of the same kind with the same symbol, and succeeds if and only if MHLO knows that symbol |
| AttrConversion.RecordTranslation | tensorflow/compiler/xla/mlir_hlo/lib/Dialect/mhlo/transforms/stablehlo_legalize_to_hlo.cc:47-103 | each StableHLO record always translates, to the MHLO record of the same kind with every field copied unchanged |
| AttrConversion.UnhandledStablehloFails | tensorflow/compiler/xla/mlir_hlo/lib/Dialect/mhlo/transforms/stablehlo_legalize_to_hlo.cc:107-112 | a StableHLO-namespace attribute of an unhandled kind always fails, and no StableHLO attribute is ever passed through unchanged |
| AttrConversion.FreeAttrUnchanged | tensorflow/compiler/xla/mlir_hlo/lib/Dialect/mhlo/transforms/stablehlo_legalize_to_hlo.cc:114-126 | an attribute with no StableHLO part at top level or inside arrays is its own translation |
| AttrConversion.FreeAttrsUnchanged | tensorflow/compiler/xla/mlir_hlo/lib/Dialect/mhlo/transforms/stablehlo_legalize_to_hlo.cc:117-124 | a list of attributes with no StableHLO part translates to itself |
| AttrConversion.ConvertIdempotent | tensorflow/compiler/xla/mlir_hlo/lib/Dialect/mhlo/transforms/stablehlo_legalize_to_hlo.cc:43-127 | translating an already translated attribute changes nothing |
| OpConversion.ConvertTypes | tensorflow/compiler/xla/mlir_hlo/lib/Dialect/mhlo/transforms/stablehlo_legalize_to_hlo.cc:144-147 | the result types: same length, element-wise conversion, and failure exactly when some type fails to convert |
| OpConversion.ConvertNamedAttrs | tensorflow/compiler/xla/mlir_hlo/lib/Dialect/mhlo/transforms/stablehlo_legalize_to_hlo.cc:156-161 | the attribute list: same names in the same order with translated values, and failure exactly when some value fails |
| OpConversion.ConvertOp | tensorflow/compiler/xla/mlir_hlo/lib/Dialect/mhlo/transforms/stablehlo_legalize_to_hlo.cc:144-174 | the rule fails exactly when a result type or an attribute value fails; otherwise the target has the same kind, converted result types, the adaptor's operands, the same attribute names with translated values, and a branch count equal to the region count only for case |
| OpConversion.RegionSlotsMatch | tensorflow/compiler/xla/mlir_hlo/lib/Dialect/mhlo/transforms/stablehlo_legalize_to_hlo.cc:167-182 | the new operation has as many region slots as the source has regions if and only if the kind is case or the target builder's region count matches; it has at least as many (so every source region is moved) if and only if the kind is case or the builder's count is at least the source's |
| OpConversion.TargetOp.constructor | tensorflow/compiler/xla/mlir_hlo/lib/Dialect/mhlo/transforms/stablehlo_legalize_to_hlo.cc:169-174 | the built operation holds exactly the builder arguments and the requested number of fresh, distinct, empty regions |
| OpConversion.ConversionPatternRewriter.ReplaceOpWithNewOp | tensorflow/compiler/xla/mlir_hlo/lib/Dialect/mhlo/transforms/stablehlo_legalize_to_hlo.cc:169-174 | builds the target operation and appends exactly one record that it replaces the source |
| OpConversion.ConversionPatternRewriter.InlineRegionBefore | tensorflow/compiler/xla/mlir_hlo/lib/Dialect/mhlo/transforms/stablehlo_legalize_to_hlo.cc:181 | the destination region ends with the source region's blocks, and the source region is left empty |
| OpConversion.StablehloToHloOpConverter.constructor | tensorflow/compiler/xla/mlir_hlo/lib/Dialect/mhlo/transforms/stablehlo_legalize_to_hlo.cc:134 | a rule is bound to its root kind, type converter and target dialect |
| OpConversion.StablehloToHloOpConverter.ConvertAttributes | tensorflow/compiler/xla/mlir_hlo/lib/Dialect/mhlo/transforms/stablehlo_legalize_to_hlo.cc:156-161 | the attribute loop returns exactly the attribute-list translation, stopping at the first failure |
| OpConversion.StablehloToHloOpConverter.MatchAndRewrite | tensorflow/compiler/xla/mlir_hlo/lib/Dialect/mhlo/transforms/stablehlo_legalize_to_hlo.cc:135-184 | succeeds exactly when the conversion applies; on failure nothing changes; on success one replacement of the source by a fresh target built from the converted parts is recorded, with case getting its branch count, and the regions are moved pairwise in order |
| PatternRegistry.PopulateStablehloToHloPatterns | tensorflow/compiler/xla/mlir_hlo/lib/Dialect/mhlo/transforms/stablehlo_legalize_to_hlo.cc:187-206 | appends one fresh rule per listed kind, in order, each wired to the given type converter and target dialect, and keeps the rules already present; starting from an empty set with a duplicate-free list, every listed kind has exactly one rule |
| PatternRegistry.OneRulePerKind | tensorflow/compiler/xla/mlir_hlo/lib/Dialect/mhlo/transforms/stablehlo_legalize_to_hlo.cc:197-206 | when the operation list names each kind once, every listed kind has exactly one rule and every rule is for a listed kind |

## Left out

- The MLIR context, attribute uniquing and `getContext()` calls: infrastructure with no behaviour to state.
- The generated `stringify*`/`symbolize*` functions: an enum value is its symbol, and the target symbols are an abstract set.
- The op-type mapping header `map_stablehlo_to_hlo_op.h` is not part of this model. A StableHLO kind maps to the MHLO kind with the same mnemonic.
- The generated operation list (`GET_OP_LIST`) and the variadic template mechanics of registration: compile-time only. The list is a parameter.
- The type converter's own rules (`StablehloToHloTypeConverter`): an injected function.
- OpConversion.ConvertTypes: models `convertTypes` with a one-to-one converter per type; MLIR's one-to-many and one-to-zero type conversions are not modelled.
- The dialect conversion driver: traversal order, fixed-point iteration, committing or rolling back replacements, and converting operands and nested operations. Operands arrive already converted in the adaptor. Blocks are known by identity only.
- Operation results and their uses: replacement is the recorded pair (source, target), not the rewiring of uses.
- AttrConversion.ConvertAttr: builtin and foreign attributes other than arrays and dictionaries are `Opaque` and cannot hold nested attributes; the dictionary variant shows that nested StableHLO attributes outside arrays survive translation unchanged, so "free of StableHLO" means at top level and inside arrays only.
- Integer widths of record fields (`int64_t`): they are copied unchanged, so width does not matter and fields are unbounded integers.
