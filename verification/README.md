# Lifetime-error reporting of the MIR borrow checker, modelled in Dafny

This project models how rustc's borrow checker reports a region ("lifetime")
error. Region inference has found that a region `fr` must outlive a region
`outlived_fr`, but the constraint graph cannot prove it. The reporter takes
that failure and builds a diagnostic from it.

- It resolves region variables to universal regions that can be named.
- It classifies the error by its blamed constraint category and by whether
  each region is local. This selects one of three reporters: the `FnMut`
  capture escape, the escaping-data report, or the general "lifetime may not
  live long enough" report.
- It builds that reporter's labels and notes.
- It adds the `impl Trait + 'x` suggestion when a returned opaque type is
  required to outlive `'static`.

Everything is a pure function over immutable data. The compiler's queries
are parameters, gathered in two records:

- `RegionErrors.Context`: the solved graph, the defining type, locality, the
  region namer and the variable-name lookup.
- `StaticImplTrait.TyQueries`: `is_suitable_region`, `return_type_impl_trait`,
  `predicates_of`/`instantiate`, `def_span` and the source-map snippet.

The solved region graph (`RegionResolution.RegionGraph`) is a read-only view
made of these parts:

- `isUniversal`, `scc`, `universalUpperBound`, `sccContains` and
  `externalName`.
- A ghost `rank`. `WellFormed` requires every resolution step to lower the
  rank strictly, which states that the upper-bound relation is acyclic
  wherever the resolver follows it. The compiler relies on this without
  checking it, and here it justifies termination.

Modules: `Wrappers` (Option), `ConstraintCategories`, `RegionResolution`,
`Diagnostics` (the diagnostic datatype and region names), `StaticImplTrait`,
`RegionErrors` (the dispatcher and the reporters).

Two behaviours of the code are worth stating on their own:

- An escaping-data report can carry no label. This happens when neither
  lookup finds a variable name but one of them finds a span: no revert case
  applies (region_errors.rs:333-336), and both labelling branches need a name
  (region_errors.rs:347, 357). See `RegionErrors.EscapingReportMayLackLabels`.
- The "inferred to be a `FnMut` closure" label is added only for the eight
  name sources matched at region_errors.rs:267-274. Every other source adds
  no label.

## Model

| member | source | states |
|---|---|---|
| `ConstraintCategories.Description` | src/librustc_mir/borrow_check/diagnostics/region_errors.rs:24-44 | the fragment is empty exactly for `Boring`, `BoringNoLocation` and `Internal`; otherwise it ends with exactly one space |
| `RegionResolution.ToErrorRegionVid` | src/librustc_mir/borrow_check/diagnostics/region_errors.rs:118-132 | a universal region resolves to itself; any `Some(v)` result is universal; an existential region whose upper bound is outside its SCC value gives `None`; recursion terminates by rank |
| `RegionResolution.ToErrorRegion` | src/librustc_mir/borrow_check/diagnostics/region_errors.rs:114-116 | `None` when the region does not resolve; otherwise exactly the resolved region's external name, present or not |
| `RegionResolution.ChainResolves` | src/librustc_mir/borrow_check/diagnostics/region_errors.rs:120-132 | every chain of contained upper-bound steps that ends in a universal region is what the resolver follows |
| `RegionResolution.ResolutionHasChain` | src/librustc_mir/borrow_check/diagnostics/region_errors.rs:120-132 | every successful resolution is witnessed by such a chain |
| `RegionResolution.ResolvesIffChain` | src/librustc_mir/borrow_check/diagnostics/region_errors.rs:120-132 | `r` resolves to `v` if and only if a resolution chain leads from `r` to `v` |
| `RegionResolution.ResolutionIdempotent` | src/librustc_mir/borrow_check/diagnostics/region_errors.rs:120-132 | resolving an already resolved region returns it unchanged |
| `RegionErrors.IsClosureFnMut` | src/librustc_mir/borrow_check/diagnostics/region_errors.rs:134-146 | true exactly when all four hold: the region resolves, its name is a free `BrEnv` region, the body is a closure, and the closure kind is `FnMut`; if any one fails, false |
| `RegionErrors.Dispatch` | src/librustc_mir/borrow_check/diagnostics/region_errors.rs:200-221 | `FnMut` reporter if and only if (Return, local, non-local) and the `FnMut` guard holds; escaping-data reporter if and only if (Assignment or CallArgument, local, non-local); the general reporter for everything else |
| `RegionErrors.ReportError` | src/librustc_mir/borrow_check/diagnostics/region_errors.rs:156-222 | the "nice" report is returned unchanged when both regions name and it exists; otherwise the dispatched reporter's diagnostic; the escaping and general paths collect `(fr, outlived_fr)` exactly once; the `FnMut` path leaves the aggregator unchanged |
| `RegionErrors.NonEscapingPairsReportGenerally` | src/librustc_mir/borrow_check/diagnostics/region_errors.rs:200-221 | if `fr` is not local or `outlived_fr` is local, only the general report is reachable, and the pair is collected once |
| `RegionErrors.FnMutAnnotationSpan` | src/librustc_mir/borrow_check/diagnostics/region_errors.rs:266-278 | a label span exists for exactly the eight listed name sources, and it is that source's span |
| `RegionErrors.ReportFnMutError` | src/librustc_mir/borrow_check/diagnostics/region_errors.rs:240-287 | fixed message at the blamed span; first label chosen by whether the output type is a closure; a second "inferred to be a `FnMut` closure" label exactly when the name source has a span; the two fixed notes; no helps and no suggestions |
| `RegionErrors.FnMutClosureScenario` | src/librustc_mir/borrow_check/diagnostics/region_errors.rs:200-203 | a `FnMut` closure whose environment region was synthesized gets the `FnMut` message and the "inferred to be a `FnMut` closure" label at that span, and the aggregator is left alone |
| `RegionErrors.ReportGeneralError` | src/librustc_mir/borrow_check/diagnostics/region_errors.rs:387-441 | fixed message and exactly one label of its own at the blamed span (the namer's highlight labels are left out): "was supposed to return data" for Return into a local region, otherwise the category's description followed by "requires that `f` must outlive `o`"; then exactly the static `impl Trait` suggestion is added |
| `RegionErrors.GeneralErrorIgnoresFrLocality` | src/librustc_mir/borrow_check/diagnostics/region_errors.rs:414-436 | the general report is the same whichever value `fr_is_local` has |
| `RegionErrors.ReturnIntoLocalRegionScenario` | src/librustc_mir/borrow_check/diagnostics/region_errors.rs:414-424 | returning `'a` data from a function that promised `'b` gives the single label "function was supposed to return data with lifetime `'b` but it is returning data with lifetime `'a`" |
| `RegionErrors.RevertsToGeneral` | src/librustc_mir/borrow_check/diagnostics/region_errors.rs:331-336 | the escaping-data report falls back exactly when neither lookup found anything, or the category is Assignment in a function body, or the body is a const |
| `RegionErrors.EscapesFrom` | src/librustc_mir/borrow_check/diagnostics/region_errors.rs:324-329 | each defining-type kind gets its own word, so the string tests "function" and "const" pick out exactly functions and consts |
| `RegionErrors.ReportEscapingDataError` | src/librustc_mir/borrow_check/diagnostics/region_errors.rs:301-370 | in the three revert cases it returns the general report with localities forced to (true, false) and every other field unchanged; otherwise the "escapes outside of" message, with the "declared here" label first and present exactly when the outlived variable is named, and the "only valid" then "escapes here" labels last and present exactly when `fr`'s variable is named |
| `RegionErrors.NoVarNamesGivesGeneralReport` | src/librustc_mir/borrow_check/diagnostics/region_errors.rs:331-342 | when both lookups find nothing, the escaping-data report equals the general report with localities (true, false) |
| `RegionErrors.EscapingFallbackIsGeneralReport` | src/librustc_mir/borrow_check/diagnostics/region_errors.rs:331-342 | on the dispatch path, the forced localities are the ones already present, so a revert is exactly the general report of the same error |
| `RegionErrors.EscapingReportMayLackLabels` | src/librustc_mir/borrow_check/diagnostics/region_errors.rs:344-369 | when neither lookup yields a name and the report does not revert, it has no labels |
| `StaticImplTrait.HasStaticPredicate` | src/librustc_mir/borrow_check/diagnostics/region_errors.rs:475-492 | true if and only if some bound is `TypeOutlives(_, 'static)` |
| `StaticImplTrait.StaticOpaqueReturn` | src/librustc_mir/borrow_check/diagnostics/region_errors.rs:461-470 | present exactly when `fr` resolves to a name, `outlived_fr` resolves to `'static`, and `fr`'s scope returns an opaque type; then it is that opaque type, as `return_type_impl_trait` returned it |
| `StaticImplTrait.StaticBoundPatch` | src/librustc_mir/borrow_check/diagnostics/region_errors.rs:512-517 | the patch inserts ` + name` before a trailing `;`, or at the end when there is none |
| `StaticImplTrait.StaticBoundPatchIsInsertion` | src/librustc_mir/borrow_check/diagnostics/region_errors.rs:512-517 | the patch is the snippet plus exactly ` + name`: deleting it restores the snippet, and a trailing `;` stays last |
| `StaticImplTrait.StaticBoundPatchBeforeTerminator` | src/librustc_mir/borrow_check/diagnostics/region_errors.rs:512-514 | `type X = impl Trait;` with `'a` becomes `type X = impl Trait + 'a;` |
| `StaticImplTrait.StaticBoundPatchWithoutTerminator` | src/librustc_mir/borrow_check/diagnostics/region_errors.rs:515-517 | `fn f() -> impl Trait` with `'a` becomes `fn f() -> impl Trait + 'a` |
| `StaticImplTrait.AddStaticImplTraitSuggestion` | src/librustc_mir/borrow_check/diagnostics/region_errors.rs:452-532 | only helps or suggestions grow, by at most one entry; nothing is added unless `outlived_fr` is `'static` with an opaque return type; a `'static` bound gives only the "consider replacing" help; otherwise an available snippet gives one machine-applicable patch and a missing snippet gives nothing |

## Left out

- `NiceRegionError::try_report_from_nll`: its logic is elsewhere. It is an input `nice: Option<Diag>`, used unchanged when both regions resolve to names.
- `best_blame_constraint`, `provides_universal_region`, `is_local_free_region`, `give_region_a_name` and `get_var_name_and_span_for_region`: their bodies are not part of this model. Their results are inputs: the blamed category and span, `isLocalFreeRegion`, `regionName`, `varNameAndSpan`. `RegionName::was_named` is the `wasNamed` field of a region name.
- The `.unwrap()` calls on region names become preconditions. They cover exactly the names the chosen path unwraps (`RegionErrors.NamesAvailable`), so no input where the code would not panic is excluded.
- `RegionNameSource`: only the variants the `FnMut` reporter matches are spelled out, plus `Static`. All others are `OtherSource`, because the namer's file is not part of this model.
- `borrowck_errors::borrowed_data_escapes_closure`: its file is not part of this model. Its message is taken from the example in the doc comment at line 292: "borrowed data escapes outside of {closure|generator|function}".
- RegionErrors.ReportError: does not model `intermediate_suggestion`. On the escaping-data and general paths the code passes the diagnostic to it mutably (region_errors.rs:208, 216), so the real diagnostic may carry more than the reporter's output that the contract names. The aggregator's final flush is not modelled either. Only the `collect_constraint` calls are recorded, as a sequence of pairs. The builder's internals are not part of this model.
- RegionErrors.ReportGeneralError: does not model `highlight_region_name` (region_errors.rs:410, 412). That call adds the "lifetime … defined here" labels of both region names to the diagnostic, as in the example at lines 379-382. So "exactly one label" and "no notes" are about the model's diagnostic, and the real one has these extra labels too. The namer's code is not part of this model. The `debug!` logging and the diagnostic error codes are also left out.
- Compiler queries: `is_suitable_region`, `return_type_impl_trait`, `predicates_of`/`instantiate`, `def_span`, `span_to_snippet`, `typeck_tables_of`, `is_closure` and closure-kind inference are given values. Substitutions are opaque numbers, and the inferred closure kind is an `Option`.
- `RegionErrorKind`: the datatype is declared. Its type-test, hidden-region and higher-ranked variants are reported elsewhere, so no behaviour is modelled for them. Dedup by `is_reported` is the caller's job.
- `Applicability`: the tiers are a tag only. Spans are opaque pairs of numbers, and `snippet.len()` is taken in characters. This is the same as bytes here, because `;` is a single byte.
- `RegionResolution.ToErrorRegionVid`: it requires `WellFormed`, which says the upper-bound relation is acyclic. The compiler assumes this without checking it.
