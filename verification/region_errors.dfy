/**
 * Classification of a region error and construction of its diagnostic:
 * the dispatcher and the three reporters (`FnMut` escape, escaping data,
 * general outlives failure).
 */
module RegionErrors {
  import opened Wrappers
  import opened ConstraintCategories
  import opened RegionResolution
  import opened Diagnostics
  import opened StaticImplTrait

  datatype ClosureKind = Fn | FnMut | FnOnce

  /** What the checked body is; a closure's kind is `None` while still uninferred. */
  datatype DefiningTy = Closure(kind: Option<ClosureKind>) | Generator | FnDef | Const

  /** Opaque payloads of the error kinds this reporter does not handle. */
  datatype TypeTest = TypeTest(id: nat)
  datatype RegionElement = RegionElement(id: nat)
  datatype RegionOrigin = RegionOrigin(id: nat)

  /** The errors collected by region inference. Only `RegionError` is reported here. */
  datatype RegionErrorKind =
    | TypeTestError(typeTest: TypeTest)
    | UnexpectedHiddenRegion(opaqueTypeDefId: DefId, hiddenTy: Ty, memberRegion: Region)
    | BoundUniversalRegionError(longerFr: RegionVid, errorElement: RegionElement, frOrigin: RegionOrigin)
    | RegionError(frOrigin: RegionOrigin, longerFr: RegionVid, shorterFr: RegionVid, isReported: bool)

  /** The blame record: `fr` must outlive `outlivedFr`, with localities and the blamed constraint. */
  datatype ErrorConstraintInfo = ErrorConstraintInfo(
    fr: RegionVid,
    frIsLocal: bool,
    outlivedFr: RegionVid,
    outlivedFrIsLocal: bool,
    category: ConstraintCategory,
    span: Span)

  /**
   * Everything the reporter asks of the borrow checker and the compiler:
   * the solved graph, the defining type, locality of free regions, the region
   * namer, the variable-name lookup, and the type queries of the suggestion.
   */
  datatype Context = Context(
    graph: RegionGraph,
    definingTy: DefiningTy,
    isLocalFreeRegion: RegionVid -> bool,
    regionName: RegionVid -> Option<RegionName>,
    varNameAndSpan: RegionVid -> Option<(Option<string>, Span)>,
    outputTyIsClosure: bool,
    mirIsClosure: bool,
    tcx: TyQueries)

  /** Cross-error aggregator state: the region pairs collected so far. */
  datatype OutlivesSuggestion = OutlivesSuggestion(constraints: seq<(RegionVid, RegionVid)>)
  {
    function CollectConstraint(fr: RegionVid, outlivedFr: RegionVid): (s: OutlivesSuggestion)
      ensures s.constraints == constraints + [(fr, outlivedFr)]
    {
      OutlivesSuggestion(constraints + [(fr, outlivedFr)])
    }
  }

  /** A report: the diagnostic and the aggregator after it. */
  datatype Reported = Reported(diag: Diag, suggestions: OutlivesSuggestion)

  /** The three reporting strategies. */
  datatype Reporter = FnMutReporter | EscapingDataReporter | GeneralReporter

  // ---------------------------------------------------------------------------
  // Classification

  /**
   * Whether `fr` is the environment region of a closure inferred to be `FnMut`:
   * it names a free `BrEnv` region, the body is a closure, and that closure's
   * kind is `FnMut`.
   */
  function IsClosureFnMut(ctx: Context, fr: RegionVid): (b: bool)
    requires WellFormed(ctx.graph)
    ensures b <==>
      && ToErrorRegionVid(ctx.graph, fr).Some?
      && ctx.graph.externalName(ToErrorRegionVid(ctx.graph, fr).value) == Some(ReFree(BrEnv))
      && ctx.definingTy.Closure?
      && ctx.definingTy.kind == Some(FnMut)
  {
    match ToErrorRegion(ctx.graph, fr)
    case Some(ReFree(BrEnv)) =>
      (match ctx.definingTy
       case Closure(kind) => Some(FnMut) == kind
       case _ => false)
    case _ => false
  }

  /** The decision table keyed on (category, fr local, outlived_fr local), with the `FnMut` guard. */
  function Dispatch(ctx: Context, errci: ErrorConstraintInfo): (r: Reporter)
    requires WellFormed(ctx.graph)
    ensures r == FnMutReporter <==>
      errci.category == Return && errci.frIsLocal && !errci.outlivedFrIsLocal && IsClosureFnMut(ctx, errci.fr)
    ensures r == EscapingDataReporter <==>
      (errci.category == Assignment || errci.category == CallArgument) && errci.frIsLocal && !errci.outlivedFrIsLocal
  {
    match (errci.category, errci.frIsLocal, errci.outlivedFrIsLocal)
    case (Return, true, false) =>
      if IsClosureFnMut(ctx, errci.fr) then FnMutReporter else GeneralReporter
    case (Assignment, true, false) => EscapingDataReporter
    case (CallArgument, true, false) => EscapingDataReporter
    case _ => GeneralReporter
  }

  // ---------------------------------------------------------------------------
  // The `FnMut` reporter

  const FnMutMessage := "captured variable cannot escape `FnMut` closure body"
  const ReturnsClosureLabel :=
    "returns a closure that contains a reference to a captured variable, which then escapes the closure body"
  const ReturnsReferenceLabel := "returns a reference to a captured variable which escapes the closure body"
  const FnMutInferredLabel := "inferred to be a `FnMut` closure"
  const FnMutAccessNote := "`FnMut` closures only have access to their captured variables while they are executing..."
  const FnMutEscapeNote := "...therefore, they cannot allow references to captured variables to escape"

  /** The span at which a region name tells where the closure was inferred to be `FnMut`, if its source has one. */
  function FnMutAnnotationSpan(src: RegionNameSource): (s: Option<Span>)
    ensures s.None? <==> src.Static? || src.OtherSource?
    ensures s.Some? ==> s.value == src.span
  {
    match src
    case NamedEarlyBoundRegion(sp) => Some(sp)
    case NamedFreeRegion(sp) => Some(sp)
    case SynthesizedFreeEnvRegion(sp, _) => Some(sp)
    case CannotMatchHirTy(sp, _) => Some(sp)
    case MatchedHirTy(sp) => Some(sp)
    case MatchedAdtAndSegment(sp) => Some(sp)
    case AnonRegionFromUpvar(sp, _) => Some(sp)
    case AnonRegionFromOutput(sp, _, _) => Some(sp)
    case _ => None
  }

  /** A `FnMut` closure lets a reference to one of its captures escape. */
  function ReportFnMutError(ctx: Context, errci: ErrorConstraintInfo): (d: Diag)
    requires ctx.regionName(errci.outlivedFr).Some?
    ensures d.span == errci.span && d.message == FnMutMessage
    ensures var ann := FnMutAnnotationSpan(ctx.regionName(errci.outlivedFr).value.source);
      && |d.labels| == (if ann.Some? then 2 else 1)
      && d.labels[0] == Label(errci.span, if ctx.outputTyIsClosure then ReturnsClosureLabel else ReturnsReferenceLabel)
      && (ann.Some? ==> d.labels[1] == Label(ann.value, FnMutInferredLabel))
    ensures d.notes == [FnMutAccessNote, FnMutEscapeNote]
    ensures d.helps == [] && d.suggestions == []
  {
    var diag := StructSpanErr(errci.span, FnMutMessage);
    var message := if ctx.outputTyIsClosure then ReturnsClosureLabel else ReturnsReferenceLabel;
    var diag := diag.SpanLabel(errci.span, message);
    var diag :=
      match FnMutAnnotationSpan(ctx.regionName(errci.outlivedFr).value.source)
      case Some(frSpan) => diag.SpanLabel(frSpan, FnMutInferredLabel)
      case None => diag;
    diag.Note(FnMutAccessNote).Note(FnMutEscapeNote)
  }

  // ---------------------------------------------------------------------------
  // The general reporter

  const GeneralMessage := "lifetime may not live long enough"

  /** Both regions of the error have display names (the general reporter unwraps both). */
  predicate BothNamed(ctx: Context, errci: ErrorConstraintInfo) {
    ctx.regionName(errci.fr).Some? && ctx.regionName(errci.outlivedFr).Some?
  }

  function MirDefName(ctx: Context): string {
    if ctx.mirIsClosure then "closure" else "function"
  }

  function SupposedToReturnLabel(ctx: Context, frName: RegionName, outlivedFrName: RegionName): string {
    MirDefName(ctx) + " was supposed to return data with lifetime `" + outlivedFrName.text
      + "` but it is returning data with lifetime `" + frName.text + "`"
  }

  function MustOutliveLabel(category: ConstraintCategory, frName: RegionName, outlivedFrName: RegionName): string {
    Description(category) + "requires that `" + frName.text + "` must outlive `" + outlivedFrName.text + "`"
  }

  /**
   * The general outlives failure: one label at the blamed span, which is the
   * "was supposed to return data" sentence for a return into a local region and
   * the category's "requires that ... must outlive ..." sentence otherwise; then
   * the static `impl Trait` suggestion, if it applies.
   */
  function ReportGeneralError(ctx: Context, errci: ErrorConstraintInfo): (d: Diag)
    requires WellFormed(ctx.graph) && BothNamed(ctx, errci)
    ensures d.span == errci.span && d.message == GeneralMessage
    ensures var frName := ctx.regionName(errci.fr).value;
      var outlivedFrName := ctx.regionName(errci.outlivedFr).value;
      && |d.labels| == 1
      && (errci.category == Return && errci.outlivedFrIsLocal ==>
            d.labels[0] == Label(errci.span, SupposedToReturnLabel(ctx, frName, outlivedFrName)))
      && (!(errci.category == Return && errci.outlivedFrIsLocal) ==>
            d.labels[0] == Label(errci.span, MustOutliveLabel(errci.category, frName, outlivedFrName)))
    ensures d.notes == []
    ensures d == AddStaticImplTraitSuggestion(ctx.graph, ctx.tcx, d.(helps := [], suggestions := []),
                   errci.fr, ctx.regionName(errci.fr).value, errci.outlivedFr)
  {
    var diag := StructSpanErr(errci.span, GeneralMessage);
    var frName := ctx.regionName(errci.fr).value;
    var outlivedFrName := ctx.regionName(errci.outlivedFr).value;
    var diag :=
      match (errci.category, errci.outlivedFrIsLocal, errci.frIsLocal)
      case (Return, true, _) => diag.SpanLabel(errci.span, SupposedToReturnLabel(ctx, frName, outlivedFrName))
      case _ => diag.SpanLabel(errci.span, MustOutliveLabel(errci.category, frName, outlivedFrName));
    AddStaticImplTraitSuggestion(ctx.graph, ctx.tcx, diag, errci.fr, frName, errci.outlivedFr)
  }

  /** The general report does not depend on whether `fr` is local. */
  lemma GeneralErrorIgnoresFrLocality(ctx: Context, errci: ErrorConstraintInfo, frIsLocal: bool)
    requires WellFormed(ctx.graph) && BothNamed(ctx, errci)
    ensures ReportGeneralError(ctx, errci.(frIsLocal := frIsLocal)) == ReportGeneralError(ctx, errci)
  {
  }

  // ---------------------------------------------------------------------------
  // The escaping-data reporter

  /** The word for the body the data escapes from. */
  function EscapesFrom(t: DefiningTy): (s: string)
    ensures s == "closure" <==> t.Closure?
    ensures s == "generator" <==> t.Generator?
    ensures s == "function" <==> t.FnDef?
    ensures s == "const" <==> t.Const?
  {
    match t
    case Closure(_) => "closure"
    case Generator => "generator"
    case FnDef => "function"
    case Const => "const"
  }

  /**
   * When the escaping-data report reverts to the general one: neither region
   * has a variable name, a plain assignment in a function, or a const body.
   */
  function RevertsToGeneral(ctx: Context, errci: ErrorConstraintInfo): (b: bool)
    ensures b <==>
      || (ctx.varNameAndSpan(errci.fr).None? && ctx.varNameAndSpan(errci.outlivedFr).None?)
      || (errci.category == Assignment && ctx.definingTy.FnDef?)
      || ctx.definingTy.Const?
  {
    var escapesFrom := EscapesFrom(ctx.definingTy);
    || (ctx.varNameAndSpan(errci.fr).None? && ctx.varNameAndSpan(errci.outlivedFr).None?)
    || (errci.category == Assignment && escapesFrom == "function")
    || escapesFrom == "const"
  }

  function EscapesMessage(escapesFrom: string): string {
    "borrowed data escapes outside of " + escapesFrom
  }

  function DeclaredHereLabel(name: string, escapesFrom: string): string {
    "`" + name + "` is declared here, outside of the " + escapesFrom + " body"
  }

  function OnlyValidLabel(name: string, escapesFrom: string): string {
    "`" + name + "` is a reference that is only valid in the " + escapesFrom + " body"
  }

  function EscapesHereLabel(name: string, escapesFrom: string): string {
    "`" + name + "` escapes the " + escapesFrom + " body here"
  }

  /** A lookup that produced a variable name. */
  predicate HasVarName(v: Option<(Option<string>, Span)>) {
    v.Some? && v.value.0.Some?
  }

  /**
   * Data escapes the body: either the general report with localities forced to
   * (local, not local), or a report whose labels are each present exactly when
   * the variable name they mention was found.
   */
  function ReportEscapingDataError(ctx: Context, errci: ErrorConstraintInfo): (d: Diag)
    requires WellFormed(ctx.graph)
    requires RevertsToGeneral(ctx, errci) ==> BothNamed(ctx, errci)
    ensures RevertsToGeneral(ctx, errci) ==>
      d == ReportGeneralError(ctx, errci.(frIsLocal := true, outlivedFrIsLocal := false))
    ensures !RevertsToGeneral(ctx, errci) ==>
      var escapesFrom := EscapesFrom(ctx.definingTy);
      var frVar := ctx.varNameAndSpan(errci.fr);
      var outlivedVar := ctx.varNameAndSpan(errci.outlivedFr);
      && d.span == errci.span && d.message == EscapesMessage(escapesFrom)
      && escapesFrom != "const"
      && |d.labels| == (if HasVarName(outlivedVar) then 1 else 0) + (if HasVarName(frVar) then 2 else 0)
      // declared-here first, then only-valid, then escapes-here
      && (HasVarName(outlivedVar) ==>
            d.labels[0] == Label(outlivedVar.value.1, DeclaredHereLabel(outlivedVar.value.0.value, escapesFrom)))
      && (HasVarName(frVar) ==>
            && d.labels[|d.labels| - 2] == Label(frVar.value.1, OnlyValidLabel(frVar.value.0.value, escapesFrom))
            && d.labels[|d.labels| - 1] == Label(errci.span, EscapesHereLabel(frVar.value.0.value, escapesFrom)))
      && d.notes == [] && d.helps == [] && d.suggestions == []
  {
    var frNameAndSpan := ctx.varNameAndSpan(errci.fr);
    var outlivedFrNameAndSpan := ctx.varNameAndSpan(errci.outlivedFr);
    var escapesFrom := EscapesFrom(ctx.definingTy);
    // Assignments are not "escapes" in function items.
    if RevertsToGeneral(ctx, errci) then
      ReportGeneralError(ctx, errci.(frIsLocal := true, outlivedFrIsLocal := false))
    else
      var diag := StructSpanErr(errci.span, EscapesMessage(escapesFrom));
      var diag :=
        match outlivedFrNameAndSpan
        case Some((Some(outlivedFrName), outlivedFrSpan)) =>
          diag.SpanLabel(outlivedFrSpan, DeclaredHereLabel(outlivedFrName, escapesFrom))
        case _ => diag;
      match frNameAndSpan
      case Some((Some(frName), frSpan)) =>
        diag.SpanLabel(frSpan, OnlyValidLabel(frName, escapesFrom))
            .SpanLabel(errci.span, EscapesHereLabel(frName, escapesFrom))
      case _ => diag
  }

  /** With no variable names at all, the escaping-data report is the forced general report. */
  lemma NoVarNamesGivesGeneralReport(ctx: Context, errci: ErrorConstraintInfo)
    requires WellFormed(ctx.graph) && BothNamed(ctx, errci)
    requires ctx.varNameAndSpan(errci.fr).None? && ctx.varNameAndSpan(errci.outlivedFr).None?
    ensures ReportEscapingDataError(ctx, errci)
         == ReportGeneralError(ctx, errci.(frIsLocal := true, outlivedFrIsLocal := false))
  {
  }

  /**
   * A lookup may find a variable's span but not its name; when that is all either
   * lookup finds, the escaping-data report has no labels at all.
   */
  lemma EscapingReportMayLackLabels(ctx: Context, errci: ErrorConstraintInfo)
    requires WellFormed(ctx.graph) && !RevertsToGeneral(ctx, errci)
    requires !HasVarName(ctx.varNameAndSpan(errci.fr)) && !HasVarName(ctx.varNameAndSpan(errci.outlivedFr))
    ensures ReportEscapingDataError(ctx, errci).labels == []
  {
  }

  // ---------------------------------------------------------------------------
  // Dispatch

  /** The blame record of an error, with localities taken from the universal regions. */
  function ErrorInfo(ctx: Context, fr: RegionVid, outlivedFr: RegionVid, category: ConstraintCategory, span: Span)
    : (e: ErrorConstraintInfo)
    ensures e.fr == fr && e.outlivedFr == outlivedFr && e.category == category && e.span == span
    ensures e.frIsLocal == ctx.isLocalFreeRegion(fr) && e.outlivedFrIsLocal == ctx.isLocalFreeRegion(outlivedFr)
  {
    ErrorConstraintInfo(fr, ctx.isLocalFreeRegion(fr), outlivedFr, ctx.isLocalFreeRegion(outlivedFr), category, span)
  }

  /** The externally produced "nice" report is used when both regions have names and it produced one. */
  predicate NiceErrorApplies(ctx: Context, fr: RegionVid, outlivedFr: RegionVid, nice: Option<Diag>)
    requires WellFormed(ctx.graph)
  {
    ToErrorRegion(ctx.graph, fr).Some? && ToErrorRegion(ctx.graph, outlivedFr).Some? && nice.Some?
  }

  /** The region names the chosen reporter unwraps are available. */
  predicate NamesAvailable(ctx: Context, errci: ErrorConstraintInfo)
    requires WellFormed(ctx.graph)
  {
    match Dispatch(ctx, errci)
    case FnMutReporter => ctx.regionName(errci.outlivedFr).Some?
    case EscapingDataReporter => RevertsToGeneral(ctx, errci) ==> BothNamed(ctx, errci)
    case GeneralReporter => BothNamed(ctx, errci)
  }

  /**
   * Reports that `fr` was required to outlive `outlivedFr`. `category` and
   * `span` are the blamed constraint; `nice` is the result of the specialised
   * "nice region error" reporter. Every path but the `FnMut` one records the
   * pair with the aggregator exactly once.
   */
  function ReportError(
    ctx: Context, fr: RegionVid, outlivedFr: RegionVid, category: ConstraintCategory, span: Span,
    nice: Option<Diag>, suggestions: OutlivesSuggestion): (r: Reported)
    requires WellFormed(ctx.graph)
    requires NiceErrorApplies(ctx, fr, outlivedFr, nice)
          || NamesAvailable(ctx, ErrorInfo(ctx, fr, outlivedFr, category, span))
    ensures NiceErrorApplies(ctx, fr, outlivedFr, nice) ==> r == Reported(nice.value, suggestions)
    ensures !NiceErrorApplies(ctx, fr, outlivedFr, nice) ==>
      var errci := ErrorInfo(ctx, fr, outlivedFr, category, span);
      match Dispatch(ctx, errci)
      case FnMutReporter =>
        r.diag == ReportFnMutError(ctx, errci) && r.suggestions == suggestions
      case EscapingDataReporter =>
        r.diag == ReportEscapingDataError(ctx, errci)
        && r.suggestions.constraints == suggestions.constraints + [(fr, outlivedFr)]
      case GeneralReporter =>
        r.diag == ReportGeneralError(ctx, errci)
        && r.suggestions.constraints == suggestions.constraints + [(fr, outlivedFr)]
  {
    if NiceErrorApplies(ctx, fr, outlivedFr, nice) then
      Reported(nice.value, suggestions)
    else
      var errci := ErrorInfo(ctx, fr, outlivedFr, category, span);
      match Dispatch(ctx, errci)
      case FnMutReporter =>
        Reported(ReportFnMutError(ctx, errci), suggestions)
      case EscapingDataReporter =>
        Reported(ReportEscapingDataError(ctx, errci), suggestions.CollectConstraint(fr, outlivedFr))
      case GeneralReporter =>
        Reported(ReportGeneralError(ctx, errci), suggestions.CollectConstraint(fr, outlivedFr))
  }

  /**
   * Unless `fr` is local and `outlivedFr` is not, the report is the general one
   * (or the "nice" one) and the pair is collected once.
   */
  lemma NonEscapingPairsReportGenerally(
    ctx: Context, fr: RegionVid, outlivedFr: RegionVid, category: ConstraintCategory, span: Span,
    nice: Option<Diag>, suggestions: OutlivesSuggestion)
    requires WellFormed(ctx.graph)
    requires !ctx.isLocalFreeRegion(fr) || ctx.isLocalFreeRegion(outlivedFr)
    requires !NiceErrorApplies(ctx, fr, outlivedFr, nice)
    requires BothNamed(ctx, ErrorInfo(ctx, fr, outlivedFr, category, span))
    ensures var r := ReportError(ctx, fr, outlivedFr, category, span, nice, suggestions);
      && r.diag == ReportGeneralError(ctx, ErrorInfo(ctx, fr, outlivedFr, category, span))
      && r.suggestions.constraints == suggestions.constraints + [(fr, outlivedFr)]
  {
    var errci := ErrorInfo(ctx, fr, outlivedFr, category, span);
    assert Dispatch(ctx, errci) == GeneralReporter;
  }

  /**
   * When the escaping-data reporter reverts, the report is exactly the general
   * report of the same error: dispatch already made the localities (local, not local).
   */
  lemma EscapingFallbackIsGeneralReport(ctx: Context, errci: ErrorConstraintInfo)
    requires WellFormed(ctx.graph)
    requires Dispatch(ctx, errci) == EscapingDataReporter
    requires RevertsToGeneral(ctx, errci) && BothNamed(ctx, errci)
    ensures ReportEscapingDataError(ctx, errci) == ReportGeneralError(ctx, errci)
  {
    assert errci.(frIsLocal := true, outlivedFrIsLocal := false) == errci;
  }

  /**
   * A function returning data of lifetime `'a` where `'b` was promised: the
   * label reads "function was supposed to return data with lifetime `'b` but it
   * is returning data with lifetime `'a`".
   */
  lemma ReturnIntoLocalRegionScenario(
    ctx: Context, fr: RegionVid, outlivedFr: RegionVid, span: Span, suggestions: OutlivesSuggestion)
    requires WellFormed(ctx.graph)
    requires ctx.isLocalFreeRegion(outlivedFr) && !ctx.mirIsClosure
    requires ctx.regionName(fr).Some? && ctx.regionName(fr).value.text == "'a"
    requires ctx.regionName(outlivedFr).Some? && ctx.regionName(outlivedFr).value.text == "'b"
    ensures ReportError(ctx, fr, outlivedFr, Return, span, None, suggestions).diag.labels
         == [Label(span, "function" + " was supposed to return data with lifetime `" + "'b"
                         + "` but it is returning data with lifetime `" + "'a" + "`")]
  {
    var errci := ErrorInfo(ctx, fr, outlivedFr, Return, span);
    assert Dispatch(ctx, errci) == GeneralReporter;
  }

  /**
   * A `FnMut` closure returning a reference to a capture, with the environment
   * region named by synthesis: the report labels the synthesized span as
   * "inferred to be a `FnMut` closure" and leaves the aggregator alone.
   */
  lemma FnMutClosureScenario(
    ctx: Context, fr: RegionVid, outlivedFr: RegionVid, span: Span, envSpan: Span, note: string,
    nice: Option<Diag>, suggestions: OutlivesSuggestion)
    requires WellFormed(ctx.graph)
    requires ctx.isLocalFreeRegion(fr) && !ctx.isLocalFreeRegion(outlivedFr)
    requires IsClosureFnMut(ctx, fr)
    requires !NiceErrorApplies(ctx, fr, outlivedFr, nice)
    requires ctx.regionName(outlivedFr).Some?
    requires ctx.regionName(outlivedFr).value.source == SynthesizedFreeEnvRegion(envSpan, note)
    ensures var r := ReportError(ctx, fr, outlivedFr, Return, span, nice, suggestions);
      && r.diag.message == FnMutMessage
      && Label(envSpan, FnMutInferredLabel) in r.diag.labels
      && r.suggestions == suggestions
  {
    var errci := ErrorInfo(ctx, fr, outlivedFr, Return, span);
    assert Dispatch(ctx, errci) == FnMutReporter;
    var d := ReportFnMutError(ctx, errci);
    assert d.labels[1] == Label(envSpan, FnMutInferredLabel);
  }
}
