/**
 * The diagnostic objects the reporter builds, and the region names it is
 * handed by the region namer.
 */
module Diagnostics {
  import opened Wrappers

  /** A source span; only its identity matters here. */
  datatype Span = Span(lo: nat, hi: nat)

  /** How confidently a suggestion may be applied by tools. */
  datatype Applicability = MachineApplicable | MaybeIncorrect | HasPlaceholders | Unspecified

  /** A secondary annotation: a span with a label. */
  datatype Label = Label(span: Span, text: string)

  /** A span-anchored replacement. */
  datatype Suggestion = Suggestion(span: Span, message: string, replacement: string, applicability: Applicability)

  /** A diagnostic: primary span and message, then labels, notes, helps and suggestions in emission order. */
  datatype Diag = Diag(
    span: Span,
    message: string,
    labels: seq<Label>,
    notes: seq<string>,
    helps: seq<string>,
    suggestions: seq<Suggestion>)
  {
    function SpanLabel(s: Span, text: string): (d: Diag)
      ensures d.labels == labels + [Label(s, text)]
      ensures d.(labels := labels) == this
    {
      this.(labels := labels + [Label(s, text)])
    }

    function Note(text: string): (d: Diag)
      ensures d.notes == notes + [text]
      ensures d.(notes := notes) == this
    {
      this.(notes := notes + [text])
    }

    function Help(text: string): (d: Diag)
      ensures d.helps == helps + [text]
      ensures d.(helps := helps) == this
    {
      this.(helps := helps + [text])
    }

    function SpanSuggestion(s: Span, msg: string, replacement: string, a: Applicability): (d: Diag)
      ensures d.suggestions == suggestions + [Suggestion(s, msg, replacement, a)]
      ensures d.(suggestions := suggestions) == this
    {
      this.(suggestions := suggestions + [Suggestion(s, msg, replacement, a)])
    }
  }

  /** A fresh error with only its primary span and message. */
  function StructSpanErr(s: Span, message: string): (d: Diag)
    ensures d.span == s && d.message == message
    ensures d.labels == [] && d.notes == [] && d.helps == [] && d.suggestions == []
  {
    Diag(s, message, [], [], [], [])
  }

  /**
   * Where the region namer found a region's name. Only the variants that the
   * `FnMut` reporter distinguishes are spelled out; every other way of naming
   * a region is `OtherSource`.
   */
  datatype RegionNameSource =
    | NamedEarlyBoundRegion(span: Span)
    | NamedFreeRegion(span: Span)
    | Static
    | SynthesizedFreeEnvRegion(span: Span, note: string)
    | CannotMatchHirTy(span: Span, typeName: string)
    | MatchedHirTy(span: Span)
    | MatchedAdtAndSegment(span: Span)
    | AnonRegionFromUpvar(span: Span, upvarName: string)
    | AnonRegionFromOutput(span: Span, mirDescription: string, typeName: string)
    | OtherSource

  /** A display name for a region; `wasNamed` holds when the user wrote the name. */
  datatype RegionName = RegionName(text: string, source: RegionNameSource, wasNamed: bool)
}
