/**
 * The suggestion added to a general lifetime error when a returned
 * `impl Trait` is required to outlive `'static`.
 */
module StaticImplTrait {
  import opened Wrappers
  import opened RegionResolution
  import opened Diagnostics

  type DefId = nat

  /** A type, as far as the suggestion looks at it: an opaque type with its substitutions, or anything else. */
  datatype Ty = Opaque(def: DefId, substs: nat) | OtherTy

  /** An instantiated bound of an opaque type. */
  datatype Predicate = TypeOutlives(subject: Ty, bound: Region) | OtherPredicate

  /** The compiler-database queries the suggestion consults. */
  datatype TyQueries = TyQueries(
    suitableRegionScope: Region -> Option<DefId>,   // the `def_id` of `is_suitable_region`, if any
    returnTypeImplTrait: DefId -> Option<Ty>,
    instantiatedBounds: (DefId, nat) -> seq<Predicate>,
    defSpan: DefId -> Span,
    snippet: Span -> Option<string>)

  /** A `T: 'static` bound. */
  predicate IsStaticOutlives(p: Predicate) {
    p.TypeOutlives? && p.bound == ReStatic
  }

  /** Whether the opaque type's own bounds already demand `'static`. */
  function HasStaticPredicate(bounds: seq<Predicate>): (found: bool)
    ensures found <==> exists i :: 0 <= i < |bounds| && IsStaticOutlives(bounds[i])
  {
    if |bounds| == 0 then
      false
    else if IsStaticOutlives(bounds[0]) then
      true
    else
      var rest := HasStaticPredicate(bounds[1..]);
      assert forall i :: 1 <= i < |bounds| ==> bounds[i] == bounds[1..][i - 1];
      rest
  }

  /**
   * The opaque return type the suggestion is about: present only when `fr`
   * names a region, `outlivedFr` names `'static`, and `fr`'s scope returns an
   * `impl Trait`.
   */
  function StaticOpaqueReturn(g: RegionGraph, q: TyQueries, fr: RegionVid, outlivedFr: RegionVid): (r: Option<Ty>)
    requires WellFormed(g)
    ensures r.Some? <==>
      && ToErrorRegion(g, fr).Some?
      && ToErrorRegion(g, outlivedFr) == Some(ReStatic)
      && q.suitableRegionScope(ToErrorRegion(g, fr).value).Some?
      && var ty := q.returnTypeImplTrait(q.suitableRegionScope(ToErrorRegion(g, fr).value).value);
         ty.Some? && ty.value.Opaque?
    ensures r.Some? ==> r.value.Opaque?
    ensures r.Some? ==> r == q.returnTypeImplTrait(q.suitableRegionScope(ToErrorRegion(g, fr).value).value)
  {
    match (ToErrorRegion(g, fr), ToErrorRegion(g, outlivedFr))
    case (Some(f), Some(ReStatic)) =>
      (match q.suitableRegionScope(f)
       case Some(id) =>
         (match q.returnTypeImplTrait(id)
          case Some(Opaque(did, substs)) => Some(Opaque(did, substs))
          case _ => None)
       case None => None)
    case _ => None
  }

  predicate EndsWithSemicolon(s: string) {
    |s| > 0 && s[|s| - 1] == ';'
  }

  /** Where ` + name` goes: before a trailing `;`, otherwise at the end. */
  function BoundInsertionPoint(s: string): (k: nat)
    ensures k <= |s|
    ensures EndsWithSemicolon(s) ==> k == |s| - 1 && s[k..] == ";"
    ensures !EndsWithSemicolon(s) ==> k == |s|
  {
    if EndsWithSemicolon(s) then |s| - 1 else |s|
  }

  /** The lifetime written in the suggestion: the region's own name if the user wrote it, else `'_`. */
  function SuggestableName(n: RegionName): (s: string)
    ensures n.wasNamed ==> s == n.text
    ensures !n.wasNamed ==> s == "'_"
  {
    if n.wasNamed then n.text else "'_"
  }

  /** The patched declaration text: the snippet with ` + name` added as a bound. */
  function StaticBoundPatch(snippet: string, name: string): (r: string)
    ensures var k := BoundInsertionPoint(snippet);
      r == snippet[..k] + " + " + name + snippet[k..]
  {
    if EndsWithSemicolon(snippet) then
      snippet[..|snippet| - 1] + " + " + name + ";"
    else
      snippet + " + " + name
  }

  /**
   * The patch is a pure insertion: deleting the inserted ` + name` gives the
   * snippet back, and a trailing `;` stays last (for names that do not end in `;`).
   */
  lemma {:induction false} StaticBoundPatchIsInsertion(snippet: string, name: string)
    requires !EndsWithSemicolon(name)
    ensures var r := StaticBoundPatch(snippet, name);
      var k := BoundInsertionPoint(snippet);
      && |r| == |snippet| + 3 + |name|
      && r[k..k + 3 + |name|] == " + " + name
      && r[..k] + r[k + 3 + |name|..] == snippet
      && (EndsWithSemicolon(r) <==> EndsWithSemicolon(snippet))
  {
    var r := StaticBoundPatch(snippet, name);
    var k := BoundInsertionPoint(snippet);
    var ins := " + " + name;
    assert r == snippet[..k] + ins + snippet[k..];
    assert r[..k] == snippet[..k];
    assert r[k..k + |ins|] == ins;
    assert r[k + |ins|..] == snippet[k..];
    assert snippet[..k] + snippet[k..] == snippet;
    if !EndsWithSemicolon(snippet) {
      assert r[|r| - 1] == ins[|ins| - 1];
    }
  }

  lemma StaticBoundPatchBeforeTerminator()
    ensures StaticBoundPatch("type X = impl Trait;", "'a") == "type X = impl Trait + 'a;"
  {
  }

  lemma StaticBoundPatchWithoutTerminator()
    ensures StaticBoundPatch("fn f() -> impl Trait", "'a") == "fn f() -> impl Trait + 'a"
  {
  }

  function ReplaceWithStaticHelp(frName: RegionName): string {
    "consider replacing `" + frName.text + "` with `'static`"
  }

  function AddBoundMessage(frName: RegionName): string {
    "to allow this `impl Trait` to capture borrowed data with lifetime `" + frName.text
      + "`, add `" + SuggestableName(frName) + "` as a bound"
  }

  /**
   * Adds to `d` either a help to replace `fr`'s lifetime with `'static` (when
   * the opaque type already has a `'static` bound) or a machine-applicable
   * patch adding `fr`'s lifetime as a bound (when the declaration's text is
   * available). Nothing else in `d` changes.
   */
  function AddStaticImplTraitSuggestion(
    g: RegionGraph, q: TyQueries, d: Diag, fr: RegionVid, frName: RegionName, outlivedFr: RegionVid): (r: Diag)
    requires WellFormed(g)
    // only helps and suggestions grow, by at most one entry in all
    ensures r.(helps := d.helps, suggestions := d.suggestions) == d
    ensures |d.helps| <= |r.helps| && r.helps[..|d.helps|] == d.helps
    ensures |d.suggestions| <= |r.suggestions| && r.suggestions[..|d.suggestions|] == d.suggestions
    ensures |r.helps| + |r.suggestions| <= |d.helps| + |d.suggestions| + 1
    // it fires only for an opaque return type required to outlive `'static`
    ensures r != d ==> ToErrorRegion(g, outlivedFr) == Some(ReStatic) && ToErrorRegion(g, fr).Some?
    ensures StaticOpaqueReturn(g, q, fr, outlivedFr).None? ==> r == d
    ensures var o := StaticOpaqueReturn(g, q, fr, outlivedFr);
      o.Some? && HasStaticPredicate(q.instantiatedBounds(o.value.def, o.value.substs)) ==>
        r.helps == d.helps + [ReplaceWithStaticHelp(frName)] && r.suggestions == d.suggestions
    ensures var o := StaticOpaqueReturn(g, q, fr, outlivedFr);
      o.Some? && !HasStaticPredicate(q.instantiatedBounds(o.value.def, o.value.substs)) ==>
        var span := q.defSpan(o.value.def);
        && r.helps == d.helps
        && (q.snippet(span).None? ==> r == d)
        && (q.snippet(span).Some? ==>
              r.suggestions == d.suggestions + [Suggestion(span, AddBoundMessage(frName),
                StaticBoundPatch(q.snippet(span).value, SuggestableName(frName)), MachineApplicable)])
  {
    match StaticOpaqueReturn(g, q, fr, outlivedFr)
    case Some(Opaque(did, substs)) =>
      if HasStaticPredicate(q.instantiatedBounds(did, substs)) then
        d.Help(ReplaceWithStaticHelp(frName))
      else
        var span := q.defSpan(did);
        (match q.snippet(span)
         case Some(snippet) =>
           d.SpanSuggestion(span, AddBoundMessage(frName),
             StaticBoundPatch(snippet, SuggestableName(frName)), MachineApplicable)
         case None => d)
    case _ => d
  }
}
