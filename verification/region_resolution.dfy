/**
 * Resolving a region inference variable to a universal ("free") region that
 * can be named in an error message.
 */
module RegionResolution {
  import opened Wrappers

  /** Region inference variables are indices into the solved graph. */
  type RegionVid = nat

  /** A strongly connected component of the constraint graph. */
  type ConstraintScc = nat

  /** The bound-region part of a free region. */
  datatype BoundRegion = BrAnon(index: nat) | BrNamed(name: string) | BrEnv

  /** The external (type-level) name of a region, as far as this reporter looks at it. */
  datatype Region = ReStatic | ReFree(boundRegion: BoundRegion) | ReEarlyBound(index: nat) | ReOther

  /**
   * A read-only view of the solved region graph. `rank` is a proof device: it
   * records that the universal-upper-bound relation is acyclic wherever the
   * resolver follows it.
   */
  datatype RegionGraph = RegionGraph(
    isUniversal: RegionVid -> bool,
    scc: RegionVid -> ConstraintScc,
    universalUpperBound: RegionVid -> RegionVid,
    sccContains: (ConstraintScc, RegionVid) -> bool,
    externalName: RegionVid -> Option<Region>,
    ghost rank: RegionVid -> nat)

  /** One resolution step: `r` is existential and its upper bound lies in `r`'s SCC value. */
  predicate Steps(g: RegionGraph, r: RegionVid) {
    !g.isUniversal(r) && g.sccContains(g.scc(r), g.universalUpperBound(r))
  }

  /** Every resolution step strictly lowers the rank, so resolution terminates. */
  ghost predicate WellFormed(g: RegionGraph) {
    forall r :: Steps(g, r) ==> g.rank(g.universalUpperBound(r)) < g.rank(r)
  }

  /**
   * The universal region a variable stands for in error messages, or `None`
   * when it denotes only some unnamed part of the control-flow graph.
   */
  function ToErrorRegionVid(g: RegionGraph, r: RegionVid): (res: Option<RegionVid>)
    requires WellFormed(g)
    ensures res.Some? ==> g.isUniversal(res.value)
    ensures g.isUniversal(r) ==> res == Some(r)
    ensures !g.isUniversal(r) && !Steps(g, r) ==> res == None
    decreases g.rank(r)
  {
    if g.isUniversal(r) then
      Some(r)
    else
      var rScc := g.scc(r);
      var upperBound := g.universalUpperBound(r);
      if g.sccContains(rScc, upperBound) then
        ToErrorRegionVid(g, upperBound)
      else
        None
  }

  /** The external name of the region `r` resolves to, if it resolves and has one. */
  function ToErrorRegion(g: RegionGraph, r: RegionVid): (res: Option<Region>)
    requires WellFormed(g)
    ensures ToErrorRegionVid(g, r).None? ==> res.None?
    ensures ToErrorRegionVid(g, r).Some? ==> res == g.externalName(ToErrorRegionVid(g, r).value)
  {
    ToErrorRegionVid(g, r).AndThen(g.externalName)
  }

  /**
   * An independent description of resolution: a chain of resolution steps that
   * ends in a universal region.
   */
  ghost predicate IsResolutionChain(g: RegionGraph, c: seq<RegionVid>) {
    && |c| > 0
    && g.isUniversal(c[|c| - 1])
    && forall i :: 0 <= i < |c| - 1 ==> Steps(g, c[i]) && c[i + 1] == g.universalUpperBound(c[i])
  }

  /** A chain from `r` ending at `v` means `r` resolves to `v`. */
  lemma {:induction false} ChainResolves(g: RegionGraph, c: seq<RegionVid>)
    requires WellFormed(g) && IsResolutionChain(g, c)
    ensures ToErrorRegionVid(g, c[0]) == Some(c[|c| - 1])
    decreases |c|
  {
    if |c| > 1 {
      assert Steps(g, c[0]) && c[1] == g.universalUpperBound(c[0]);
      assert IsResolutionChain(g, c[1..]) by {
        forall i | 0 <= i < |c[1..]| - 1
          ensures Steps(g, c[1..][i]) && c[1..][i + 1] == g.universalUpperBound(c[1..][i])
        {
          assert c[1..][i] == c[i + 1] && c[1..][i + 1] == c[i + 2];
        }
      }
      ChainResolves(g, c[1..]);
    }
  }

  /** Whenever `r` resolves to `v`, a resolution chain from `r` to `v` exists. */
  lemma {:induction false} ResolutionHasChain(g: RegionGraph, r: RegionVid, v: RegionVid)
    returns (c: seq<RegionVid>)
    requires WellFormed(g) && ToErrorRegionVid(g, r) == Some(v)
    ensures IsResolutionChain(g, c) && c[0] == r && c[|c| - 1] == v
    decreases g.rank(r)
  {
    if g.isUniversal(r) {
      c := [r];
    } else {
      var ub := g.universalUpperBound(r);
      assert Steps(g, r);
      var rest := ResolutionHasChain(g, ub, v);
      c := [r] + rest;
      forall i | 0 <= i < |c| - 1
        ensures Steps(g, c[i]) && c[i + 1] == g.universalUpperBound(c[i])
      {
        if i > 0 {
          assert c[i] == rest[i - 1] && c[i + 1] == rest[i];
        }
      }
    }
  }

  /** `r` resolves to `v` exactly when a resolution chain leads from `r` to `v`. */
  lemma ResolvesIffChain(g: RegionGraph, r: RegionVid, v: RegionVid)
    requires WellFormed(g)
    ensures ToErrorRegionVid(g, r) == Some(v)
        <==> exists c :: IsResolutionChain(g, c) && c[0] == r && c[|c| - 1] == v
  {
    if ToErrorRegionVid(g, r) == Some(v) {
      var c := ResolutionHasChain(g, r, v);
    }
    if c :| IsResolutionChain(g, c) && c[0] == r && c[|c| - 1] == v {
      ChainResolves(g, c);
    }
  }

  /** Resolving a resolved region changes nothing. */
  lemma ResolutionIdempotent(g: RegionGraph, r: RegionVid)
    requires WellFormed(g) && ToErrorRegionVid(g, r).Some?
    ensures ToErrorRegionVid(g, ToErrorRegionVid(g, r).value) == ToErrorRegionVid(g, r)
  {
  }
}
