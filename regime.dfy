/**
 * The regime classifier of an opening: from the crest elevation, the water
 * elevation in the node, the water elevation of the overland model and the
 * opening's area/width ratio it decides which flow formula applies.
 */
module Regime {
  import opened Openings

  /** Regime of an opening for the given heads. The weir ratio area/width is
    * the depth above the crest at which a drained opening starts acting as an
    * orifice. The result is never NoCoupling: only the registry closes openings. */
  function FindCouplingType(crestElev: real, nodeHead: real, overlandHead: real,
                            overflowArea: real, weirWidth: real): (r: CouplingType)
    requires weirWidth != 0.0
    ensures r != NoCoupling
    // equal heads: nothing flows
    ensures nodeHead == overlandHead ==> r == NoCouplingFlow
    // overflow: orifice exactly when the node is surcharged above the crest
    ensures nodeHead > overlandHead ==>
              (r == OrificeCoupling <==> nodeHead > crestElev) &&
              (r != OrificeCoupling <==> r == NoCouplingFlow)
    // drainage into a surcharged node: orifice when the surface is deep enough
    ensures crestElev < nodeHead < overlandHead ==>
              (r == OrificeCoupling <==> overlandHead - crestElev >= overflowArea / weirWidth) &&
              (r != OrificeCoupling <==> r == SubmergedWeirCoupling)
    // drainage into a free node: free weir
    ensures nodeHead < crestElev < overlandHead ==> r == FreeWeirCoupling
    // node level exactly at the crest, or surface below the crest: nothing flows
    ensures nodeHead == crestElev ==> r == NoCouplingFlow
    ensures nodeHead < overlandHead <= crestElev ==> r == NoCouplingFlow
    // which inputs yield each weir regime, both directions
    ensures r == FreeWeirCoupling <==> nodeHead < crestElev < overlandHead
    ensures r == SubmergedWeirCoupling <==>
              crestElev < nodeHead < overlandHead && overlandHead - crestElev < overflowArea / weirWidth
  {
    var surfaceDepth := overlandHead - crestElev;
    var weirRatio := overflowArea / weirWidth;
    var overflow := nodeHead > overlandHead;
    var drainage := nodeHead < overlandHead;
    var overflowOrifice := overflow && nodeHead > crestElev;
    var drainageOrifice := drainage && nodeHead > crestElev && surfaceDepth >= weirRatio;
    var submergedWeir := drainage && nodeHead > crestElev && surfaceDepth < weirRatio;
    var freeWeir := drainage && nodeHead < crestElev && overlandHead > crestElev;
    if !overflow && !drainage then NoCouplingFlow
    else if overflowOrifice || drainageOrifice then OrificeCoupling
    else if submergedWeir then SubmergedWeirCoupling
    else if freeWeir then FreeWeirCoupling
    else NoCouplingFlow
  }

  /** The orifice regime, both directions: the node is above the crest and
    * either pushes water out or is drained by a surface at least one weir
    * ratio deep. */
  lemma OrificeRegion(crestElev: real, nodeHead: real, overlandHead: real,
                      overflowArea: real, weirWidth: real)
    requires weirWidth != 0.0
    ensures FindCouplingType(crestElev, nodeHead, overlandHead, overflowArea, weirWidth) == OrificeCoupling
        <==> nodeHead > crestElev &&
             (nodeHead > overlandHead ||
              (nodeHead < overlandHead && overlandHead - crestElev >= overflowArea / weirWidth))
  {
  }

  /** Only differences of elevations matter: raising the crest and both water
    * levels by the same amount keeps the regime. */
  lemma ShiftInvariant(crestElev: real, nodeHead: real, overlandHead: real,
                       overflowArea: real, weirWidth: real, d: real)
    requires weirWidth != 0.0
    ensures FindCouplingType(crestElev + d, nodeHead + d, overlandHead + d, overflowArea, weirWidth)
         == FindCouplingType(crestElev, nodeHead, overlandHead, overflowArea, weirWidth)
  {
  }
}
