/**
 * The flow through one opening: a regime-specific magnitude to which the
 * direction is then applied, positive into the node. Square root and power
 * are supplied by the caller as functions, so the model keeps the structure
 * of the formulas without floating-point arithmetic.
 */
module Flux {
  import opened Openings

  /** The floating-point functions the formulas use. */
  datatype MathLib = MathLib(sqrt: real -> real, pow: (real, real) -> real)

  /** Acceleration of gravity, US units (ft/s2). */
  const GRAVITY: real := 32.2

  function Abs(x: real): (r: real)
    ensures r >= 0.0 && (r == x || r == -x)
  {
    if x < 0.0 then -x else x
  }

  function Max(a: real, b: real): real { if a >= b then a else b }
  function Min(a: real, b: real): real { if a <= b then a else b }

  /** Magnitude of the flow for a regime, before the direction is applied. */
  function Magnitude(couplingType: CouplingType, crestElev: real, nodeHead: real,
                     overlandHead: real, orificeCoeff: real, freeWeirCoeff: real,
                     subWeirCoeff: real, overflowArea: real, weirWidth: real,
                     m: MathLib): (u: real)
    ensures couplingType == NoCoupling || couplingType == NoCouplingFlow ==> u == 0.0
  {
    var sqrt2g := m.sqrt(2.0 * GRAVITY);
    var headUp := Max(overlandHead, nodeHead);
    var headDown := Min(overlandHead, nodeHead);
    var headDiff := headUp - headDown;
    var depthUp := headUp - crestElev;
    match couplingType
    case OrificeCoupling =>
      orificeCoeff * overflowArea * m.sqrt(2.0 * GRAVITY * headDiff)
    case FreeWeirCoupling =>
      (2.0 / 3.0) * freeWeirCoeff * weirWidth * m.pow(depthUp, 1.5) * sqrt2g
    case SubmergedWeirCoupling =>
      subWeirCoeff * weirWidth * depthUp * m.sqrt(2.0 * GRAVITY * headDiff)
    case _ => 0.0
  }

  /** Signed flow through an opening: the regime's magnitude, directed into
    * the node when the overland head is the higher one and out of it otherwise. */
  function FindCouplingInflow(couplingType: CouplingType, crestElev: real, nodeHead: real,
                              overlandHead: real, orificeCoeff: real, freeWeirCoeff: real,
                              subWeirCoeff: real, overflowArea: real, weirWidth: real,
                              m: MathLib): (r: real)
    ensures Abs(r) == Abs(Magnitude(couplingType, crestElev, nodeHead, overlandHead, orificeCoeff,
                                    freeWeirCoeff, subWeirCoeff, overflowArea, weirWidth, m))
    ensures couplingType == NoCoupling || couplingType == NoCouplingFlow ==> r == 0.0
    ensures r > 0.0 ==> overlandHead > nodeHead
    ensures r < 0.0 ==> overlandHead <= nodeHead
    ensures overlandHead > nodeHead ==> r >= 0.0
    ensures overlandHead <= nodeHead ==> r <= 0.0
  {
    var u := Magnitude(couplingType, crestElev, nodeHead, overlandHead, orificeCoeff,
                       freeWeirCoeff, subWeirCoeff, overflowArea, weirWidth, m);
    if overlandHead - nodeHead > 0.0 then Abs(u) else -Abs(u)
  }
}
