/**
 * What one coupling time step does to the openings of a node: each open
 * opening is classified, its flow computed and then damped by the
 * oscillation guard; the flows are summed; a positive total larger than the
 * water the overland cell holds for this step is scaled down proportionally.
 */
module NodeStep {
  import opened Openings
  import opened Regime
  import opened Flux

  /** The three elevations a node step compares. */
  datatype Heads = Heads(crestElev: real, nodeHead: real, overlandHead: real)

  /** Heads from the node's invert elevation and its three depths. */
  function NodeHeads(invertElev: real, fullDepth: real, newDepth: real,
                     overlandDepth: real): Heads
  {
    var crestElev := invertElev + fullDepth;
    Heads(crestElev, invertElev + newDepth, crestElev + overlandDepth)
  }

  /** The classifier sees a node only through its depths: the node is above
    * the crest exactly when its depth exceeds the full depth, the surface is
    * higher than the node exactly when full depth plus overland depth exceeds
    * the node depth, and the regime is the one for heads measured from the
    * invert, whatever the invert elevation. */
  lemma RegimeFromDepths(invertElev: real, fullDepth: real, newDepth: real, overlandDepth: real,
                         overflowArea: real, weirWidth: real)
    requires weirWidth != 0.0
    ensures var h := NodeHeads(invertElev, fullDepth, newDepth, overlandDepth);
      && (h.nodeHead > h.crestElev <==> newDepth > fullDepth)
      && (h.overlandHead > h.nodeHead <==> fullDepth + overlandDepth > newDepth)
      && h.overlandHead - h.crestElev == overlandDepth
      && FindCouplingType(h.crestElev, h.nodeHead, h.overlandHead, overflowArea, weirWidth)
         == FindCouplingType(fullDepth, newDepth, fullDepth + overlandDepth, overflowArea, weirWidth)
  {
    ShiftInvariant(fullDepth, newDepth, fullDepth + overlandDepth, overflowArea, weirWidth, invertElev);
  }

  /** Every opening the classifier will see has a nonzero width. */
  predicate Classifiable(os: seq<Opening>)
  {
    forall k :: 0 <= k < |os| && os[k].couplingType != NoCoupling ==> os[k].length != 0.0
  }

  /** Previous and current flow point in strictly opposite directions. */
  predicate SignFlip(oldInflow: real, inflow: real)
  {
    (oldInflow > 0.0 && inflow < 0.0) || (oldInflow < 0.0 && inflow > 0.0)
  }

  /** Classification and flow of an opening, before the oscillation guard. */
  function RawType(o: Opening, h: Heads): CouplingType
    requires o.length != 0.0
  {
    FindCouplingType(h.crestElev, h.nodeHead, h.overlandHead, o.area, o.length)
  }

  function RawInflow(o: Opening, h: Heads, m: MathLib): real
    requires o.length != 0.0
  {
    FindCouplingInflow(RawType(o, h), h.crestElev, h.nodeHead, h.overlandHead,
                       o.coeffOrifice, o.coeffFreeWeir, o.coeffSubWeir, o.area, o.length, m)
  }

  /** One opening after a step: closed openings are left alone; the others
    * take the classified regime and its flow, unless the flow reverses the
    * previous step's flow, in which case the opening rests for this step. */
  function StepOpening(o: Opening, h: Heads, m: MathLib): (r: Opening)
    requires o.couplingType != NoCoupling ==> o.length != 0.0
    ensures r.(couplingType := o.couplingType, newInflow := o.newInflow) == o
    ensures r.couplingType == NoCoupling <==> o.couplingType == NoCoupling
    ensures o.oldInflow * r.newInflow >= 0.0 || o.couplingType == NoCoupling
    ensures r.newInflow > 0.0 ==> h.overlandHead > h.nodeHead || o.couplingType == NoCoupling
    ensures r.newInflow < 0.0 ==> h.overlandHead <= h.nodeHead || o.couplingType == NoCoupling
  {
    if o.couplingType == NoCoupling then o
    else
      var ct := RawType(o, h);
      var q := RawInflow(o, h, m);
      if SignFlip(o.oldInflow, q) then
        o.(couplingType := NoCouplingFlow, newInflow := 0.0)
      else
        assert o.oldInflow * q >= 0.0 by {
          if o.oldInflow > 0.0 { assert q >= 0.0; }
          else if o.oldInflow < 0.0 { assert q <= 0.0; }
        }
        o.(couplingType := ct, newInflow := q)
  }

  /** Every opening of a node after a step, in list order. */
  function StepAll(os: seq<Opening>, h: Heads, m: MathLib): (r: seq<Opening>)
    requires Classifiable(os)
    ensures |r| == |os|
  {
    seq(|os|, k requires 0 <= k < |os| => StepOpening(os[k], h, m))
  }

  /** What an opening adds to its node's total: nothing when it is closed. */
  function Contribution(o: Opening): real
  {
    if o.couplingType == NoCoupling then 0.0 else o.newInflow
  }

  /** Sum of the current flows of the openings that are not closed. */
  function Total(os: seq<Opening>): real
  {
    if os == [] then 0.0 else Total(os[..|os| - 1]) + Contribution(os[|os| - 1])
  }

  /** Every opening with its current flow multiplied by a factor. */
  function Scaled(os: seq<Opening>, factor: real): (r: seq<Opening>)
    ensures |r| == |os|
  {
    seq(|os|, k requires 0 <= k < |os| => os[k].(newInflow := os[k].newInflow * factor))
  }

  /** The most the overland cell can give up in one step. */
  function RawMaxInflow(overlandDepth: real, couplingArea: real, tStep: real): real
    requires tStep != 0.0
  {
    (overlandDepth * couplingArea) / tStep
  }

  /** The factor that brings a positive total down to the overland cell's limit. */
  function AdjustingFactor(total: real, overlandDepth: real, couplingArea: real, tStep: real): (f: real)
    requires total > 0.0 && tStep != 0.0
    ensures f * total == Min(RawMaxInflow(overlandDepth, couplingArea, tStep), total)
    ensures f <= 1.0
    ensures f == 1.0 <==> RawMaxInflow(overlandDepth, couplingArea, tStep) >= total
  {
    var maxInflow := Min(RawMaxInflow(overlandDepth, couplingArea, tStep), total);
    maxInflow / total
  }

  /** The openings after the clamp: scaled, all of them, when the total is positive. */
  function Clamped(stepped: seq<Opening>, overlandDepth: real, couplingArea: real,
                   tStep: real): seq<Opening>
    requires tStep != 0.0
  {
    var total := Total(stepped);
    if total > 0.0 then Scaled(stepped, AdjustingFactor(total, overlandDepth, couplingArea, tStep))
    else stepped
  }

  // ---------------------------------------------------------------------------
  // Lemmas

  /** The oscillation guard, both ways: a reversal against the previous flow
    * leaves the opening resting with no flow; otherwise the classified regime
    * and its flow are kept. */
  lemma StepOpeningGuard(o: Opening, h: Heads, m: MathLib)
    requires o.couplingType != NoCoupling && o.length != 0.0
    ensures SignFlip(o.oldInflow, RawInflow(o, h, m)) ==>
              StepOpening(o, h, m).couplingType == NoCouplingFlow &&
              StepOpening(o, h, m).newInflow == 0.0
    ensures !SignFlip(o.oldInflow, RawInflow(o, h, m)) ==>
              StepOpening(o, h, m).couplingType == RawType(o, h) &&
              StepOpening(o, h, m).newInflow == RawInflow(o, h, m)
  {
  }

  /** A step touches no closed opening and changes only regime and current
    * flow of the others. */
  lemma StepAllEffect(os: seq<Opening>, h: Heads, m: MathLib)
    requires Classifiable(os)
    ensures var r := StepAll(os, h, m);
      && (forall k :: 0 <= k < |os| && os[k].couplingType == NoCoupling ==> r[k] == os[k])
      && (forall k :: 0 <= k < |os| ==>
            r[k].(couplingType := os[k].couplingType, newInflow := os[k].newInflow) == os[k])
      && Ids(r) == Ids(os)
      && Classifiable(r)
      && (Coupled(r) <==> Coupled(os))
  {
  }

  /** A closed opening adds nothing: the total of a node with no open opening is zero. */
  lemma {:induction false} UncoupledTotal(os: seq<Opening>)
    requires !Coupled(os)
    ensures Total(os) == 0.0
  {
    if os != [] {
      var init := os[..|os| - 1];
      assert !Coupled(init) by {
        forall k | 0 <= k < |init| ensures init[k].couplingType == NoCoupling {
          assert init[k] == os[k];
        }
      }
      UncoupledTotal(init);
    }
  }

  /** Scaling every flow scales the total by the same factor. */
  lemma {:induction false} TotalScaled(os: seq<Opening>, factor: real)
    ensures Total(Scaled(os, factor)) == factor * Total(os)
  {
    if os != [] {
      var n := |os|;
      var lhs, rhs := Scaled(os, factor)[..n - 1], Scaled(os[..n - 1], factor);
      assert |lhs| == |rhs| == n - 1;
      assert forall k :: 0 <= k < n - 1 ==> lhs[k] == rhs[k];
      assert lhs == rhs;
      TotalScaled(os[..n - 1], factor);
      assert Contribution(Scaled(os, factor)[n - 1]) == factor * Contribution(os[n - 1]);
    }
  }

  /** The clamp factor lies in [0,1] when depth and area are not negative and
    * the step is positive, so scaling never reverses or enlarges a flow. */
  lemma AdjustingFactorRange(total: real, overlandDepth: real, couplingArea: real, tStep: real)
    requires total > 0.0 && tStep > 0.0 && overlandDepth >= 0.0 && couplingArea >= 0.0
    ensures 0.0 <= AdjustingFactor(total, overlandDepth, couplingArea, tStep) <= 1.0
  {
  }

  /** The clamp changes only current flows and leaves a list whose total is
    * not positive as it was. */
  lemma ClampedFields(stepped: seq<Opening>, overlandDepth: real, couplingArea: real, tStep: real)
    requires tStep != 0.0
    ensures var r := Clamped(stepped, overlandDepth, couplingArea, tStep);
      && |r| == |stepped|
      && (Total(stepped) <= 0.0 ==> r == stepped)
      && (forall k :: 0 <= k < |r| ==> r[k].(newInflow := stepped[k].newInflow) == stepped[k])
  {
  }

  /** A positive total is clamped by scaling every opening by one factor;
    * the summed openings then add up to the smaller of the total and the
    * overland limit, and nothing changes when the limit is not exceeded. */
  lemma ClampedScales(stepped: seq<Opening>, overlandDepth: real, couplingArea: real, tStep: real)
    requires tStep != 0.0 && Total(stepped) > 0.0
    ensures var r := Clamped(stepped, overlandDepth, couplingArea, tStep);
      var f := AdjustingFactor(Total(stepped), overlandDepth, couplingArea, tStep);
      && (forall k :: 0 <= k < |r| ==> r[k].newInflow == stepped[k].newInflow * f)
      && Total(r) == Min(RawMaxInflow(overlandDepth, couplingArea, tStep), Total(stepped))
      && (RawMaxInflow(overlandDepth, couplingArea, tStep) >= Total(stepped) ==> r == stepped)
  {
    var f := AdjustingFactor(Total(stepped), overlandDepth, couplingArea, tStep);
    TotalScaled(stepped, f);
    if f == 1.0 {
      var r := Scaled(stepped, f);
      assert forall k :: 0 <= k < |r| ==> r[k] == stepped[k];
    }
  }

  /** The total of a step, as it is returned, can exceed the total of the
    * flows stored in the openings: whenever the clamp bites, the stored flows
    * add up to the overland limit while the raw total stays above it. */
  lemma RawTotalIgnoresClamp(stepped: seq<Opening>, overlandDepth: real, couplingArea: real, tStep: real)
    requires tStep != 0.0 && Total(stepped) > 0.0
    requires RawMaxInflow(overlandDepth, couplingArea, tStep) < Total(stepped)
    ensures Total(Clamped(stepped, overlandDepth, couplingArea, tStep)) < Total(stepped)
  {
    ClampedScales(stepped, overlandDepth, couplingArea, tStep);
  }

  /** A concrete step where the returned raw total and the stored flows
    * disagree: two open openings draining one unit each against an overland
    * cell that can give up one unit in the step (depth 1, area 1, step 1). */
  lemma RawTotalExample(a: Opening, b: Opening)
    requires a.couplingType != NoCoupling && a.newInflow == 1.0
    requires b.couplingType != NoCoupling && b.newInflow == 1.0
    ensures Total([a, b]) == 2.0
    ensures RawMaxInflow(1.0, 1.0, 1.0) == 1.0
    ensures Total(Clamped([a, b], 1.0, 1.0, 1.0)) == 1.0
  {
    assert [a, b][..1] == [a];
    assert [a][..0] == [];
    assert Total([a]) == Total([]) + Contribution(a) == 1.0;
    assert Total([a, b]) == Total([a]) + Contribution(b);
    ClampedScales([a, b], 1.0, 1.0, 1.0);
  }

  /** Total of a list where one opening is replaced: the total changes by the
    * difference of the two contributions. */
  lemma {:induction false} TotalUpdate(os: seq<Opening>, k: nat, o: Opening)
    requires k < |os|
    ensures Total(os[k := o]) == Total(os) - Contribution(os[k]) + Contribution(o)
  {
    var n := |os|;
    if k < n - 1 {
      assert os[k := o][..n - 1] == os[..n - 1][k := o];
      TotalUpdate(os[..n - 1], k, o);
    } else {
      assert os[k := o][..n - 1] == os[..n - 1];
    }
  }

  /** Closing an opening takes its flow out of the node's total. */
  lemma CloseRemovesContribution(os: seq<Opening>, id: int)
    requires HasId(os, id)
    ensures var k := FirstIndex(os, id).value;
      Total(WithCouplingType(os, id, NoCoupling)) == Total(os) - Contribution(os[k])
  {
    var k := FirstIndex(os, id).value;
    TotalUpdate(os, k, os[k].(couplingType := NoCoupling));
  }

  /** Committing a step changes no regime and no current flow, so the total is kept. */
  lemma {:induction false} CommittedTotal(os: seq<Opening>)
    ensures Total(Committed(os)) == Total(os)
  {
    if os != [] {
      var n := |os|;
      assert Committed(os)[..n - 1] == Committed(os[..n - 1]);
      CommittedTotal(os[..n - 1]);
    }
  }
}
