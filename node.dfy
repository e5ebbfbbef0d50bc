/**
 * A drainage node as the coupling sees it: its hydraulic state, its coupling
 * output and its list of openings. The registry operations and the per-node
 * coupling step update the opening list in place, walking it from the head.
 */
module CouplingNode {
  import opened Openings
  import opened Regime
  import opened Flux
  import opened NodeStep

  class Node {
    var invertElev: real      // invert elevation
    var fullDepth: real       // distance from invert to the crest (ground)
    var newDepth: real        // current water depth in the node
    var overlandDepth: real   // water depth in the overland model
    var couplingArea: real    // coupled area in the overland model
    var couplingInflow: real  // output: net flow from the overland model
    var openings: seq<Opening>

    constructor (invertElev: real, fullDepth: real, newDepth: real,
                 overlandDepth: real, couplingArea: real)
      ensures this.invertElev == invertElev && this.fullDepth == fullDepth
      ensures this.newDepth == newDepth && this.overlandDepth == overlandDepth
      ensures this.couplingArea == couplingArea
      ensures couplingInflow == 0.0 && openings == []
    {
      this.invertElev := invertElev;
      this.fullDepth := fullDepth;
      this.newDepth := newDepth;
      this.overlandDepth := overlandDepth;
      this.couplingArea := couplingArea;
      couplingInflow := 0.0;
      openings := [];
    }

    /** The node's heads, from its own hydraulic state. */
    function CurrentHeads(): Heads
      reads this
    {
      NodeHeads(invertElev, fullDepth, newDepth, overlandDepth)
    }

    /** The node's hydraulic inputs, which the coupling only reads. */
    function Inputs(): (real, real, real, real, real)
      reads this
    {
      (invertElev, fullDepth, newDepth, overlandDepth, couplingArea)
    }

    // -------------------------------------------------------------------------
    // Opening registry

    /** Walks the list from the head to the first opening with the given id. */
    method Locate(id: int) returns (r: Option<nat>)
      ensures r == FirstIndex(openings, id)
    {
      var i := 0;
      while i < |openings|
        invariant 0 <= i <= |openings|
        invariant forall k :: 0 <= k < i ==> openings[k].id != id
      {
        if openings[i].id == id {
          return Some(i);
        }
        i := i + 1;
      }
      return None;
    }

    /** Creates or overwrites the opening with the given id. An unknown id is
      * prepended unless allocation fails (`allocFails` stands for the
      * allocator's answer); geometry is stored without validation. */
    method SetOpening(id: int, kind: int, area: real, length: real,
                      co: real, cfw: real, csw: real, allocFails: bool) returns (code: int)
      modifies this`openings
      ensures !HasId(old(openings), id) && allocFails ==>
                code == ErrMemory && openings == old(openings)
      ensures HasId(old(openings), id) || !allocFails ==>
                code == ErrNone && openings == Upsert(old(openings), id, kind, area, length, co, cfw, csw)
    {
      var at := Locate(id);
      var o := NewOpening(id, kind, area, length, co, cfw, csw);
      match at {
        case None =>
          if allocFails {
            return ErrMemory;
          }
          openings := [o] + openings;
        case Some(k) =>
          openings := openings[k := o];
      }
      return ErrNone;
    }

    /** Closes the first opening with the given id. */
    method CloseOpening(id: int) returns (code: int)
      modifies this`openings
      ensures code == (if HasId(old(openings), id) then ErrNone else ErrApiObjectIndex)
      ensures openings == WithCouplingType(old(openings), id, NoCoupling)
    {
      var at := Locate(id);
      if at.None? {
        return ErrApiObjectIndex;
      }
      var k := at.value;
      openings := openings[k := openings[k].(couplingType := NoCoupling)];
      return ErrNone;
    }

    /** Opens the first opening with the given id; it rests until the next step classifies it. */
    method OpenOpening(id: int) returns (code: int)
      modifies this`openings
      ensures code == (if HasId(old(openings), id) then ErrNone else ErrApiObjectIndex)
      ensures openings == WithCouplingType(old(openings), id, NoCouplingFlow)
    {
      var at := Locate(id);
      if at.None? {
        return ErrApiObjectIndex;
      }
      var k := at.value;
      openings := openings[k := openings[k].(couplingType := NoCouplingFlow)];
      return ErrNone;
    }

    /** Number of openings, closed ones included. */
    method CountOpenings() returns (n: nat)
      ensures n == |openings|
    {
      n := 0;
      var i := 0;
      while i < |openings|
        invariant 0 <= i <= |openings|
        invariant n == i
      {
        n := n + 1;
        i := i + 1;
      }
    }

    /** Unlinks the opening at position idx counted from the head (not by id).
      * Returns -1 for a negative position, 0 on an empty list, idx + 1 after
      * a removal and -2 for a position past the end. */
    method DeleteOpening(idx: int) returns (code: int)
      modifies this`openings
      ensures idx < 0 ==> code == -1 && openings == old(openings)
      ensures idx >= 0 && old(|openings|) == 0 ==> code == 0 && openings == old(openings)
      ensures 0 <= idx < old(|openings|) ==>
                code == idx + 1 && openings == RemoveAt(old(openings), idx)
      ensures 0 < old(|openings|) <= idx ==> code == -2 && openings == old(openings)
    {
      if idx < 0 {
        return -1;
      }
      if openings == [] {
        return 0;
      }
      if idx >= |openings| {
        return -2;
      }
      openings := RemoveAt(openings, idx);
      return idx + 1;
    }

    /** Removes every opening of the node. */
    method DeleteOpenings()
      modifies this`openings
      ensures openings == []
    {
      openings := [];
    }

    /** True when some opening is not closed. */
    method IsNodeCoupled() returns (coupled: bool)
      ensures coupled == Coupled(openings)
    {
      coupled := false;
      var i := 0;
      while i < |openings|
        invariant 0 <= i <= |openings|
        invariant forall k :: 0 <= k < i ==> openings[k].couplingType == NoCoupling
      {
        if openings[i].couplingType != NoCoupling {
          coupled := true;
          break;
        }
        i := i + 1;
      }
    }

    /** Commits the step: each opening's previous flow takes its current flow. */
    method SetOldState()
      modifies this`openings
      ensures openings == Committed(old(openings))
    {
      ghost var os0 := openings;
      var i := 0;
      while i < |openings|
        invariant 0 <= i <= |openings| == |os0|
        invariant forall k :: 0 <= k < i ==> openings[k] == os0[k].(oldInflow := os0[k].newInflow)
        invariant forall k :: i <= k < |openings| ==> openings[k] == os0[k]
      {
        openings := openings[i := openings[i].(oldInflow := openings[i].newInflow)];
        i := i + 1;
      }
    }

    // -------------------------------------------------------------------------
    // Coupling step

    /** Multiplies the current flow of every opening, closed ones included. */
    method AdjustInflows(factor: real)
      modifies this`openings
      ensures openings == Scaled(old(openings), factor)
    {
      ghost var os0 := openings;
      var i := 0;
      while i < |openings|
        invariant 0 <= i <= |openings| == |os0|
        invariant forall k :: 0 <= k < i ==> openings[k] == os0[k].(newInflow := os0[k].newInflow * factor)
        invariant forall k :: i <= k < |openings| ==> openings[k] == os0[k]
      {
        openings := openings[i := openings[i].(newInflow := openings[i].newInflow * factor)];
        i := i + 1;
      }
      assert forall k :: 0 <= k < |openings| ==> openings[k] == Scaled(os0, factor)[k];
    }

    /** Sum of the current flows of the openings that are not closed. */
    method SumInflows() returns (total: real)
      ensures total == Total(openings)
    {
      total := 0.0;
      var i := 0;
      while i < |openings|
        invariant 0 <= i <= |openings|
        invariant total == Total(openings[..i])
      {
        assert openings[..i + 1][..i] == openings[..i];
        if openings[i].couplingType != NoCoupling {
          total := total + openings[i].newInflow;
        }
        i := i + 1;
      }
      assert openings[..i] == openings;
    }

    /** One coupling step of the node, as the source has it: every open
      * opening is classified, its flow computed and guarded against a
      * reversal, and the flows summed; a positive total beyond the overland
      * limit scales every opening. The total returned is the one before the
      * clamp: the re-summation after the clamp starts where the first walk
      * ended, past the last opening, and adds nothing. */
    method FindNodeInflow(tStep: real, invertElev: real, fullDepth: real, newDepth: real,
                          overlandDepth: real, couplingArea: real, m: MathLib) returns (total: real)
      requires tStep != 0.0 && Classifiable(openings)
      modifies this`openings
      ensures var stepped := StepAll(old(openings), NodeHeads(invertElev, fullDepth, newDepth, overlandDepth), m);
        && total == Total(stepped)
        && openings == Clamped(stepped, overlandDepth, couplingArea, tStep)
    {
      var h := NodeHeads(invertElev, fullDepth, newDepth, overlandDepth);
      ghost var os0 := openings;
      total := 0.0;
      var i := 0;
      while i < |openings|
        invariant 0 <= i <= |openings| == |os0|
        invariant forall k :: 0 <= k < i ==> openings[k] == StepOpening(os0[k], h, m)
        invariant forall k :: i <= k < |openings| ==> openings[k] == os0[k]
        invariant total == Total(openings[..i])
      {
        assert openings[..i + 1][..i] == openings[..i];
        var o := openings[i];
        if o.couplingType != NoCoupling {
          var ct := FindCouplingType(h.crestElev, h.nodeHead, h.overlandHead, o.area, o.length);
          var q := FindCouplingInflow(ct, h.crestElev, h.nodeHead, h.overlandHead, o.coeffOrifice,
                                      o.coeffFreeWeir, o.coeffSubWeir, o.area, o.length, m);
          o := o.(couplingType := ct, newInflow := q);
          // prevent oscillations
          var inflowToOutflow := o.oldInflow > 0.0 && o.newInflow < 0.0;
          var outflowToInflow := o.oldInflow < 0.0 && o.newInflow > 0.0;
          if inflowToOutflow || outflowToInflow {
            o := o.(couplingType := NoCouplingFlow, newInflow := 0.0);
          }
          openings := openings[i := o];
          total := total + o.newInflow;
        }
        i := i + 1;
      }
      assert openings[..i] == openings;
      assert openings == StepAll(os0, h, m);
      if total > 0.0 {
        var rawMaxInflow := (overlandDepth * couplingArea) / tStep;
        var maxInflow := Min(rawMaxInflow, total);
        var inflowAdjustingFactor := maxInflow / total;
        AdjustInflows(inflowAdjustingFactor);
      }
    }

    /** The node step with the evidently intended return value: after the
      * clamp the total is summed afresh over the scaled openings, from the
      * head and skipping closed ones, so it equals the capped total. */
    method FindNodeInflowResummed(tStep: real, invertElev: real, fullDepth: real, newDepth: real,
                                  overlandDepth: real, couplingArea: real, m: MathLib) returns (total: real)
      requires tStep != 0.0 && Classifiable(openings)
      modifies this`openings
      ensures var stepped := StepAll(old(openings), NodeHeads(invertElev, fullDepth, newDepth, overlandDepth), m);
        && openings == Clamped(stepped, overlandDepth, couplingArea, tStep)
        && total == Total(openings)
        && (Total(stepped) <= 0.0 ==> total == Total(stepped))
        && (Total(stepped) > 0.0 ==>
              total == Min(RawMaxInflow(overlandDepth, couplingArea, tStep), Total(stepped)))
    {
      ghost var os0 := openings;
      total := FindNodeInflow(tStep, invertElev, fullDepth, newDepth, overlandDepth, couplingArea, m);
      ghost var stepped := StepAll(os0, NodeHeads(invertElev, fullDepth, newDepth, overlandDepth), m);
      if total > 0.0 {
        ClampedScales(stepped, overlandDepth, couplingArea, tStep);
        total := SumInflows();
      }
    }
  }
}
