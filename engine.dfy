/**
 * The coupling driver: once per time step it visits every node of the
 * drainage network and, for each node with at least one open opening, runs
 * the node step and stores the node's coupling inflow.
 */
module Engine {
  import opened Openings
  import opened Flux
  import opened NodeStep
  import opened CouplingNode

  /** What the driver leaves in a node whose openings and coupling inflow
    * were os0 and inflow0: an uncoupled node keeps both; a coupled node gets
    * the stepped and clamped openings, and as coupling inflow the value its
    * step returns, which is the total before the clamp for the step as
    * written (resummed false) and the total of the clamped openings for the
    * corrected step (resummed true). */
  ghost predicate StepApplied(n: Node, os0: seq<Opening>, inflow0: real, tStep: real, m: MathLib,
                              resummed: bool)
    reads n
    requires tStep != 0.0 && Classifiable(os0)
  {
    if Coupled(os0) then
      var stepped := StepAll(os0, n.CurrentHeads(), m);
      && n.openings == Clamped(stepped, n.overlandDepth, n.couplingArea, tStep)
      && n.couplingInflow == (if resummed then Total(n.openings) else Total(stepped))
    else
      n.openings == os0 && n.couplingInflow == inflow0
  }

  /** The node table of a simulation. */
  class Network {
    var nodes: seq<Node>

    /** No node object appears twice in the table. */
    ghost predicate Valid()
      reads this
    {
      forall i, j :: 0 <= i < j < |nodes| ==> nodes[i] != nodes[j]
    }

    constructor (nodes: seq<Node>)
      requires forall i, j :: 0 <= i < j < |nodes| ==> nodes[i] != nodes[j]
      ensures Valid() && this.nodes == nodes
    {
      this.nodes := nodes;
    }

    /** The body of the driver for one node: skip it when it is not coupled,
      * otherwise store what its step returns as its coupling inflow. */
    static method CoupleNode(node: Node, tStep: real, m: MathLib)
      requires tStep != 0.0 && Classifiable(node.openings)
      modifies node`openings, node`couplingInflow
      ensures StepApplied(node, old(node.openings), old(node.couplingInflow), tStep, m, false)
    {
      var coupled := node.IsNodeCoupled();
      if coupled {
        node.couplingInflow := node.FindNodeInflow(tStep, node.invertElev, node.fullDepth,
                                                   node.newDepth, node.overlandDepth,
                                                   node.couplingArea, m);
      }
    }

    /** The same, with the corrected node step. */
    static method CoupleNodeResummed(node: Node, tStep: real, m: MathLib)
      requires tStep != 0.0 && Classifiable(node.openings)
      modifies node`openings, node`couplingInflow
      ensures StepApplied(node, old(node.openings), old(node.couplingInflow), tStep, m, true)
    {
      var coupled := node.IsNodeCoupled();
      if coupled {
        node.couplingInflow := node.FindNodeInflowResummed(tStep, node.invertElev, node.fullDepth,
                                                           node.newDepth, node.overlandDepth,
                                                           node.couplingArea, m);
      }
    }

    /** Computes the coupling flow of every coupled node as the source does:
      * each stores the total its step returns, before the clamp; see
      * StepApplied. No hydraulic input changes. */
    method Execute(tStep: real, m: MathLib)
      requires Valid() && tStep != 0.0
      requires forall j :: 0 <= j < |nodes| ==> Classifiable(nodes[j].openings)
      modifies nodes
      ensures forall j :: 0 <= j < |nodes| ==> nodes[j].Inputs() == old(nodes[j].Inputs())
      ensures forall j :: 0 <= j < |nodes| ==>
                StepApplied(nodes[j], old(nodes[j].openings), old(nodes[j].couplingInflow), tStep, m, false)
    {
      var j := 0;
      while j < |nodes|
        invariant 0 <= j <= |nodes|
        invariant forall k :: 0 <= k < |nodes| ==> nodes[k].Inputs() == old(nodes[k].Inputs())
        invariant forall k :: j <= k < |nodes| ==>
                    nodes[k].openings == old(nodes[k].openings) &&
                    nodes[k].couplingInflow == old(nodes[k].couplingInflow)
        invariant forall k :: 0 <= k < j ==>
                    StepApplied(nodes[k], old(nodes[k].openings), old(nodes[k].couplingInflow), tStep, m, false)
      {
        CoupleNode(nodes[j], tStep, m);
        j := j + 1;
      }
    }

    /** The driver with the corrected node step: every coupled node stores
      * the total of its clamped openings. No hydraulic input changes. */
    method ExecuteResummed(tStep: real, m: MathLib)
      requires Valid() && tStep != 0.0
      requires forall j :: 0 <= j < |nodes| ==> Classifiable(nodes[j].openings)
      modifies nodes
      ensures forall j :: 0 <= j < |nodes| ==> nodes[j].Inputs() == old(nodes[j].Inputs())
      ensures forall j :: 0 <= j < |nodes| ==>
                StepApplied(nodes[j], old(nodes[j].openings), old(nodes[j].couplingInflow), tStep, m, true)
    {
      var j := 0;
      while j < |nodes|
        invariant 0 <= j <= |nodes|
        invariant forall k :: 0 <= k < |nodes| ==> nodes[k].Inputs() == old(nodes[k].Inputs())
        invariant forall k :: j <= k < |nodes| ==>
                    nodes[k].openings == old(nodes[k].openings) &&
                    nodes[k].couplingInflow == old(nodes[k].couplingInflow)
        invariant forall k :: 0 <= k < j ==>
                    StepApplied(nodes[k], old(nodes[k].openings), old(nodes[k].couplingInflow), tStep, m, true)
      {
        CoupleNodeResummed(nodes[j], tStep, m);
        j := j + 1;
      }
    }
  }
}
