# Overland coupling of drainage nodes

A Dafny model of the overland-coupling module of a stormwater drainage
simulator (`src/coupling.c`). Each drainage node owns a list of cover
openings through which water passes between the pipe network and an
overland (surface) flow model. Once per time step the module

* classifies every open opening into a hydraulic regime (no flow, orifice,
  free weir, submerged weir) from the crest elevation, the node head and the
  overland head;
* computes the opening's flow from the regime's formula and directs it:
  positive into the node when the overland head is higher, negative otherwise;
* damps oscillations: a flow that reverses the previous step's flow is
  replaced by a resting step (regime "no coupling flow", flow 0);
* sums the flows of the open openings and, when the net inflow is more than
  the overland cell holds for the step (overland depth x coupled area / time
  step), scales every opening's flow by one factor;
* stores the node's coupling inflow, for coupled nodes only.

A registry upserts, closes, opens, counts and deletes openings and commits
the step (previous flow := current flow).

Files and modules:

* `openings.dfy`, module `Openings`: the `Opening` record, the regime enum
  (`NoCoupling` is a closed opening), error codes, and the list operations of
  the registry as functions with their lemmas.
* `regime.dfy`, module `Regime`: the classifier.
* `flux.dfy`, module `Flux`: the flow magnitudes and the signed flow.
* `node_step.dfy`, module `NodeStep`: the per-opening step with the
  oscillation guard, the node total, the clamp, and their lemmas.
* `node.dfy`, module `CouplingNode`: class `Node`, holding the node's
  hydraulic state, its coupling inflow and its opening list (`seq<Opening>`,
  head of the linked list first); the registry operations and the node step
  are methods with loops that update the list in place.
* `engine.dfy`, module `Engine`: class `Network`, the node table, the
  driver `Execute` as written and `ExecuteResummed`, the driver over the
  corrected node step.

The model follows the source as written, in particular:

* the upsert stores any area and width, with no geometry validation;
* deletion is by position from the head, not by id, with the return codes
  -1, 0, idx+1 and -2;
* a node head exactly at the crest gives "no coupling flow" (strict `<` in the
  free-weir test), not a free weir;
* the clamp scales every opening of the node, closed ones included;
* the node step returns the total before the clamp, and the driver stores
  that value as the coupling inflow (see Findings).

The flow formulas use a square root and a power; these are parameters of the
model (`Flux.MathLib`, two functions supplied by the caller), so every
formula keeps its shape without floating-point arithmetic. Gravity is the
constant 32.2 (ft/s2) of the US unit system. Divisions by the weir width and
by the time step are preconditions (width and step are nonzero).

## Model

| member | source | states |
|---|---|---|
| `Openings.FirstIndex` | src/coupling.c:366-373 | the lookup walk finds the first opening with the id: its position holds the id and no earlier one does; none exactly when no opening has the id |
| `Openings.RemoveAt` | src/coupling.c:449-463 | unlinking position k leaves one opening fewer, the ones before k in place, the ones after k shifted down by one, and the same multiset minus the removed record |
| `Openings.UpsertCount` | src/coupling.c:366-386 | an upsert of an unknown id adds one opening; of a known id leaves the count as it was |
| `Openings.UpsertStores` | src/coupling.c:388-399 | after an upsert the first opening with the id has exactly the given kind, geometry and coefficients, regime NoCouplingFlow (so a closed opening is reopened) and both flows 0; a new id sits at the head, a known id stays at its first match |
| `Openings.UpsertKeepsOthers` | src/coupling.c:376-399 | an upsert leaves every opening with another id unchanged and in order, and the id set becomes the old one plus the id |
| `Openings.UpsertKeepsUnique` | src/coupling.c:366-386 | distinct ids stay distinct after an upsert |
| `Openings.WithCouplingTypeEffect` | src/coupling.c:296-313 | close/open changes only the regime of the first opening with the id and leaves every other record, later ones with the same id included, unchanged; count and ids are kept, an absent id leaves the list unchanged |
| `Openings.RemoveAtIds` | src/coupling.c:456-463 | with distinct ids, unlinking one opening removes exactly its id and keeps the ids distinct |
| `Openings.CommittedEffect` | src/coupling.c:248-254 | committing sets each previous flow to the current flow, changes no other field, and committing again changes nothing |
| `Regime.FindCouplingType` | src/coupling.c:28-64 | never NoCoupling; equal heads give NoCouplingFlow; on overflow orifice exactly when the node is above the crest, else NoCouplingFlow; on drainage into a node above the crest orifice exactly when overland head - crest >= area/width, else submerged weir; node below crest below overland head gives free weir; node at the crest gives NoCouplingFlow; on drainage, an overland head not above the crest gives NoCouplingFlow; free and submerged weir each characterised in both directions |
| `Regime.OrificeRegion` | src/coupling.c:49-53 | the orifice regime holds exactly when the node is above the crest and either overflows or is drained by a surface at least one weir ratio deep |
| `Flux.Magnitude` | src/coupling.c:90-110 | the magnitude is 0 for a closed or resting regime |
| `Flux.FindCouplingInflow` | src/coupling.c:111-121 | the result's absolute value is the regime magnitude's; it is 0 for a closed or resting regime; positive only when the overland head is above the node head, negative only when it is not, and never of the wrong sign |
| `Regime.ShiftInvariant` | src/coupling.c:28-64 | raising crest, node head and overland head by the same amount keeps the regime: only elevation differences matter |
| `NodeStep.RegimeFromDepths` | src/coupling.c:166-169 | with the heads built from invert and depths, the node is above the crest exactly when its depth exceeds the full depth, the surface is above the node exactly when full depth + overland depth exceeds the node depth, the surface depth above the crest is the overland depth, and the regime does not depend on the invert elevation |
| `NodeStep.StepOpening` | src/coupling.c:175-199 | a step changes only regime and current flow; a closed opening stays closed and an open one open; an open opening's new flow never has the opposite sign of its previous flow, and points into the node only when the overland head is higher |
| `NodeStep.StepOpeningGuard` | src/coupling.c:189-196 | with a strict sign reversal against the previous flow the opening ends the step resting with flow 0; otherwise it keeps the classified regime and its flow |
| `NodeStep.StepAllEffect` | src/coupling.c:175-200 | the step leaves closed openings untouched, changes only regime and current flow of the others, and keeps ids, classifiability and the coupled status |
| `NodeStep.UncoupledTotal` | src/coupling.c:177-182 | closed openings add nothing: a node without open openings totals 0 |
| `NodeStep.TotalScaled` | src/coupling.c:134-138 | scaling every flow by a factor scales the node total by the same factor |
| `NodeStep.AdjustingFactor` | src/coupling.c:204-206 | factor x total = min(raw maximum, total); the factor is at most 1, and is 1 exactly when the raw maximum is not below the total |
| `NodeStep.AdjustingFactorRange` | src/coupling.c:204-206 | with non-negative overland depth and area and a positive step the factor lies in [0,1] |
| `NodeStep.ClampedFields` | src/coupling.c:202-207 | the clamp changes only current flows, and changes nothing when the total is not positive |
| `NodeStep.ClampedScales` | src/coupling.c:202-207 | a positive total multiplies every opening's flow by the one factor; the summed openings then add up to min(raw maximum, total); nothing changes when the raw maximum is not exceeded |
| `NodeStep.RawTotalIgnoresClamp` | src/coupling.c:209-216 | whenever the clamp bites, the flows stored in the openings add up to less than the raw total the step returns |
| `NodeStep.RawTotalExample` | src/coupling.c:209-216 | two openings draining one unit each against a cell that gives up one unit: raw total 2, stored flows total 1 |
| `NodeStep.CloseRemovesContribution` | src/coupling.c:178-182 | closing an opening takes exactly its flow out of the node total |
| `NodeStep.CommittedTotal` | src/coupling.c:250-254 | committing the step keeps the node total |
| `CouplingNode.Node.Locate` | src/coupling.c:297-303 | the walk from the head returns the position of the first opening with the id, or none |
| `CouplingNode.Node.SetOpening` | src/coupling.c:350-401 | an unknown id with a failing allocation returns the memory error and changes nothing; otherwise returns 0 and the list becomes the upsert of the old list |
| `CouplingNode.Node.CloseOpening` | src/coupling.c:285-315 | returns 0 and closes the first opening with the id, or returns the object-index error and changes nothing |
| `CouplingNode.Node.OpenOpening` | src/coupling.c:319-346 | returns 0 and sets the first opening with the id to NoCouplingFlow, or returns the object-index error and changes nothing |
| `CouplingNode.Node.CountOpenings` | src/coupling.c:405-422 | the count is the number of openings, closed ones included |
| `CouplingNode.Node.DeleteOpening` | src/coupling.c:426-465 | returns -1 for a negative position, 0 on an empty list, idx+1 after unlinking position idx when it exists, and -2 past the end; nothing changes except in the third case |
| `CouplingNode.Node.DeleteOpenings` | src/coupling.c:469-486 | the node has no openings left |
| `CouplingNode.Node.IsNodeCoupled` | src/coupling.c:259-281 | true exactly when some opening is not closed |
| `CouplingNode.Node.SetOldState` | src/coupling.c:239-255 | the list becomes the committed list: previous flow := current flow, nothing else changes |
| `CouplingNode.Node.AdjustInflows` | src/coupling.c:125-139 | every opening's current flow, closed ones included, is multiplied by the factor |
| `CouplingNode.Node.SumInflows` | src/coupling.c:197-198 | the sum equals the node total of the open openings |
| `CouplingNode.Node.FindNodeInflow` | src/coupling.c:143-217 | the openings become the clamped result of stepping every opening; the returned value is the total before the clamp |
| `CouplingNode.Node.FindNodeInflowResummed` | src/coupling.c:201-216 | the same step, returning the total of the clamped openings, which is min(raw maximum, total) for a positive total and the total otherwise |
| `Engine.Network.CoupleNode` | src/coupling.c:232-234 | an uncoupled node keeps openings and coupling inflow; a coupled node gets the stepped, clamped openings and, as coupling inflow, the total of the stepped openings before the clamp, which is what its step returns |
| `Engine.Network.Execute` | src/coupling.c:221-235 | uncoupled nodes keep openings and coupling inflow; every coupled node gets the stepped, clamped openings and the unclamped total as coupling inflow; no hydraulic input changes |
| `Engine.Network.CoupleNodeResummed` | src/coupling.c:232-234 | the driver body over the corrected step: a coupled node stores the total of its clamped openings |
| `Engine.Network.ExecuteResummed` | src/coupling.c:221-235 | the driver over the corrected step: every coupled node gets the stepped, clamped openings and their total as coupling inflow; uncoupled nodes and hydraulic inputs are unchanged |

## Findings

| source | as written | input that shows it | evidently intended | confidence | as-written member | corrected member |
|---|---|---|---|---|---|---|
| src/coupling.c:209-216 | the re-summation after the clamp continues from the list cursor that the first loop left past the last opening, so it never runs, and the total keeps its unclamped value | two openings of a node draining 1 each while overland depth x coupled area / time step = 1: returned 2, stored flows total 1 (`NodeStep.RawTotalExample`, in general `NodeStep.RawTotalIgnoresClamp`) | the comment at line 209 asks for the adjusted inflows: restart at the head and sum the scaled flows of the open openings, which gives min(raw maximum, total) | not executed | `CouplingNode.Node.FindNodeInflow` | `CouplingNode.Node.FindNodeInflowResummed` |

`Engine.Network.Execute` is the driver as written: it stores the raw total,
which exceeds the flows left in the openings whenever the clamp bites.
`Engine.Network.ExecuteResummed` is the driver over the corrected step and
stores the clamped total.

## Left out

- Floating-point arithmetic: `sqrt` and `pow` are caller-supplied functions, `fabs` is real absolute value and the `-0.0` of a zero flow is 0; no numeric flow value is computed.
- Flux.Magnitude: states only the zero cases, because the three formulas stand on the abstract square root and power.
- The definition of GRAVITY and the error-code values live in `headers.h`, which is not part of this model; the values used (32.2, 101, 505) are those of the test fixture.
- Memory management: allocation and release of opening records are list operations on a sequence; an allocation failure is the `allocFails` parameter of `SetOpening`.
- The predecessor walk of `coupling_deleteOpening` and the release loop of `coupling_deleteOpenings` become a direct removal and an assignment of the empty list, since a sequence needs no relinking.
- The dead re-summation loop of `coupling_findNodeInflow` is not written out as a loop; its effect (none) is what `CouplingNode.Node.FindNodeInflow` returns.
- Division by zero: a zero weir width or time step is excluded by preconditions (nonzero, which is exactly what the divisions need) instead of modelling infinities and NaN; the source checks neither.
- The toolkit API layer that forwards calls into this module (node-index checks, simulation lifecycle errors, parameter getters) and the rest of the simulator (pipe-network solver, overland solver, time stepping).
- The global node table is the explicit `Engine.Network` object; a node's index becomes the node object itself.
