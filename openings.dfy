/**
 * Opening records of a drainage node and the pure list operations that the
 * node's opening registry performs on them. A node's openings are held as a
 * sequence whose first element is the head of the source's linked list.
 */
module Openings {

  datatype Option<T> = None | Some(value: T)

  /** Coupling regime of an opening. NoCoupling marks a closed opening. */
  datatype CouplingType =
    | NoCoupling
    | NoCouplingFlow
    | OrificeCoupling
    | FreeWeirCoupling
    | SubmergedWeirCoupling

  /** One cover opening: geometry, coefficients, regime and the two flows. */
  datatype Opening = Opening(
    id: int,               // caller-assigned opening number
    kind: int,             // shape tag (grate, ...), informational only
    couplingType: CouplingType,
    area: real,            // opening area
    length: real,          // weir width (about the circumference)
    coeffOrifice: real,
    coeffFreeWeir: real,
    coeffSubWeir: real,
    oldInflow: real,       // flow of the previous time step
    newInflow: real        // flow of the current time step, positive into the node
  )

  // Error codes returned by the registry.
  const ErrNone: int := 0
  const ErrMemory: int := 101
  const ErrApiObjectIndex: int := 505

  /** The record that an upsert stores: given geometry, regime reset, flows zeroed. */
  function NewOpening(id: int, kind: int, area: real, length: real,
                      co: real, cfw: real, csw: real): Opening
  {
    Opening(id, kind, NoCouplingFlow, area, length, co, cfw, csw, 0.0, 0.0)
  }

  predicate HasId(os: seq<Opening>, id: int)
  {
    exists k :: 0 <= k < |os| && os[k].id == id
  }

  function Ids(os: seq<Opening>): set<int>
  {
    set k | 0 <= k < |os| :: os[k].id
  }

  predicate UniqueIds(os: seq<Opening>)
  {
    forall i, j :: 0 <= i < j < |os| ==> os[i].id != os[j].id
  }

  /** A node is coupled when at least one of its openings is not closed. */
  predicate Coupled(os: seq<Opening>)
  {
    exists k :: 0 <= k < |os| && os[k].couplingType != NoCoupling
  }

  /** The openings whose id is not `id`, in list order. */
  function Without(os: seq<Opening>, id: int): (r: seq<Opening>)
    ensures forall o :: o in r ==> o in os && o.id != id
  {
    if os == [] then []
    else (if os[0].id == id then [] else [os[0]]) + Without(os[1..], id)
  }

  /** Position of the first opening with the given id, walking from the head. */
  function FirstIndex(os: seq<Opening>, id: int): (r: Option<nat>)
    ensures r.Some? ==> r.value < |os| && os[r.value].id == id
    ensures r.Some? ==> forall k :: 0 <= k < r.value ==> os[k].id != id
    ensures r.None? <==> !HasId(os, id)
  {
    if os == [] then None
    else if os[0].id == id then Some(0)
    else match FirstIndex(os[1..], id)
      case None => None
      case Some(k) => Some(k + 1)
  }

  /** The list after an upsert: a known id is overwritten at its first match,
    * an unknown id gets a new record at the head. */
  function Upsert(os: seq<Opening>, id: int, kind: int, area: real, length: real,
                  co: real, cfw: real, csw: real): seq<Opening>
  {
    var o := NewOpening(id, kind, area, length, co, cfw, csw);
    match FirstIndex(os, id)
    case None => [o] + os
    case Some(k) => os[k := o]
  }

  /** The list after setting the regime of the first opening with the given id. */
  function WithCouplingType(os: seq<Opening>, id: int, ct: CouplingType): seq<Opening>
  {
    match FirstIndex(os, id)
    case None => os
    case Some(k) => os[k := os[k].(couplingType := ct)]
  }

  /** The list with the opening at position k unlinked. */
  function RemoveAt(os: seq<Opening>, k: nat): (r: seq<Opening>)
    requires k < |os|
    ensures |r| == |os| - 1
    ensures forall j :: 0 <= j < k ==> r[j] == os[j]
    ensures forall j :: k <= j < |r| ==> r[j] == os[j + 1]
    ensures multiset(r) + multiset{os[k]} == multiset(os)
  {
    assert os == os[..k] + [os[k]] + os[k + 1..];
    os[..k] + os[k + 1..]
  }

  /** The list after committing a time step: every previous flow takes the current flow. */
  function Committed(os: seq<Opening>): (r: seq<Opening>)
  {
    seq(|os|, k requires 0 <= k < |os| => os[k].(oldInflow := os[k].newInflow))
  }

  // ---------------------------------------------------------------------------
  // Lemmas about the registry operations

  lemma {:induction false} WithoutPrepend(o: Opening, os: seq<Opening>)
    ensures Without([o] + os, o.id) == Without(os, o.id)
  {
    assert ([o] + os)[1..] == os;
  }

  lemma {:induction false} WithoutUpdate(os: seq<Opening>, k: nat, o: Opening)
    requires k < |os| && os[k].id == o.id
    ensures Without(os[k := o], o.id) == Without(os, o.id)
  {
    if k > 0 {
      assert os[k := o][1..] == os[1..][k - 1 := o];
      WithoutUpdate(os[1..], k - 1, o);
    }
  }

  /** An upsert of an unknown id adds one record; of a known id, none. */
  lemma UpsertCount(os: seq<Opening>, id: int, kind: int, area: real, length: real,
                    co: real, cfw: real, csw: real)
    ensures HasId(os, id) ==> |Upsert(os, id, kind, area, length, co, cfw, csw)| == |os|
    ensures !HasId(os, id) ==> |Upsert(os, id, kind, area, length, co, cfw, csw)| == |os| + 1
  {
  }

  /** After an upsert, the first record with that id carries exactly the given
    * geometry and coefficients, the regime NoCouplingFlow and zero flows. */
  lemma UpsertStores(os: seq<Opening>, id: int, kind: int, area: real, length: real,
                     co: real, cfw: real, csw: real)
    ensures var r := Upsert(os, id, kind, area, length, co, cfw, csw);
      && FirstIndex(r, id).Some?
      && r[FirstIndex(r, id).value] == Opening(id, kind, NoCouplingFlow, area, length, co, cfw, csw, 0.0, 0.0)
      && (!HasId(os, id) ==> FirstIndex(r, id) == Some(0))
      && (HasId(os, id) ==> FirstIndex(r, id) == FirstIndex(os, id))
  {
  }

  /** An upsert changes no record whose id differs, and keeps their order. */
  lemma UpsertKeepsOthers(os: seq<Opening>, id: int, kind: int, area: real, length: real,
                          co: real, cfw: real, csw: real)
    ensures Without(Upsert(os, id, kind, area, length, co, cfw, csw), id) == Without(os, id)
    ensures Ids(Upsert(os, id, kind, area, length, co, cfw, csw)) == Ids(os) + {id}
  {
    var o := NewOpening(id, kind, area, length, co, cfw, csw);
    var r := Upsert(os, id, kind, area, length, co, cfw, csw);
    match FirstIndex(os, id)
    case None =>
      WithoutPrepend(o, os);
      assert forall j :: 0 <= j < |os| ==> r[j + 1] == os[j];
      assert forall x :: x in Ids(r) ==> x in Ids(os) + {id};
      assert Ids(r) == Ids(os) + {id};
    case Some(k) =>
      WithoutUpdate(os, k, o);
      assert Ids(r) == Ids(os) + {id} by {
        forall x | x in Ids(os) + {id} ensures x in Ids(r) {
          if x == id {
            assert r[k].id == id;
          } else {
            var j :| 0 <= j < |os| && os[j].id == x;
            assert r[j] == os[j];
          }
        }
      }
  }

  /** Upsert keeps the ids of a node distinct. */
  lemma UpsertKeepsUnique(os: seq<Opening>, id: int, kind: int, area: real, length: real,
                          co: real, cfw: real, csw: real)
    requires UniqueIds(os)
    ensures UniqueIds(Upsert(os, id, kind, area, length, co, cfw, csw))
  {
  }

  /** Closing or opening changes only the regime of the first match, and no
    * other record, not even a later one with the same id; an absent id
    * leaves the list as it was. */
  lemma WithCouplingTypeEffect(os: seq<Opening>, id: int, ct: CouplingType)
    ensures var r := WithCouplingType(os, id, ct);
      && |r| == |os|
      && Ids(r) == Ids(os)
      && Without(r, id) == Without(os, id)
      && (!HasId(os, id) ==> r == os)
      && (HasId(os, id) ==>
            var k := FirstIndex(os, id).value;
            && r[k] == os[k].(couplingType := ct)
            && (forall j :: 0 <= j < |os| && j != k ==> r[j] == os[j])
            && FirstIndex(r, id) == Some(k))
  {
    match FirstIndex(os, id)
    case None =>
    case Some(k) =>
      var o := os[k].(couplingType := ct);
      var r := os[k := o];
      WithoutUpdate(os, k, o);
      assert Ids(r) == Ids(os) by {
        forall x | x in Ids(os) ensures x in Ids(r) {
          var j :| 0 <= j < |os| && os[j].id == x;
          assert r[j].id == x;
        }
      }
  }

  /** Unlinking one opening of a list with distinct ids removes exactly its id. */
  lemma RemoveAtIds(os: seq<Opening>, k: nat)
    requires k < |os| && UniqueIds(os)
    ensures UniqueIds(RemoveAt(os, k))
    ensures Ids(RemoveAt(os, k)) == Ids(os) - {os[k].id}
  {
    var r := RemoveAt(os, k);
    forall i, j | 0 <= i < j < |r| ensures r[i].id != r[j].id {
      var i' := if i < k then i else i + 1;
      var j' := if j < k then j else j + 1;
      assert r[i] == os[i'] && r[j] == os[j'];
    }
    forall x | x in Ids(os) - {os[k].id} ensures x in Ids(r) {
      var j :| 0 <= j < |os| && os[j].id == x;
      if j < k { assert r[j] == os[j]; } else { assert r[j - 1] == os[j]; }
    }
  }

  /** Committing a step copies each current flow into the previous flow and
    * leaves every other field of every record as it was. */
  lemma CommittedEffect(os: seq<Opening>)
    ensures var r := Committed(os);
      && |r| == |os|
      && (forall k :: 0 <= k < |os| ==> r[k].oldInflow == os[k].newInflow)
      && (forall k :: 0 <= k < |os| ==> r[k].(oldInflow := os[k].oldInflow) == os[k])
      && Committed(r) == r
  {
  }
}
