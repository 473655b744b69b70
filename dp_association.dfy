/**
 * The per-record list of MGI_Association rows built from one input record
 * of the pre-processing step. Every insert stamps the list with the next
 * record number, so all rows of one input record share a record key.
 */
module DPAssociations {

  import opened Wrappers

  /** One MGI_Association row: the accession ID, its logical DB name, the target flag and the record key. */
  datatype AssocState = AssocState(accID: string, logicalDB: string, target: bool, recordKey: Option<int>)

  /** The states with their record keys set to recordKey, everything else kept. */
  function Stamp(states: seq<AssocState>, recordKey: int): (r: seq<AssocState>)
    ensures |r| == |states|
    ensures forall i | 0 <= i < |r| :: r[i] == states[i].(recordKey := Some(recordKey))
  {
    if states == [] then []
    else Stamp(states[..|states| - 1], recordKey) + [states[|states| - 1].(recordKey := Some(recordKey))]
  }

  class DPAssociation {
    var states: seq<AssocState>
    var recordNumber: int

    constructor ()
      ensures states == [] && recordNumber == 0
    {
      states := [];
      recordNumber := 0;
    }

    method AddState(state: AssocState)
      modifies this
      ensures states == old(states) + [state]
      ensures recordNumber == old(recordNumber)
    {
      states := states + [state];
    }

    /** Empties the list; the record number is kept, so keys keep increasing across records. */
    method Clear()
      modifies this
      ensures states == [] && recordNumber == old(recordNumber)
    {
      states := [];
    }

    /**
     * Takes the next record number, stamps it on every state and returns
     * the rows handed to the stream, one per state, in list order.
     */
    method Insert() returns (records: seq<AssocState>)
      modifies this
      ensures recordNumber == old(recordNumber) + 1
      ensures states == Stamp(old(states), recordNumber)
      ensures records == states
    {
      recordNumber := recordNumber + 1;
      records := [];
      for i := 0 to |states|
        invariant recordNumber == old(recordNumber) + 1 && |states| == |old(states)|
        invariant forall k | 0 <= k < i :: states[k] == old(states)[k].(recordKey := Some(recordNumber))
        invariant forall k | i <= k < |states| :: states[k] == old(states)[k]
        invariant records == states[..i]
      {
        var state := states[i].(recordKey := Some(recordNumber));
        states := states[i := state];
        records := records + [state];
      }
      assert states[..|states|] == states;
    }
  }
}
