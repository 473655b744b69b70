/**
 * The container the processor consumes: one target accession ID/logical DB
 * and the pairs to associate with it, held as five parallel vectors.
 */
module MGIAssociations {

  import opened Wrappers

  /**
   * The contents of the five vectors, as the getters return them:
   * accession IDs, logical DB keys, target flags, and the MGI type and
   * object each row already has in MGI (None where it has none).
   */
  datatype Unit = Unit(accIDs: seq<string>, logicalDBKeys: seq<int>, targets: seq<bool>,
                       mgiTypeKeys: seq<Option<int>>, objectKeys: seq<Option<int>>)
  {
    /** All five vectors have one entry per row. */
    predicate Aligned()
    {
      |logicalDBKeys| == |accIDs| && |targets| == |accIDs|
      && |mgiTypeKeys| == |accIDs| && |objectKeys| == |accIDs|
    }
  }

  class MGIAssociation {
    /** The MGI type (name and key) the target should resolve to; fixed at construction. */
    const targetType: string
    const targetTypeKey: int

    var accIDs: seq<string>
    var logicalDBKeys: seq<int>
    var targets: seq<bool>
    var mgiTypeKeys: seq<Option<int>>
    var objectKeys: seq<Option<int>>

    /** The five vectors together. */
    ghost function Vectors(): Unit
      reads this
    {
      Unit(accIDs, logicalDBKeys, targets, mgiTypeKeys, objectKeys)
    }

    /**
     * The configured target type and the key the MGI type lookup found for
     * it are parameters here.
     */
    constructor (targetType: string, targetTypeKey: int)
      ensures this.targetType == targetType && this.targetTypeKey == targetTypeKey
      ensures Vectors() == Unit([], [], [], [], [])
    {
      this.targetType := targetType;
      this.targetTypeKey := targetTypeKey;
      accIDs, logicalDBKeys, targets, mgiTypeKeys, objectKeys := [], [], [], [], [];
    }

    method GetTargetType() returns (t: string)
      ensures t == targetType
    {
      t := targetType;
    }

    method GetTargetTypeKey() returns (k: int)
      ensures k == targetTypeKey
    {
      k := targetTypeKey;
    }

    method AddAccID(accID: string)
      modifies this
      ensures accIDs == old(accIDs) + [accID]
      ensures logicalDBKeys == old(logicalDBKeys) && targets == old(targets)
      ensures mgiTypeKeys == old(mgiTypeKeys) && objectKeys == old(objectKeys)
    {
      accIDs := accIDs + [accID];
    }

    method GetAccIDs() returns (r: seq<string>)
      ensures r == accIDs
    {
      r := accIDs;
    }

    method AddLogicalDBKey(logicalDBKey: int)
      modifies this
      ensures logicalDBKeys == old(logicalDBKeys) + [logicalDBKey]
      ensures accIDs == old(accIDs) && targets == old(targets)
      ensures mgiTypeKeys == old(mgiTypeKeys) && objectKeys == old(objectKeys)
    {
      logicalDBKeys := logicalDBKeys + [logicalDBKey];
    }

    method GetLogicalDBKeys() returns (r: seq<int>)
      ensures r == logicalDBKeys
    {
      r := logicalDBKeys;
    }

    method AddTarget(target: bool)
      modifies this
      ensures targets == old(targets) + [target]
      ensures accIDs == old(accIDs) && logicalDBKeys == old(logicalDBKeys)
      ensures mgiTypeKeys == old(mgiTypeKeys) && objectKeys == old(objectKeys)
    {
      targets := targets + [target];
    }

    method GetTargets() returns (r: seq<bool>)
      ensures r == targets
    {
      r := targets;
    }

    method AddMGITypeKey(mgiTypeKey: Option<int>)
      modifies this
      ensures mgiTypeKeys == old(mgiTypeKeys) + [mgiTypeKey]
      ensures accIDs == old(accIDs) && logicalDBKeys == old(logicalDBKeys)
      ensures targets == old(targets) && objectKeys == old(objectKeys)
    {
      mgiTypeKeys := mgiTypeKeys + [mgiTypeKey];
    }

    method GetMGITypeKeys() returns (r: seq<Option<int>>)
      ensures r == mgiTypeKeys
    {
      r := mgiTypeKeys;
    }

    method AddObjectKey(objectKey: Option<int>)
      modifies this
      ensures objectKeys == old(objectKeys) + [objectKey]
      ensures accIDs == old(accIDs) && logicalDBKeys == old(logicalDBKeys)
      ensures targets == old(targets) && mgiTypeKeys == old(mgiTypeKeys)
    {
      objectKeys := objectKeys + [objectKey];
    }

    method GetObjectKeys() returns (r: seq<Option<int>>)
      ensures r == objectKeys
    {
      r := objectKeys;
    }

    /** Empties the five vectors; the target type is a constant and stays. */
    method Clear()
      modifies this
      ensures Vectors() == Unit([], [], [], [], [])
    {
      accIDs, logicalDBKeys, targets, mgiTypeKeys, objectKeys := [], [], [], [], [];
    }
  }
}
