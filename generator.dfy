/**
 * The row interpreter of the association generator. The query joins each
 * MGI_Association row of the job stream with what MGI already holds for
 * its accession ID and logical DB, ordered by record key; every run of rows
 * with one record key becomes one MGIAssociation, refilled in place.
 */
module AssocGenerator {

  import opened Wrappers
  import opened MGIAssociations
  import ProcessorSpec

  /** MGI types the query never returns an accession row of. */
  const EXCLUDED_TYPE_KEYS: set<int> := {21, 25}

  /** One row of the query: record key, accession ID, logical DB key, target flag, and the existing MGI type and object. */
  datatype RowData = RowData(recordKey: int, accID: string, logicalDBKey: int, target: bool,
                             mgiTypeKey: Option<int>, objectKey: Option<int>)

  /** The key the rows are grouped by: the record key in column 1. */
  function InterpretKey(row: RowData): int
  {
    row.recordKey
  }

  /** What the query can return: a type and an object together or neither, and never an excluded type. */
  predicate QueryRow(row: RowData)
  {
    (row.mgiTypeKey.Some? <==> row.objectKey.Some?)
    && (row.mgiTypeKey.Some? ==> row.mgiTypeKey.value !in EXCLUDED_TYPE_KEYS)
  }

  /** The five vectors built from rows v, one entry per row in row order. */
  function UnitOf(v: seq<RowData>): (u: Unit)
    ensures u.Aligned() && |u.accIDs| == |v|
    ensures forall i | 0 <= i < |v| ::
      && u.accIDs[i] == v[i].accID && u.logicalDBKeys[i] == v[i].logicalDBKey
      && u.targets[i] == v[i].target
      && u.mgiTypeKeys[i] == v[i].mgiTypeKey && u.objectKeys[i] == v[i].objectKey
  {
    if v == [] then Unit([], [], [], [], [])
    else
      var u := UnitOf(v[..|v| - 1]);
      var row := v[|v| - 1];
      Unit(u.accIDs + [row.accID], u.logicalDBKeys + [row.logicalDBKey], u.targets + [row.target],
           u.mgiTypeKeys + [row.mgiTypeKey], u.objectKeys + [row.objectKey])
  }

  /** Rows the query returns make a unit the processor accepts, with no excluded type among them. */
  lemma QueryRowsWellFormed(v: seq<RowData>)
    requires forall row | row in v :: QueryRow(row)
    ensures ProcessorSpec.WellFormed(UnitOf(v))
    ensures forall k | k in UnitOf(v).mgiTypeKeys :: k.Some? ==> k.value !in EXCLUDED_TYPE_KEYS
  {
    var u := UnitOf(v);
    forall i | 0 <= i < |v|
      ensures u.mgiTypeKeys[i].Some? ==> u.objectKeys[i].Some? && u.mgiTypeKeys[i].value !in EXCLUDED_TYPE_KEYS
    {
      assert QueryRow(v[i]);
    }
  }

  /** The rows are in record key order, as the query sorts them. */
  predicate SortedByKey(rows: seq<RowData>)
  {
    forall i, j | 0 <= i < j < |rows| :: InterpretKey(rows[i]) <= InterpretKey(rows[j])
  }

  /** All rows of a group share one record key. */
  predicate OneRecord(g: seq<RowData>)
  {
    forall i | 0 <= i < |g| :: InterpretKey(g[i]) == InterpretKey(g[0])
  }

  function Flatten(gs: seq<seq<RowData>>): seq<RowData>
  {
    if gs == [] then [] else gs[0] + Flatten(gs[1..])
  }

  /** The length of the run of rows at the front that share the first row's record key. */
  function RunLength(rows: seq<RowData>): (n: nat)
    requires rows != []
    ensures 1 <= n <= |rows|
    ensures forall j | 0 <= j < n :: InterpretKey(rows[j]) == InterpretKey(rows[0])
    ensures n < |rows| ==> InterpretKey(rows[n]) != InterpretKey(rows[0])
  {
    if |rows| == 1 || InterpretKey(rows[1]) != InterpretKey(rows[0]) then 1
    else 1 + RunLength(rows[1..])
  }

  /** The rows cut into maximal runs of one record key: the groups handed to InterpretRows. */
  function Groups(rows: seq<RowData>): (gs: seq<seq<RowData>>)
    ensures forall k | 0 <= k < |gs| :: gs[k] != []
    decreases |rows|
  {
    if rows == [] then []
    else
      var n := RunLength(rows);
      [rows[..n]] + Groups(rows[n..])
  }

  /** The first group is the first run; the others are the groups of the rows after it. */
  lemma GroupsUnfold(rows: seq<RowData>)
    requires rows != []
    ensures Groups(rows)[0] == rows[..RunLength(rows)]
    ensures |Groups(rows)| == 1 + |Groups(rows[RunLength(rows)..])|
    ensures forall l | 1 <= l < |Groups(rows)| :: Groups(rows)[l] == Groups(rows[RunLength(rows)..])[l - 1]
  {
  }

  /** Grouping loses and reorders nothing. */
  lemma {:induction false} GroupsFlatten(rows: seq<RowData>)
    ensures Flatten(Groups(rows)) == rows
    decreases |rows|
  {
    if rows != [] {
      var n := RunLength(rows);
      var head, tail := rows[..n], rows[n..];
      calc {
        Flatten(Groups(rows));
        Flatten([head] + Groups(tail));
        { assert ([head] + Groups(tail))[1..] == Groups(tail); }
        head + Flatten(Groups(tail));
        { GroupsFlatten(tail); }
        head + tail;
        { assert head + tail == rows; }
        rows;
      }
    }
  }

  /** Every group holds one record key, and neighbouring groups hold different ones. */
  lemma {:induction false} GroupsAreRecords(rows: seq<RowData>)
    ensures forall k | 0 <= k < |Groups(rows)| :: OneRecord(Groups(rows)[k])
    ensures forall k | 0 <= k < |Groups(rows)| - 1 ::
      InterpretKey(Groups(rows)[k][0]) != InterpretKey(Groups(rows)[k + 1][0])
    decreases |rows|
  {
    if rows != [] {
      var n := RunLength(rows);
      GroupsUnfold(rows);
      GroupsAreRecords(rows[n..]);
      if n < |rows| {
        GroupsUnfold(rows[n..]);
      }
    }
  }

  /** A bound below every row's record key is below every group's record key. */
  lemma {:induction false} GroupsAbove(rows: seq<RowData>, b: int)
    requires forall i | 0 <= i < |rows| :: b < InterpretKey(rows[i])
    ensures forall l | 0 <= l < |Groups(rows)| :: b < InterpretKey(Groups(rows)[l][0])
    decreases |rows|
  {
    if rows != [] {
      var n := RunLength(rows);
      GroupsUnfold(rows);
      GroupsAbove(rows[n..], b);
    }
  }

  /** A suffix of sorted rows is sorted. */
  lemma SortedSuffix(rows: seq<RowData>, n: nat)
    requires n <= |rows| && SortedByKey(rows)
    ensures SortedByKey(rows[n..])
  {
    var tail := rows[n..];
    forall i, j | 0 <= i < j < |tail|
      ensures InterpretKey(tail[i]) <= InterpretKey(tail[j])
    {
      assert tail[i] == rows[n + i] && tail[j] == rows[n + j];
    }
  }

  /** On sorted rows, every row after the first run has a larger record key than the run. */
  lemma SortedAfterRun(rows: seq<RowData>)
    requires rows != [] && SortedByKey(rows)
    ensures forall i | 0 <= i < |rows[RunLength(rows)..]| ::
      InterpretKey(rows[0]) < InterpretKey(rows[RunLength(rows)..][i])
  {
    var n := RunLength(rows);
    var tail := rows[n..];
    forall i | 0 <= i < |tail|
      ensures InterpretKey(rows[0]) < InterpretKey(tail[i])
    {
      // The run ends where the key changes, and later rows are no smaller.
      assert tail[i] == rows[n + i];
      assert InterpretKey(rows[n]) != InterpretKey(rows[0]);
      assert InterpretKey(rows[0]) <= InterpretKey(rows[n]);
      if i > 0 {
        assert InterpretKey(rows[n]) <= InterpretKey(rows[n + i]);
      }
    }
  }

  /** On sorted rows the groups' record keys strictly increase, so each record becomes exactly one group. */
  lemma {:induction false} SortedGroupsIncrease(rows: seq<RowData>)
    requires SortedByKey(rows)
    ensures forall k, l | 0 <= k < l < |Groups(rows)| ::
      InterpretKey(Groups(rows)[k][0]) < InterpretKey(Groups(rows)[l][0])
    decreases |rows|
  {
    if rows != [] {
      var tail := rows[RunLength(rows)..];
      var gs, rest := Groups(rows), Groups(tail);
      SortedSuffix(rows, RunLength(rows));
      SortedAfterRun(rows);
      GroupsAbove(tail, InterpretKey(rows[0]));
      SortedGroupsIncrease(tail);
      GroupsUnfold(rows);
      assert gs[0][0] == rows[0];
      forall k, l | 0 <= k < l < |gs|
        ensures InterpretKey(gs[k][0]) < InterpretKey(gs[l][0])
      {
        if k > 0 {
          assert gs[k] == rest[k - 1];
        }
      }
    }
  }

  /** The group interpreter; it owns one MGIAssociation and refills it for every group. */
  class Interpreter {
    const assoc: MGIAssociation

    constructor (targetType: string, targetTypeKey: int)
      ensures fresh(assoc)
      ensures assoc.targetType == targetType && assoc.targetTypeKey == targetTypeKey
      ensures assoc.Vectors() == Unit([], [], [], [], [])
    {
      assoc := new MGIAssociation(targetType, targetTypeKey);
    }

    /**
     * Empties the shared association and appends one entry per row to each
     * vector; the same object is returned for every group, so the previous
     * group's rows are gone.
     */
    method InterpretRows(v: seq<RowData>) returns (r: MGIAssociation)
      modifies assoc
      ensures r == assoc
      ensures assoc.Vectors() == UnitOf(v)
    {
      assoc.Clear();
      var i := 0;
      while i < |v|
        invariant 0 <= i <= |v|
        invariant assoc.Vectors() == UnitOf(v[..i])
      {
        var rd := v[i];
        assert v[..i + 1][..i] == v[..i];
        assoc.AddAccID(rd.accID);
        assoc.AddLogicalDBKey(rd.logicalDBKey);
        assoc.AddTarget(rd.target);
        assoc.AddMGITypeKey(rd.mgiTypeKey);
        assoc.AddObjectKey(rd.objectKey);
        i := i + 1;
      }
      assert v[..i] == v;
      return assoc;
    }
  }
}
