/**
 * The parser of the association input file. The first record is the
 * header: its tab-separated fields name the logical DB of each column. Each
 * later record holds, per column, comma-separated accession IDs; column 0
 * holds the target. Every data record refills the same DPAssociation.
 */
module DPInterpreter {

  import opened Wrappers
  import opened AssocConstants
  import opened JavaStrings
  import opened DPAssociations

  /** What interpreting one record gives: the Java code returns null, the association, or throws. */
  datatype Interpreted =
    | Header
    | Data(assoc: DPAssociation)
    | RecordFormatError(rec: string)
    | UnknownLogicalDB(name: string)

  /** The record without its newline, split into tab-separated fields. */
  function Fields(rec: string): seq<string>
  {
    JavaSplit(RemoveFirst(rec, CRT), TAB)
  }

  /** The first name from position i on that the logical DB lookup does not know. */
  function FirstUnknownFrom(names: seq<string>, known: set<string>, i: nat): (r: Option<string>)
    requires i <= |names|
    ensures r.None? <==> forall k | i <= k < |names| :: names[k] in known
    ensures r.Some? ==> r.value in names[i..] && r.value !in known
    ensures r.Some? ==> exists k | i <= k < |names| ::
      names[k] == r.value && forall j | i <= j < k :: names[j] in known
    decreases |names| - i
  {
    if i == |names| then None
    else if names[i] !in known then Some(names[i])
    else
      var r := FirstUnknownFrom(names, known, i + 1);
      assert r.Some? ==> r.value in names[i..] by {
        if r.Some? {
          var k :| i + 1 <= k < |names| && names[k] == r.value;
          assert names[i..][k - i] == r.value;
        }
      }
      r
  }

  /** The header's outcome: too few columns, a column no logical DB is named after, or accepted. */
  function HeaderResult(rec: string, known: set<string>): (r: Interpreted)
    ensures r == Header <==> |Fields(rec)| >= MIN_FIELD_COUNT && forall n | n in Fields(rec) :: n in known
    ensures r.RecordFormatError? <==> |Fields(rec)| < MIN_FIELD_COUNT
    ensures r.UnknownLogicalDB? ==> r.name in Fields(rec) && r.name !in known
    ensures r.UnknownLogicalDB? ==> exists k | 0 <= k < |Fields(rec)| ::
      Fields(rec)[k] == r.name && forall j | 0 <= j < k :: Fields(rec)[j] in known
  {
    var names := Fields(rec);
    if |names| < MIN_FIELD_COUNT then RecordFormatError(rec)
    else match FirstUnknownFrom(names, known, 0)
      case Some(n) => UnknownLogicalDB(n)
      case None => Header
  }

  /** One state per ID among the first n pieces. */
  function PieceStates(pieces: seq<string>, logicalDB: string, target: bool, n: nat): (r: seq<AssocState>)
    requires n <= |pieces|
    ensures |r| == n
    ensures forall k | 0 <= k < n :: r[k] == AssocState(pieces[k], logicalDB, target, None)
  {
    if n == 0 then []
    else PieceStates(pieces, logicalDB, target, n - 1) + [AssocState(pieces[n - 1], logicalDB, target, None)]
  }

  /** The states of one column: none for an empty field, else one per comma-separated ID. */
  function FieldStates(field: string, logicalDB: string, target: bool): seq<AssocState>
  {
    if field == [] then []
    else
      var ids := JavaSplit(field, COMMA);
      PieceStates(ids, logicalDB, target, |ids|)
  }

  /** The states of each column, in column order. */
  function ColumnStates(fields: seq<string>, logicalDBs: seq<string>): (cols: seq<seq<AssocState>>)
    requires |fields| == |logicalDBs|
    ensures |cols| == |fields|
    ensures forall i | 0 <= i < |fields| :: cols[i] == FieldStates(fields[i], logicalDBs[i], i == 0)
  {
    seq(|fields|, i requires 0 <= i < |fields| => FieldStates(fields[i], logicalDBs[i], i == 0))
  }

  /** The lists one after another. */
  function Concat(cols: seq<seq<AssocState>>): seq<AssocState>
  {
    if cols == [] then [] else Concat(cols[..|cols| - 1]) + cols[|cols| - 1]
  }

  /** Concatenating one more list appends it. */
  lemma ConcatStep(cols: seq<seq<AssocState>>, n: nat)
    requires n < |cols|
    ensures Concat(cols[..n + 1]) == Concat(cols[..n]) + cols[n]
  {
    assert cols[..n + 1][..n] == cols[..n];
  }

  /** Every element of every list is in the concatenation. */
  lemma {:induction false} ConcatHas(cols: seq<seq<AssocState>>, i: nat, x: AssocState)
    requires i < |cols| && x in cols[i]
    ensures x in Concat(cols)
  {
    var init := cols[..|cols| - 1];
    assert Concat(cols) == Concat(init) + cols[|cols| - 1];
    if i < |init| {
      assert init[i] == cols[i];
      ConcatHas(init, i, x);
    }
  }

  /** An element of the concatenation is in one of the lists. */
  lemma {:induction false} ConcatFrom(cols: seq<seq<AssocState>>, x: AssocState) returns (i: nat)
    requires x in Concat(cols)
    ensures i < |cols| && x in cols[i]
  {
    var init := cols[..|cols| - 1];
    assert Concat(cols) == Concat(init) + cols[|cols| - 1];
    if x in cols[|cols| - 1] {
      i := |cols| - 1;
    } else {
      i := ConcatFrom(init, x);
      assert init[i] == cols[i];
    }
  }

  /** The states of the first n columns, in column order. */
  function RecordStates(fields: seq<string>, logicalDBs: seq<string>, n: nat): seq<AssocState>
    requires n <= |fields| == |logicalDBs|
  {
    Concat(ColumnStates(fields, logicalDBs)[..n])
  }

  /** One more column appends its states. */
  lemma RecordStatesStep(fields: seq<string>, logicalDBs: seq<string>, n: nat)
    requires n < |fields| == |logicalDBs|
    ensures RecordStates(fields, logicalDBs, n + 1)
         == RecordStates(fields, logicalDBs, n) + FieldStates(fields[n], logicalDBs[n], n == 0)
  {
    ConcatStep(ColumnStates(fields, logicalDBs), n);
  }

  /**
   * The state comes from column i: its ID is one of that column's
   * comma-separated IDs, its logical DB is the column's header name, and it
   * is a target exactly when the column is the first.
   */
  predicate FromColumn(s: AssocState, fields: seq<string>, logicalDBs: seq<string>, i: nat)
    requires i < |fields| == |logicalDBs|
  {
    fields[i] != [] && s.accID in JavaSplit(fields[i], COMMA)
    && s.logicalDB == logicalDBs[i] && s.target == (i == 0)
  }

  /** The states of one column carry its IDs, none holding a comma, and its logical DB and target flag. */
  lemma FieldStatesProvenance(field: string, logicalDB: string, target: bool)
    ensures forall s | s in FieldStates(field, logicalDB, target) ::
      && field != [] && s.accID in JavaSplit(field, COMMA) && COMMA !in s.accID
      && s.logicalDB == logicalDB && s.target == target && s.recordKey.None?
  {
    if field != [] {
      var ids := JavaSplit(field, COMMA);
      JavaSplitPieces(field, COMMA);
      var ps := PieceStates(ids, logicalDB, target, |ids|);
      forall s | s in ps
        ensures s.accID in ids && COMMA !in s.accID
        ensures s.logicalDB == logicalDB && s.target == target && s.recordKey.None?
      {
        var k :| 0 <= k < |ps| && ps[k] == s;
        assert ids[k] == s.accID && ids[k] in ids;
      }
    }
  }

  /** Every state of a record comes from one of its non-empty columns and holds no comma. */
  lemma RecordStatesProvenance(fields: seq<string>, logicalDBs: seq<string>, n: nat)
    requires n <= |fields| == |logicalDBs|
    ensures forall s | s in RecordStates(fields, logicalDBs, n) ::
      && s.recordKey.None? && COMMA !in s.accID
      && exists i | 0 <= i < n :: FromColumn(s, fields, logicalDBs, i)
  {
    var cols := ColumnStates(fields, logicalDBs)[..n];
    forall s | s in Concat(cols)
      ensures s.recordKey.None? && COMMA !in s.accID
      ensures exists i | 0 <= i < n :: FromColumn(s, fields, logicalDBs, i)
    {
      var i := ConcatFrom(cols, s);
      FieldStatesProvenance(fields[i], logicalDBs[i], i == 0);
      assert FromColumn(s, fields, logicalDBs, i);
    }
  }

  /** Every ID of a non-empty column gives a state of that column. */
  lemma FieldStatesHasID(field: string, logicalDB: string, target: bool, id: string)
    requires field != [] && id in JavaSplit(field, COMMA)
    ensures AssocState(id, logicalDB, target, None) in FieldStates(field, logicalDB, target)
  {
    var ids := JavaSplit(field, COMMA);
    var k :| 0 <= k < |ids| && ids[k] == id;
    var ps := PieceStates(ids, logicalDB, target, |ids|);
    assert ps[k] == AssocState(id, logicalDB, target, None);
  }

  /** Conversely, every ID of every non-empty column gives a state, at its column's logical DB. */
  lemma RecordStatesComplete(fields: seq<string>, logicalDBs: seq<string>, i: nat, id: string)
    requires i < |fields| == |logicalDBs|
    requires fields[i] != [] && id in JavaSplit(fields[i], COMMA)
    ensures AssocState(id, logicalDBs[i], i == 0, None) in RecordStates(fields, logicalDBs, |fields|)
  {
    FieldStatesHasID(fields[i], logicalDBs[i], i == 0, id);
    var cols := ColumnStates(fields, logicalDBs)[..|fields|];
    assert cols[i] == FieldStates(fields[i], logicalDBs[i], i == 0);
    ConcatHas(cols, i, AssocState(id, logicalDBs[i], i == 0, None));
  }

  /** A record whose fields are all empty gives no state. */
  lemma {:induction false} EmptyFieldsGiveNoStates(fields: seq<string>, logicalDBs: seq<string>, n: nat)
    requires n <= |fields| == |logicalDBs|
    requires forall i | 0 <= i < n :: fields[i] == []
    ensures RecordStates(fields, logicalDBs, n) == []
  {
    if n > 0 {
      EmptyFieldsGiveNoStates(fields, logicalDBs, n - 1);
      RecordStatesStep(fields, logicalDBs, n - 1);
    }
  }

  /**
   * A data record that, without its newline, ends with a tab and has as
   * many tab-separated columns as the header is rejected: its empty last
   * column is dropped by the split.
   */
  lemma TrailingEmptyColumnRejected(rec: string, headerCount: nat)
    requires var s := RemoveFirst(rec, CRT); s != [] && s[|s| - 1] == TAB && |SplitAll(s, TAB)| == headerCount
    ensures |Fields(rec)| != headerCount
  {
    JavaSplitDropsTrailingEmpty(RemoveFirst(rec, CRT), TAB);
  }

  class DPAssociationInterpreter {
    /** The header's column names; None until the header has been read. */
    var logicalDBs: Option<seq<string>>
    const assoc: DPAssociation
    /** The logical DB names the lookup knows. */
    const knownLogicalDBs: set<string>

    constructor (knownLogicalDBs: set<string>)
      ensures logicalDBs.None? && this.knownLogicalDBs == knownLogicalDBs
      ensures fresh(assoc) && assoc.states == [] && assoc.recordNumber == 0
    {
      logicalDBs := None;
      assoc := new DPAssociation();
      this.knownLogicalDBs := knownLogicalDBs;
    }

    /** The header branch: keep the column names, then check their number and look each one up. */
    method ReadHeader(rec: string) returns (r: Interpreted)
      modifies this
      ensures logicalDBs == Some(Fields(rec))
      ensures r == HeaderResult(rec, knownLogicalDBs)
    {
      var names := JavaSplit(RemoveFirst(rec, CRT), TAB);
      logicalDBs := Some(names);
      if |names| < MIN_FIELD_COUNT {
        return RecordFormatError(rec);
      }
      for i := 0 to |names|
        invariant logicalDBs == Some(names)
        invariant FirstUnknownFrom(names, knownLogicalDBs, 0) == FirstUnknownFrom(names, knownLogicalDBs, i)
      {
        if names[i] !in knownLogicalDBs {
          return UnknownLogicalDB(names[i]);
        }
      }
      return Header;
    }

    /** Add one state per comma-separated ID of a non-empty column. */
    method AddIDs(field: string, logicalDB: string, target: bool)
      requires field != []
      modifies assoc
      ensures assoc.states == old(assoc.states) + FieldStates(field, logicalDB, target)
      ensures assoc.recordNumber == old(assoc.recordNumber)
    {
      var accIDs := JavaSplit(field, COMMA);
      for j := 0 to |accIDs|
        invariant assoc.states == old(assoc.states) + PieceStates(accIDs, logicalDB, target, j)
        invariant assoc.recordNumber == old(assoc.recordNumber)
      {
        assoc.AddState(AssocState(accIDs[j], logicalDB, target, None));
      }
    }

    /** Fill the emptied association with the states of every column, in column order. */
    method AddFields(fields: seq<string>, ldbs: seq<string>)
      requires |fields| == |ldbs| && assoc.states == []
      modifies assoc
      ensures assoc.states == RecordStates(fields, ldbs, |fields|)
      ensures assoc.recordNumber == old(assoc.recordNumber)
    {
      for i := 0 to |fields|
        invariant assoc.states == RecordStates(fields, ldbs, i)
        invariant assoc.recordNumber == old(assoc.recordNumber)
      {
        RecordStatesStep(fields, ldbs, i);
        if fields[i] != [] {
          AddIDs(fields[i], ldbs[i], i == 0);
        } else {
          assert RecordStates(fields, ldbs, i + 1) == RecordStates(fields, ldbs, i) + [];
        }
      }
    }

    /**
     * Interpret one record. The first call reads the header and keeps its
     * column names, even when it then rejects them; every later call clears
     * the association and refills it from the record's columns.
     */
    method Interpret(rec: string) returns (r: Interpreted)
      modifies this, assoc
      ensures assoc.recordNumber == old(assoc.recordNumber)
      ensures old(logicalDBs).None? ==>
        && logicalDBs == Some(Fields(rec))
        && assoc.states == old(assoc.states)
        && r == HeaderResult(rec, knownLogicalDBs)
      ensures old(logicalDBs).Some? ==>
        && logicalDBs == old(logicalDBs)
        && (|Fields(rec)| != |old(logicalDBs).value| ==> r == RecordFormatError(rec) && assoc.states == [])
        && (|Fields(rec)| == |old(logicalDBs).value| ==>
              r == Data(assoc) && assoc.states == RecordStates(Fields(rec), old(logicalDBs).value, |Fields(rec)|))
    {
      if logicalDBs.None? {
        r := ReadHeader(rec);
        return;
      }

      assoc.Clear();
      var fields := JavaSplit(RemoveFirst(rec, CRT), TAB);
      var ldbs := logicalDBs.value;
      if |fields| != |ldbs| {
        return RecordFormatError(rec);
      }
      AddFields(fields, ldbs);
      return Data(assoc);
    }

    /** A record is valid unless it is a comment: the Java code reads its first character, so it must have one. */
    function IsValid(rec: string): (b: bool)
      requires |rec| > 0
      ensures b <==> rec[0] != '#'
    {
      rec[..1] != "#"
    }
  }
}
