/**
 * The processor: for each MGIAssociation unit it resolves the target,
 * decides per distinct accession ID/logical DB pair whether to associate,
 * skip or report, and emits the reports and the ACC_Accession,
 * ACC_AccessionReference and PRB_Reference inserts. Reports and inserts are
 * appended to `output` in the order the Java code hands them to the
 * reporter and to the load stream.
 */
module Processor {

  import opened Wrappers
  import opened AssocConstants
  import opened MGIAssociations
  import opened ProbeRefLookups
  import opened ProcessorSpec

  class MGIAssociationProcessor {
    const singleDB: seq<int>
    const multipleDB: seq<int>
    const refsKey: int
    const isPrivateAccID: bool
    const probeRefLookup: ProbeRefLookup

    var madeProbeRef: bool
    var existCount: int
    var skipCount: int
    var assocCount: int
    var reportCount: int
    var output: seq<Event>
    /** Calls to the probe lookup so far. */
    ghost var probeLookups: nat

    ghost predicate Valid()
      reads probeRefLookup
    {
      probeRefLookup.Valid()
    }

    function Configuration(): Config
    {
      Config(singleDB, multipleDB, refsKey, isPrivateAccID)
    }

    ghost function State(): RunState
      reads this, probeRefLookup
    {
      RunState(existCount, skipCount, assocCount, reportCount, madeProbeRef, probeLookups,
               probeRefLookup.cache.Keys, output)
    }

    /**
     * The logical DB names of the configuration, already looked up, and the
     * reference key of the configured J-number; the PRB_Reference table
     * fills the probe cache.
     */
    constructor (singleDB: seq<int>, multipleDB: seq<int>, refsKey: int, isPrivateAccID: bool,
                 prbReference: seq<PrbReferenceRow>)
      ensures Valid() && fresh(probeRefLookup)
      ensures Configuration() == Config(singleDB, multipleDB, refsKey, isPrivateAccID)
      ensures State() == RunState(0, 0, 0, 0, false, 0, ProbesWithReference(prbReference, refsKey), [])
      ensures ProbeInv(State())
    {
      this.singleDB := singleDB;
      this.multipleDB := multipleDB;
      this.refsKey := refsKey;
      this.isPrivateAccID := isPrivateAccID;
      probeRefLookup := new ProbeRefLookup(refsKey, prbReference);
      madeProbeRef := false;
      existCount, skipCount, assocCount, reportCount := 0, 0, 0, 0;
      output := [];
      probeLookups := 0;
    }

    /** The distinct non-target pairs of the unit, in order of first occurrence. */
    static method DistinctPairsOf(u: Unit) returns (pairs: seq<Pair>)
      requires u.Aligned()
      ensures pairs == DistinctPairs(u, |u.accIDs|)
    {
      pairs := [];
      for i := 0 to |u.accIDs|
        invariant pairs == DistinctPairs(u, i)
      {
        if u.targets[i] {
          continue;
        }
        var pair := Pair(u.accIDs[i], u.logicalDBKeys[i]);
        if pair !in pairs {
          pairs := pairs + [pair];
        }
      }
    }

    /** The target loop: what the target rows resolve to in MGI. */
    static method ScanTarget(u: Unit, expTypeKey: int) returns (t: TargetScan)
      requires WellFormed(u)
      ensures t == ScanTargets(u, expTypeKey, |u.accIDs|)
    {
      var targetAccID: Option<string> := None;
      var targetLogicalDBKey, targetMGITypeKey, targetObjectKey := 0, 0, 0;
      var targetSameType: nat, targetDiffType: nat := 0, 0;
      for i := 0 to |u.accIDs|
        invariant TargetScan(targetAccID, targetLogicalDBKey, targetMGITypeKey, targetObjectKey,
                             targetSameType, targetDiffType) == ScanTargets(u, expTypeKey, i)
      {
        if u.targets[i] {
          targetAccID := Some(u.accIDs[i]);
          targetLogicalDBKey := u.logicalDBKeys[i];
          if u.mgiTypeKeys[i].None? {
            continue;
          }
          targetMGITypeKey := u.mgiTypeKeys[i].value;
          targetObjectKey := u.objectKeys[i].value;
          if targetMGITypeKey == expTypeKey {
            targetSameType := targetSameType + 1;
          } else {
            targetDiffType := targetDiffType + 1;
          }
        }
      }
      t := TargetScan(targetAccID, targetLogicalDBKey, targetMGITypeKey, targetObjectKey,
                      targetSameType, targetDiffType);
    }

    /** The counting loops: for each pair, its rows of the target's type and object and of other types. */
    static method CountPairs(u: Unit, pairs: seq<Pair>, t: TargetScan)
      returns (sameTypeCount: array<nat>, sameObjCount: array<nat>, diffTypeCount: array<nat>)
      requires WellFormed(u)
      ensures fresh(sameTypeCount) && fresh(sameObjCount) && fresh(diffTypeCount)
      ensures sameTypeCount.Length == sameObjCount.Length == diffTypeCount.Length == |pairs|
      ensures forall k | 0 <= k < |pairs| ::
        Counts(sameTypeCount[k], sameObjCount[k], diffTypeCount[k]) == PairCounts(u, t, pairs, k)
    {
      sameTypeCount := new nat[|pairs|](_ => 0);
      sameObjCount := new nat[|pairs|](_ => 0);
      diffTypeCount := new nat[|pairs|](_ => 0);
      for i := 0 to |pairs|
        invariant forall k | 0 <= k < i ::
          Counts(sameTypeCount[k], sameObjCount[k], diffTypeCount[k]) == PairCounts(u, t, pairs, k)
        invariant forall k | i <= k < |pairs| :: sameTypeCount[k] == sameObjCount[k] == diffTypeCount[k] == 0
      {
        for j := 0 to |u.accIDs|
          invariant Counts(sameTypeCount[i], sameObjCount[i], diffTypeCount[i])
                    == CountPair(u, pairs[i], t.mgiTypeKey, t.objectKey, j)
          invariant forall k | 0 <= k < i ::
            Counts(sameTypeCount[k], sameObjCount[k], diffTypeCount[k]) == PairCounts(u, t, pairs, k)
          invariant forall k | i < k < |pairs| :: sameTypeCount[k] == sameObjCount[k] == diffTypeCount[k] == 0
        {
          if u.accIDs[j] != pairs[i].accID || u.logicalDBKeys[j] != pairs[i].logicalDBKey {
            continue;
          }
          if u.mgiTypeKeys[j].None? {
            continue;
          }
          if u.mgiTypeKeys[j].value == t.mgiTypeKey {
            sameTypeCount[i] := sameTypeCount[i] + 1;
            if u.objectKeys[j].value == t.objectKey {
              sameObjCount[i] := sameObjCount[i] + 1;
            }
          } else {
            diffTypeCount[i] := diffTypeCount[i] + 1;
          }
        }
      }
    }

    /**
     * The decision loop: each pair's action from the table of its logical
     * DB, and whether any action is "report and skip"; or the first pair
     * whose logical DB is in neither list.
     */
    method DecideActions(u: Unit, pairs: seq<Pair>, t: TargetScan,
                         sameTypeCount: array<nat>, sameObjCount: array<nat>, diffTypeCount: array<nat>)
      returns (error: Option<int>, action: array<Decision>, skipAssociation: bool)
      requires WellFormed(u)
      requires sameTypeCount.Length == sameObjCount.Length == diffTypeCount.Length == |pairs|
      requires forall k | 0 <= k < |pairs| ::
        Counts(sameTypeCount[k], sameObjCount[k], diffTypeCount[k]) == PairCounts(u, t, pairs, k)
      ensures fresh(action) && action.Length == |pairs|
      ensures error.None? ==> DecideUpTo(Configuration(), u, t, pairs, |pairs|) == Ok(action[..])
                              && skipAssociation == AnyReportSkip(action[..])
      ensures error.Some? ==> DecideUpTo(Configuration(), u, t, pairs, |pairs|) == Err(error.value)
    {
      action := new Decision[|pairs|](_ => Undecided);
      skipAssociation := false;
      for i := 0 to |pairs|
        invariant DecideUpTo(Configuration(), u, t, pairs, i) == Ok(action[..i])
        invariant skipAssociation == AnyReportSkip(action[..i])
      {
        var c := Counts(sameTypeCount[i], sameObjCount[i], diffTypeCount[i]);
        assert c == PairCounts(u, t, pairs, i);
        var d: Decision;
        if pairs[i].logicalDBKey in singleDB {
          d := SingleObjectDecision(c);
        } else if pairs[i].logicalDBKey in multipleDB {
          d := MultipleObjectDecision(c);
        } else {
          error := Some(pairs[i].logicalDBKey);
          DecideUpToStep(Configuration(), u, t, pairs, i, action[..i]);
          DecideUpToErrPersists(Configuration(), u, t, pairs, i + 1, |pairs|);
          return;
        }
        DecideUpToStep(Configuration(), u, t, pairs, i, action[..i]);
        action[i] := d;
        assert action[..i + 1] == action[..i] + [action[i]];
        AnyReportSkipAppend(action[..i], action[i]);
        if action[i].IsReportSkip() {
          skipAssociation := true;
        }
      }
      assert action[..] == action[..|pairs|];
      error := None;
    }

    /** Report every target row with the target discrepancy. */
    method ReportTargetDiscrepancies(u: Unit, expType: string, d: TargetDiscrep)
      requires u.Aligned()
      modifies this
      ensures output == old(output) + TargetReports(u, expType, d, |u.accIDs|)
      ensures reportCount == old(reportCount) + NumTargets(u, |u.accIDs|)
      ensures existCount == old(existCount) && skipCount == old(skipCount) && assocCount == old(assocCount)
      ensures madeProbeRef == old(madeProbeRef) && probeLookups == old(probeLookups)
    {
      var reports: seq<Event> := [];
      var count := 0;
      for i := 0 to |u.accIDs|
        invariant reports == TargetReports(u, expType, d, i) && count == NumTargets(u, i)
      {
        if u.targets[i] {
          reports := reports + [TargetReport(u.accIDs[i], u.logicalDBKeys[i], u.objectKeys[i], u.mgiTypeKeys[i], expType, d)];
          count := count + 1;
        }
      }
      output := output + reports;
      reportCount := reportCount + count;
    }

    /** Report every row carrying the pair with the pair's discrepancy. */
    method ReportAssocDiscrepancies(u: Unit, p: Pair, t: TargetScan, expTypeKey: int, msg: Option<AssocDiscrep>)
      requires u.Aligned()
      modifies this
      ensures output == old(output) + PairReports(u, p, t, expTypeKey, msg, |u.accIDs|)
      ensures reportCount == old(reportCount) + RowsWithPair(u, p, |u.accIDs|)
      ensures existCount == old(existCount) && skipCount == old(skipCount) && assocCount == old(assocCount)
      ensures madeProbeRef == old(madeProbeRef) && probeLookups == old(probeLookups)
    {
      var reports: seq<Event> := [];
      var count := 0;
      for j := 0 to |u.accIDs|
        invariant reports == PairReports(u, p, t, expTypeKey, msg, j) && count == RowsWithPair(u, p, j)
      {
        if u.accIDs[j] == p.accID && u.logicalDBKeys[j] == p.logicalDBKey {
          reports := reports + [AssocReport(t.accID, t.logicalDBKey, t.objectKey, expTypeKey, u.accIDs[j],
                                            u.logicalDBKeys[j], u.objectKeys[j], u.mgiTypeKeys[j], msg)];
          count := count + 1;
        }
      }
      output := output + reports;
      reportCount := reportCount + count;
    }

    /**
     * Associate the accession ID with the MGI object: ACC_Accession and
     * ACC_AccessionReference inserts, and for the unit's first probe
     * association a PRB_Reference insert unless the probe is cached.
     */
    method Associate(accID: string, logicalDBKey: int, mgiTypeKey: int, objectKey: int)
      requires Valid()
      modifies this, probeRefLookup
      ensures Valid()
      ensures State() == AssociateSpec(Configuration(), old(State()), accID, logicalDBKey, mgiTypeKey, objectKey)
    {
      output := output + [AccessionInsert(accID, logicalDBKey, mgiTypeKey, objectKey, isPrivateAccID),
                          AccessionReferenceInsert(refsKey)];
      if mgiTypeKey == PROBE_TYPE_KEY && !madeProbeRef {
        var found := probeRefLookup.Lookup(objectKey);
        probeLookups := probeLookups + 1;
        if found.None? {
          output := output + [ProbeReferenceInsert(objectKey, refsKey)];
          probeRefLookup.AddToCache(objectKey);
        }
        madeProbeRef := true;
      }
    }

    /**
     * The emission loop: per pair, count an existing association, report a
     * discrepancy on every row of the pair, and associate unless the unit
     * is suppressed.
     */
    method EmitActions(u: Unit, pairs: seq<Pair>, t: TargetScan, expTypeKey: int,
                       action: array<Decision>, skipAssociation: bool)
      requires Valid() && u.Aligned() && action.Length == |pairs|
      modifies this, probeRefLookup
      ensures Valid()
      ensures State() == EmitUpTo(Configuration(), u, expTypeKey, t, pairs, action[..], skipAssociation,
                                  |pairs|, old(State()))
    {
      ghost var ds := action[..];
      for i := 0 to |pairs|
        invariant Valid() && action[..] == ds
        invariant State() == EmitUpTo(Configuration(), u, expTypeKey, t, pairs, ds, skipAssociation, i, old(State()))
      {
        var d := action[i];
        if d.Undecided? {
          continue;
        }
        if d.action == Skip {
          existCount := existCount + 1;
          continue;
        }
        if d.action.IsReport() {
          ReportAssocDiscrepancies(u, pairs[i], t, expTypeKey, d.msg);
        }
        if d.action.IsAssociate() {
          if skipAssociation {
            continue;
          }
          Associate(pairs[i].accID, pairs[i].logicalDBKey, t.mgiTypeKey, t.objectKey);
          assocCount := assocCount + 1;
        }
      }
    }

    /** A unit whose target does not resolve: report its target rows and skip all its pairs. */
    method SkipUnresolvedUnit(u: Unit, expType: string, d: TargetDiscrep, pairs: seq<Pair>)
      requires u.Aligned() && pairs == DistinctPairs(u, |u.accIDs|)
      modifies this
      ensures State() == SkipUnit(u, expType, d, old(State()))
    {
      ReportTargetDiscrepancies(u, expType, d);
      skipCount := skipCount + |pairs|;
    }

    /** Decide the pairs of a unit whose target resolved, then emit. */
    method ProcessResolvedUnit(u: Unit, pairs: seq<Pair>, t: TargetScan, expTypeKey: int) returns (error: Option<int>)
      requires Valid() && WellFormed(u)
      requires pairs == DistinctPairs(u, |u.accIDs|) && t == ScanTargets(u, expTypeKey, |u.accIDs|)
      modifies this, probeRefLookup
      ensures Valid()
      ensures Step(State(), error) == ProcessResolved(Configuration(), u, expTypeKey, old(State()))
    {
      var sameTypeCount, sameObjCount, diffTypeCount := CountPairs(u, pairs, t);
      var action, skipAssociation;
      error, action, skipAssociation := DecideActions(u, pairs, t, sameTypeCount, sameObjCount, diffTypeCount);
      if error.Some? {
        return;
      }
      EmitActions(u, pairs, t, expTypeKey, action, skipAssociation);
      if skipAssociation {
        skipCount := skipCount + |pairs|;
      }
    }

    /**
     * Process one unit. The error, if any, is the logical DB in neither
     * configured list (the Java code throws); the state is then as the
     * Java code leaves it.
     */
    method Process(assoc: MGIAssociation) returns (error: Option<int>)
      requires Valid() && WellFormed(assoc.Vectors())
      modifies this, probeRefLookup
      ensures Valid()
      ensures Step(State(), error)
           == ProcessorSpec.Process(Configuration(), assoc.Vectors(), assoc.targetType, assoc.targetTypeKey, old(State()))
      ensures ProbeInv(old(State())) ==> ProbeInv(State())
    {
      ghost var st := State();
      madeProbeRef := false;

      var expType := assoc.GetTargetType();
      var expTypeKey := assoc.GetTargetTypeKey();
      var accIDs := assoc.GetAccIDs();
      var logicalDBKeys := assoc.GetLogicalDBKeys();
      var targets := assoc.GetTargets();
      var mgiTypeKeys := assoc.GetMGITypeKeys();
      var objectKeys := assoc.GetObjectKeys();
      var u := Unit(accIDs, logicalDBKeys, targets, mgiTypeKeys, objectKeys);
      assert u == assoc.Vectors();

      var pairs := DistinctPairsOf(u);
      var t := ScanTarget(u, expTypeKey);

      var targetMsg := ClassifyTarget(t.sameType, t.diffType);
      if targetMsg.Some? {
        SkipUnresolvedUnit(u, expType, targetMsg.value, pairs);
        error := None;
      } else {
        error := ProcessResolvedUnit(u, pairs, t, expTypeKey);
      }
      if ProbeInv(st) {
        ProcessKeepsProbeInv(Configuration(), u, expType, expTypeKey, st);
      }
    }

    /** Associations skipped because they already exist. */
    method GetExistCount() returns (r: int)
      ensures r == existCount
    {
      r := existCount;
    }

    /** Associations skipped because of a discrepancy. */
    method GetSkipCount() returns (r: int)
      ensures r == skipCount
    {
      r := skipCount;
    }

    /** Associations made. */
    method GetAssocCount() returns (r: int)
      ensures r == assocCount
    {
      r := assocCount;
    }

    /** Discrepancies reported. */
    method GetReportCount() returns (r: int)
      ensures r == reportCount
    {
      r := reportCount;
    }
  }
}
