# assocload, modelled in Dafny

The association load adds accession IDs to objects in the MGI database. It
runs in two steps:

- **Pre-processing.** A tab-delimited input file is parsed into
  MGI_Association rows. The header names a logical DB per column, and
  column 0 holds the target.
- **Loading.** The rows of each input record are grouped into one
  MGIAssociation. The association processor decides, pair by pair, what to
  do with it:
  - resolve the target accession ID to exactly one MGI object of the
    expected type;
  - for every other distinct accession ID/logical DB pair, count how MGI
    already holds it;
  - by the single-object or multiple-object rule table, skip it, report it,
    or associate it with the target object.

  An association writes an ACC_Accession row and an ACC_AccessionReference
  row, and for probes at most one PRB_Reference row per unit.

The model covers:

- the processor (`processor_spec.dfy` and `processor.dfy`):
  - a pure specification `ProcessorSpec.Process` of one call of `process`;
  - the class `Processor.MGIAssociationProcessor`, whose methods keep the
    source's loops and arrays and are proved equal to that specification;
- the association container (`mgi_association.dfy`);
- the probe reference cache (`probe_ref_lookup.dfy`);
- the constants, with the discrepancy tables as datatypes
  (`constants.dfy`);
- the generator's row interpreter and the record-key grouping it relies on
  (`generator.dfy`);
- the pre-processing parser (`dp_interpreter.dfy`, `dp_association.dfy`);
- the two `java.lang.String` operations the parser relies on
  (`java_strings.dfy`).

Database writes and reporter calls are recorded as an `output` sequence of
events, in the order the source issues them.

## Model

| member | source | states |
|---|---|---|
| AssocConstants.Code | java/org/jax/mgi/app/assocload/AssociationLoadConstants.java:79-82 | every action's code is one of the four values 1 to 4 |
| AssocConstants.ActionCodesDistinct | java/org/jax/mgi/app/assocload/AssociationLoadConstants.java:79-82 | different actions have different codes, so the action array can tell them apart; Skip, ReportSkip, Associate and ReportAssociate carry 1, 2, 3 and 4 |
| AssocConstants.BucketOf | java/org/jax/mgi/app/assocload/AssociationLoadConstants.java:31-75 | a count falls in the bucket 0, 1 or >1 that the messages name |
| AssocConstants.TargetMessage | java/org/jax/mgi/app/assocload/AssociationLoadConstants.java:31-46 | each target discrepancy message starts with its own letter A-H |
| AssocConstants.AssocMessage | java/org/jax/mgi/app/assocload/AssociationLoadConstants.java:50-75 | each association discrepancy message starts with its own letter A-M |
| AssocConstants.TargetMessagesDistinct | java/org/jax/mgi/app/assocload/AssociationLoadConstants.java:31-46 | the eight target discrepancy messages A-H are pairwise different |
| AssocConstants.AssocMessagesDistinct | java/org/jax/mgi/app/assocload/AssociationLoadConstants.java:50-75 | the thirteen association discrepancy messages A-M are pairwise different |
| MGIAssociations.MGIAssociation.constructor | java/org/jax/mgi/app/assocload/MGIAssociation.java:70-88 | a new association has the configured target type and key and five empty vectors |
| MGIAssociations.MGIAssociation.GetTargetType | java/org/jax/mgi/app/assocload/MGIAssociation.java:98-101 | returns the target type fixed at construction |
| MGIAssociations.MGIAssociation.GetTargetTypeKey | java/org/jax/mgi/app/assocload/MGIAssociation.java:111-114 | returns the target type key fixed at construction |
| MGIAssociations.MGIAssociation.AddAccID | java/org/jax/mgi/app/assocload/MGIAssociation.java:124-127 | appends to the accession ID vector and leaves the other four unchanged |
| MGIAssociations.MGIAssociation.GetAccIDs | java/org/jax/mgi/app/assocload/MGIAssociation.java:137-140 | returns the accession IDs in insertion order |
| MGIAssociations.MGIAssociation.AddLogicalDBKey | java/org/jax/mgi/app/assocload/MGIAssociation.java:150-153 | appends to the logical DB vector and leaves the other four unchanged |
| MGIAssociations.MGIAssociation.GetLogicalDBKeys | java/org/jax/mgi/app/assocload/MGIAssociation.java:163-166 | returns the logical DB keys in insertion order |
| MGIAssociations.MGIAssociation.AddTarget | java/org/jax/mgi/app/assocload/MGIAssociation.java:176-179 | appends to the target flag vector and leaves the other four unchanged |
| MGIAssociations.MGIAssociation.GetTargets | java/org/jax/mgi/app/assocload/MGIAssociation.java:189-192 | returns the target flags in insertion order |
| MGIAssociations.MGIAssociation.AddMGITypeKey | java/org/jax/mgi/app/assocload/MGIAssociation.java:202-205 | appends to the MGI type vector (null as None) and leaves the other four unchanged |
| MGIAssociations.MGIAssociation.GetMGITypeKeys | java/org/jax/mgi/app/assocload/MGIAssociation.java:215-218 | returns the MGI type keys in insertion order |
| MGIAssociations.MGIAssociation.AddObjectKey | java/org/jax/mgi/app/assocload/MGIAssociation.java:228-231 | appends to the object key vector (null as None) and leaves the other four unchanged |
| MGIAssociations.MGIAssociation.GetObjectKeys | java/org/jax/mgi/app/assocload/MGIAssociation.java:241-244 | returns the object keys in insertion order |
| MGIAssociations.MGIAssociation.Clear | java/org/jax/mgi/app/assocload/MGIAssociation.java:254-261 | empties all five vectors; the target type stays |
| ProbeRefLookups.ProbesWithReference | java/org/jax/mgi/app/assocload/ProbeRefLookup.java:77-81 | defines the probe keys the initialising query selects: those with a PRB_Reference row for the load's reference |
| ProbeRefLookups.ProbeRefLookup.constructor | java/org/jax/mgi/app/assocload/ProbeRefLookup.java:44-50 | the cache is filled with exactly the probes that PRB_Reference already ties to the reference, each mapped to itself |
| ProbeRefLookups.ProbeRefLookup.Lookup | java/org/jax/mgi/app/assocload/ProbeRefLookup.java:62-66 | gives the probe key back when it is cached and None otherwise; it never fails on a missing key |
| ProbeRefLookups.ProbeRefLookup.AddToCache | java/org/jax/mgi/app/assocload/ProbeRefLookup.java:92-96 | adds exactly the probe key, mapped to itself, and keeps every other entry |
| ProcessorSpec.DistinctPairs | java/org/jax/mgi/app/assocload/MGIAssociationProcessor.java:233-248 | defines the distinct pairs of the non-target rows, each added at its first occurrence |
| ProcessorSpec.DistinctPairsAreTheNonTargetPairs | java/org/jax/mgi/app/assocload/MGIAssociationProcessor.java:223-248 | the distinct pairs hold no duplicate, and a pair is among them exactly when some non-target row carries it |
| ProcessorSpec.DistinctPairsInFirstOccurrenceOrder | java/org/jax/mgi/app/assocload/MGIAssociationProcessor.java:223-248 | the distinct pairs are in the order of their first non-target occurrence |
| ProcessorSpec.ScanTargets | java/org/jax/mgi/app/assocload/MGIAssociationProcessor.java:279-306 | defines the target loop: every target row saves its accession ID and logical DB; one found in MGI also saves its type and object and counts as same type or different type |
| ProcessorSpec.ScanTargetsCounts | java/org/jax/mgi/app/assocload/MGIAssociationProcessor.java:274-306 | same-type plus different-type counts equal the target rows found in MGI; a target accession ID is recorded exactly when a target row exists; the saved type and object come from the last found target row; the saved accession ID and logical DB are those of the last target row; a unit with only same-type hits saves the expected type |
| ProcessorSpec.ClassifyTarget | java/org/jax/mgi/app/assocload/MGIAssociationProcessor.java:308-328 | no discrepancy exactly when the target has one same-type object and no other type; otherwise the discrepancy's message names the buckets of the two counts |
| ProcessorSpec.ResolvedTargetIsUnique | java/org/jax/mgi/app/assocload/MGIAssociationProcessor.java:274-328 | a resolved target is one target row in MGI, of the expected type, whose object is the one saved |
| ProcessorSpec.CountPair | java/org/jax/mgi/app/assocload/MGIAssociationProcessor.java:357-398 | same-object hits are at most same-type hits, and same-type plus different-type hits are the pair's rows found in MGI, at most all of its rows |
| ProcessorSpec.SingleObjectDecision | java/org/jax/mgi/app/assocload/MGIAssociationProcessor.java:405-495 | single-object rule: associate iff the pair is unknown in MGI, skip iff it is already on the target object and nothing else, undecided iff more than one of its rows is on the target object (sameType > 0 and sameObj > 1); never report-and-associate; each message names the counts' buckets |
| ProcessorSpec.MultipleObjectDecision | java/org/jax/mgi/app/assocload/MGIAssociationProcessor.java:497-564 | multiple-object rule: associate when no object of the type has it, skip iff it is on the target alone, report-and-skip iff it is on the target and other objects of the type, report-and-associate iff it is on other objects of the type but not the target; each message names the counts' buckets |
| ProcessorSpec.DecidePair | java/org/jax/mgi/app/assocload/MGIAssociationProcessor.java:400-575 | fails exactly when the pair's logical DB is in neither configured list, and then names that logical DB; otherwise the single-object table decides when the logical DB is in the single-object list (checked first), else the multiple-object table |
| ProcessorSpec.DecideUpTo | java/org/jax/mgi/app/assocload/MGIAssociationProcessor.java:400-581 | a successful run of the decision loop yields one decision per pair |
| ProcessorSpec.DecideUpToStep | java/org/jax/mgi/app/assocload/MGIAssociationProcessor.java:403-575 | deciding pair k appends the single-object table's decision for pair k's counts when its logical DB is in the single-object list, else the multiple-object table's when it is in the multiple-object list, else fails with that logical DB |
| ProcessorSpec.DecideUpToPerPair | java/org/jax/mgi/app/assocload/MGIAssociationProcessor.java:400-581 | decision j of a successful loop is pair j's own decision for pair j's own counts |
| ProcessorSpec.DecideUpToErrPersists | java/org/jax/mgi/app/assocload/MGIAssociationProcessor.java:566-575 | the first unconfigured logical DB aborts the loop; later pairs do not change the error |
| ProcessorSpec.DecideUpToFails | java/org/jax/mgi/app/assocload/MGIAssociationProcessor.java:400-575 | the loop fails exactly when some pair's logical DB is unconfigured, and the error names such a logical DB |
| ProcessorSpec.UnitDecisions | java/org/jax/mgi/app/assocload/MGIAssociationProcessor.java:400-581 | one decision per distinct pair of the unit |
| ProcessorSpec.UnitDecisionsPerPair | java/org/jax/mgi/app/assocload/MGIAssociationProcessor.java:400-575 | for a unit whose decisions succeed, every pair's logical DB is configured, and decision j is the single-object table's (logical DB in the single-object list) or else the multiple-object table's, applied to pair j's counts against the unit's target scan |
| ProcessorSpec.AnyReportSkipAppend | java/org/jax/mgi/app/assocload/MGIAssociationProcessor.java:577-581 | the skip-association flag is set once any decision so far is report-and-skip |
| ProcessorSpec.EventCountsAppend | java/org/jax/mgi/app/assocload/MGIAssociationProcessor.java:587-646 | reports, accession inserts and probe reference keys add up over concatenated output |
| ProcessorSpec.TargetReports | java/org/jax/mgi/app/assocload/MGIAssociationProcessor.java:336-347 | defines the target discrepancy reports: one per target row, in row order, naming that row |
| ProcessorSpec.TargetReportsAreReports | java/org/jax/mgi/app/assocload/MGIAssociationProcessor.java:330-347 | one target discrepancy report per target row, each with the expected type and the discrepancy found, and no insert |
| ProcessorSpec.PairReports | java/org/jax/mgi/app/assocload/MGIAssociationProcessor.java:604-620 | defines the association discrepancy reports of a pair: one per row carrying it, in row order, against the resolved target |
| ProcessorSpec.PairReportsAreReports | java/org/jax/mgi/app/assocload/MGIAssociationProcessor.java:599-620 | one association discrepancy report per row of the pair, each naming the pair, the target accession ID and the message, and no insert |
| ProcessorSpec.AssociateSpec | java/org/jax/mgi/app/assocload/MGIAssociationProcessor.java:663-738 | an association writes the accession row and its reference row; a probe association whose probe is not yet tied to the reference also writes one PRB_Reference row and caches the probe, and this happens at most once per unit; no counter changes |
| ProcessorSpec.EmittedRefl | java/org/jax/mgi/app/assocload/MGIAssociationProcessor.java:584-639 | no output is consistent with unchanged counters |
| ProcessorSpec.EmittedTrans | java/org/jax/mgi/app/assocload/MGIAssociationProcessor.java:584-639 | consistency of output and counters composes over steps of the emission loop |
| ProcessorSpec.ReportsEmitted | java/org/jax/mgi/app/assocload/MGIAssociationProcessor.java:613-617 | each report raises the report count by one |
| ProcessorSpec.AssociateEmitted | java/org/jax/mgi/app/assocload/MGIAssociationProcessor.java:634-636 | an association plus its count increment keeps output and counters consistent |
| ProcessorSpec.DecisionsPartition | java/org/jax/mgi/app/assocload/MGIAssociationProcessor.java:400-581 | every pair is undecided or has exactly one of the four actions; no report-and-skip decision iff the flag stays clear |
| ProcessorSpec.EmitPairEffects | java/org/jax/mgi/app/assocload/MGIAssociationProcessor.java:587-639 | one pair of the emission loop keeps output and counters consistent and writes no association while suppressed |
| ProcessorSpec.EmitPairCounts | java/org/jax/mgi/app/assocload/MGIAssociationProcessor.java:587-639 | one pair raises the exist count iff it is skipped, and, unless associations are suppressed, the association count iff it is associated; the skip count stays |
| ProcessorSpec.EmitPair | java/org/jax/mgi/app/assocload/MGIAssociationProcessor.java:587-639 | defines the emission for one pair: count an existing association; report every row of a report action; associate an associate action unless the unit is suppressed |
| ProcessorSpec.EmitUpTo | java/org/jax/mgi/app/assocload/MGIAssociationProcessor.java:587-639 | defines the emission loop as EmitPair over the pairs in order |
| ProcessorSpec.SkipUnit | java/org/jax/mgi/app/assocload/MGIAssociationProcessor.java:333-354 | defines the target-discrepancy path: report every target row, count the reports, and skip every distinct pair |
| ProcessorSpec.ProcessResolved | java/org/jax/mgi/app/assocload/MGIAssociationProcessor.java:357-646 | defines the resolved-target path: fail on the first unconfigured logical DB, otherwise emit every pair and, when some decision is report and skip, count every pair as skipped |
| ProcessorSpec.Process | java/org/jax/mgi/app/assocload/MGIAssociationProcessor.java:185-647 | defines `process` on one unit: clear the probe flag, scan the targets, then take the target-discrepancy path or the resolved-target path |
| ProcessorSpec.EmitUpToEffects | java/org/jax/mgi/app/assocload/MGIAssociationProcessor.java:584-639 | the whole emission loop keeps output and counters consistent and writes no association while suppressed |
| ProcessorSpec.EmitUpToCounts | java/org/jax/mgi/app/assocload/MGIAssociationProcessor.java:584-639 | over the emission loop the exist count grows by the skips, and the association count by the associates unless suppressed |
| ProcessorSpec.ProcessBookkeeping | java/org/jax/mgi/app/assocload/MGIAssociationProcessor.java:185-647 | process only appends output; the report count grows by the reports written and the association count by the accession rows; at most one probe lookup and one PRB_Reference row per unit, for a probe not yet cached, which is then cached |
| ProcessorSpec.ProcessKeepsProbeInv | java/org/jax/mgi/app/assocload/MGIAssociationProcessor.java:706-736 | a probe is written to PRB_Reference at most once per run: every probe written is cached |
| ProcessorSpec.UnresolvedTargetSkipsUnit | java/org/jax/mgi/app/assocload/MGIAssociationProcessor.java:308-355 | a target discrepancy reports every target row with the discrepancy's buckets, skips every distinct pair, and associates nothing |
| ProcessorSpec.UnconfiguredLogicalDBFails | java/org/jax/mgi/app/assocload/MGIAssociationProcessor.java:566-575 | process fails exactly when the target resolves and some non-target row's logical DB is in neither list; it then names such a logical DB and has written nothing |
| ProcessorSpec.ReportSkipSuppressesUnit | java/org/jax/mgi/app/assocload/MGIAssociationProcessor.java:577-646 | one report-and-skip decision suppresses every association of the unit and counts all distinct pairs as skipped |
| ProcessorSpec.ResolvedUnitAccounting | java/org/jax/mgi/app/assocload/MGIAssociationProcessor.java:584-646 | without report-and-skip, each distinct pair is counted exactly once as existing or associated, except undecided pairs, which are counted nowhere |
| Processor.MGIAssociationProcessor.constructor | java/org/jax/mgi/app/assocload/MGIAssociationProcessor.java:108-175 | counters start at zero, the configuration is kept, and the probe cache holds the probes tied to the reference |
| Processor.MGIAssociationProcessor.DistinctPairsOf | java/org/jax/mgi/app/assocload/MGIAssociationProcessor.java:223-254 | the vector loop computes the distinct non-target pairs |
| Processor.MGIAssociationProcessor.ScanTarget | java/org/jax/mgi/app/assocload/MGIAssociationProcessor.java:274-306 | the target loop computes the target scan |
| Processor.MGIAssociationProcessor.CountPairs | java/org/jax/mgi/app/assocload/MGIAssociationProcessor.java:357-398 | the three count arrays, allocated and zeroed as at MGIAssociationProcessor.java:256-272, hold after the nested count loop, per distinct pair, the counts of the pair against the target |
| Processor.MGIAssociationProcessor.DecideActions | java/org/jax/mgi/app/assocload/MGIAssociationProcessor.java:400-581 | the action array holds the decisions or the error is the unconfigured logical DB, and the skip flag is set iff some decision is report-and-skip |
| Processor.MGIAssociationProcessor.ReportTargetDiscrepancies | java/org/jax/mgi/app/assocload/MGIAssociationProcessor.java:330-347 | writes the target reports and counts each |
| Processor.MGIAssociationProcessor.ReportAssocDiscrepancies | java/org/jax/mgi/app/assocload/MGIAssociationProcessor.java:599-620 | writes the pair's reports and counts each |
| Processor.MGIAssociationProcessor.Associate | java/org/jax/mgi/app/assocload/MGIAssociationProcessor.java:663-738 | the new state is the association specification applied to the old |
| Processor.MGIAssociationProcessor.EmitActions | java/org/jax/mgi/app/assocload/MGIAssociationProcessor.java:584-639 | the emission loop's new state is the emission specification applied to the old |
| Processor.MGIAssociationProcessor.SkipUnresolvedUnit | java/org/jax/mgi/app/assocload/MGIAssociationProcessor.java:308-355 | a unit whose target does not resolve has its target rows reported and its distinct pairs counted as skipped, as the specification says |
| Processor.MGIAssociationProcessor.ProcessResolvedUnit | java/org/jax/mgi/app/assocload/MGIAssociationProcessor.java:357-646 | handling a unit with a resolved target matches its specification, error included |
| Processor.MGIAssociationProcessor.Process | java/org/jax/mgi/app/assocload/MGIAssociationProcessor.java:185-647 | the new state and the error are those of the specification of process, and the probe invariant is kept |
| Processor.MGIAssociationProcessor.GetExistCount | java/org/jax/mgi/app/assocload/MGIAssociationProcessor.java:749-752 | returns the number of existing associations |
| Processor.MGIAssociationProcessor.GetSkipCount | java/org/jax/mgi/app/assocload/MGIAssociationProcessor.java:762-765 | returns the number of skipped associations |
| Processor.MGIAssociationProcessor.GetAssocCount | java/org/jax/mgi/app/assocload/MGIAssociationProcessor.java:775-778 | returns the number of associations made |
| Processor.MGIAssociationProcessor.GetReportCount | java/org/jax/mgi/app/assocload/MGIAssociationProcessor.java:788-791 | returns the number of reports written |
| AssocGenerator.UnitOf | java/org/jax/mgi/app/assocload/MGIAssociationGenerator.java:238-263 | the five vectors have one entry per row, and entry i is row i's field |
| AssocGenerator.QueryRowsWellFormed | java/org/jax/mgi/app/assocload/MGIAssociationGenerator.java:86-118 | rows the query can return (type and object both null or both set, never type 21 or 25) make a unit the processor accepts |
| AssocGenerator.RunLength | java/org/jax/mgi/app/assocload/MGIAssociationGenerator.java:224-228 | the leading run of one record key is non-empty and maximal: every row in it has the first row's key and the next row does not |
| AssocGenerator.InterpretKey | java/org/jax/mgi/app/assocload/MGIAssociationGenerator.java:224-228 | defines the grouping key as the record key of the first column |
| AssocGenerator.QueryRow | java/org/jax/mgi/app/assocload/MGIAssociationGenerator.java:86-118 | defines the rows the query can return: type and object both set or both null, never an excluded type |
| AssocGenerator.Groups | java/org/jax/mgi/app/assocload/MGIAssociationGenerator.java:224-228 | the rows are cut into non-empty groups, one per run of equal record keys |
| AssocGenerator.GroupsUnfold | java/org/jax/mgi/app/assocload/MGIAssociationGenerator.java:224-228 | the first group is the leading run and the other groups are those of the rows after it |
| AssocGenerator.GroupsFlatten | java/org/jax/mgi/app/assocload/MGIAssociationGenerator.java:224-228 | cutting the rows at record key changes loses and reorders nothing |
| AssocGenerator.GroupsAreRecords | java/org/jax/mgi/app/assocload/MGIAssociationGenerator.java:224-228 | every group holds one record key, and neighbouring groups hold different keys |
| AssocGenerator.GroupsAbove | java/org/jax/mgi/app/assocload/MGIAssociationGenerator.java:224-228 | a bound below every row's record key is below every group's record key |
| AssocGenerator.SortedSuffix | java/org/jax/mgi/app/assocload/MGIAssociationGenerator.java:116-118 | the rows after any point of a sorted result are sorted |
| AssocGenerator.SortedAfterRun | java/org/jax/mgi/app/assocload/MGIAssociationGenerator.java:116-118 | on sorted rows every row after the leading run has a larger record key |
| AssocGenerator.SortedGroupsIncrease | java/org/jax/mgi/app/assocload/MGIAssociationGenerator.java:116-118 | on rows sorted by record key the group keys strictly increase, so each record is exactly one group |
| AssocGenerator.Interpreter.constructor | java/org/jax/mgi/app/assocload/MGIAssociationGenerator.java:192-196 | the interpreter owns a fresh, empty association |
| AssocGenerator.Interpreter.InterpretRows | java/org/jax/mgi/app/assocload/MGIAssociationGenerator.java:238-263 | returns the shared association, now holding exactly the group's rows in order |
| DPAssociations.Stamp | java/org/jax/mgi/app/assocload/DPAssociation.java:91-114 | every state gets the record key and keeps everything else |
| DPAssociations.DPAssociation.constructor | java/org/jax/mgi/app/assocload/DPAssociation.java:41-53 | an empty list and record number 0 |
| DPAssociations.DPAssociation.AddState | java/org/jax/mgi/app/assocload/DPAssociation.java:63-66 | appends the state |
| DPAssociations.DPAssociation.Clear | java/org/jax/mgi/app/assocload/DPAssociation.java:76-79 | empties the list and keeps the record number |
| DPAssociations.DPAssociation.Insert | java/org/jax/mgi/app/assocload/DPAssociation.java:91-114 | takes the next record number and writes every state, in order, stamped with it |
| DPInterpreter.Fields | java/org/jax/mgi/app/assocload/DPAssociationInterpreter.java:116-117 | defines a record's fields: its first newline removed, then split on tabs as Java's `split` does |
| DPInterpreter.FirstUnknownFrom | java/org/jax/mgi/app/assocload/DPAssociationInterpreter.java:97-100 | none iff every name from i on is known; otherwise the first unknown one |
| DPInterpreter.HeaderResult | java/org/jax/mgi/app/assocload/DPAssociationInterpreter.java:78-106 | the header is accepted iff it has at least two columns, all of them known logical DBs; too few columns is a format error; otherwise the first unknown column name is reported |
| DPInterpreter.FieldStates | java/org/jax/mgi/app/assocload/DPAssociationInterpreter.java:140-170 | defines a column's states: none for an empty field, else one per comma-separated ID |
| DPInterpreter.RecordStates | java/org/jax/mgi/app/assocload/DPAssociationInterpreter.java:136-171 | defines the states of the first n columns, concatenated in column order |
| DPInterpreter.PieceStates | java/org/jax/mgi/app/assocload/DPAssociationInterpreter.java:145-170 | one state per ID, with the column's logical DB and target flag and no record key |
| DPInterpreter.ColumnStates | java/org/jax/mgi/app/assocload/DPAssociationInterpreter.java:136-171 | one list of states per column, the first column's marked as targets |
| DPInterpreter.ConcatStep | java/org/jax/mgi/app/assocload/DPAssociationInterpreter.java:136-171 | one more column appends its states after those of the earlier columns |
| DPInterpreter.ConcatHas | java/org/jax/mgi/app/assocload/DPAssociationInterpreter.java:136-171 | a state of any column is in the record's list |
| DPInterpreter.ConcatFrom | java/org/jax/mgi/app/assocload/DPAssociationInterpreter.java:136-171 | every state of the record's list comes from some column |
| DPInterpreter.RecordStatesStep | java/org/jax/mgi/app/assocload/DPAssociationInterpreter.java:136-171 | the column loop appends column n's states after those of the first n columns |
| DPInterpreter.FieldStatesProvenance | java/org/jax/mgi/app/assocload/DPAssociationInterpreter.java:140-170 | every state of a column comes from a non-empty column, has one of its comma-separated IDs and no comma, and carries the column's logical DB and target flag |
| DPInterpreter.RecordStatesProvenance | java/org/jax/mgi/app/assocload/DPAssociationInterpreter.java:136-171 | every state comes from an ID of a non-empty column, holds no comma, carries that column's logical DB, and is a target iff the column is the first |
| DPInterpreter.FieldStatesHasID | java/org/jax/mgi/app/assocload/DPAssociationInterpreter.java:140-170 | every ID of a non-empty column gives a state |
| DPInterpreter.RecordStatesComplete | java/org/jax/mgi/app/assocload/DPAssociationInterpreter.java:136-171 | every ID of every non-empty column is among the record's states |
| DPInterpreter.EmptyFieldsGiveNoStates | java/org/jax/mgi/app/assocload/DPAssociationInterpreter.java:140-141 | a record of empty columns gives no state |
| DPInterpreter.TrailingEmptyColumnRejected | java/org/jax/mgi/app/assocload/DPAssociationInterpreter.java:116-127 | a record ending in an empty column whose full split has the header's number of columns loses that column to the split and fails the column count check |
| DPInterpreter.DPAssociationInterpreter.constructor | java/org/jax/mgi/app/assocload/DPAssociationInterpreter.java:51-57 | no header yet and an empty association |
| DPInterpreter.DPAssociationInterpreter.ReadHeader | java/org/jax/mgi/app/assocload/DPAssociationInterpreter.java:78-106 | keeps the header's names and returns the header's outcome |
| DPInterpreter.DPAssociationInterpreter.AddIDs | java/org/jax/mgi/app/assocload/DPAssociationInterpreter.java:145-170 | appends one state per comma-separated ID of the column |
| DPInterpreter.DPAssociationInterpreter.AddFields | java/org/jax/mgi/app/assocload/DPAssociationInterpreter.java:136-171 | fills the association with the record's states, column by column |
| DPInterpreter.DPAssociationInterpreter.Interpret | java/org/jax/mgi/app/assocload/DPAssociationInterpreter.java:68-175 | the first record is the header; every later record clears the association and fails the format check unless it has the header's number of columns, or else fills the association with its states |
| DPInterpreter.DPAssociationInterpreter.IsValid | java/org/jax/mgi/app/assocload/DPAssociationInterpreter.java:187-196 | a record is valid iff it does not start with '#' |
| JavaStrings.SplitAll | java/org/jax/mgi/app/assocload/DPAssociationInterpreter.java:116-127 | every string splits into at least one piece |
| JavaStrings.JoinSplitAll | java/org/jax/mgi/app/assocload/DPAssociationInterpreter.java:116-127 | joining the pieces gives the string back, and no piece holds the separator |
| JavaStrings.SplitAllJoin | java/org/jax/mgi/app/assocload/DPAssociationInterpreter.java:116-127 | splitting a join of separator-free pieces gives the pieces back |
| JavaStrings.SplitAllNoSeparator | java/org/jax/mgi/app/assocload/DPAssociationInterpreter.java:116-127 | a string without the separator is one piece |
| JavaStrings.SplitAllPrefix | java/org/jax/mgi/app/assocload/DPAssociationInterpreter.java:116-127 | a separator-free head is split off as the first piece |
| JavaStrings.SplitAllLastPiece | java/org/jax/mgi/app/assocload/DPAssociationInterpreter.java:116-127 | the last piece is empty iff the string is empty or ends with the separator |
| JavaStrings.DropTrailingEmpty | java/org/jax/mgi/app/assocload/DPAssociationInterpreter.java:116-127 | keeps a prefix whose last piece is non-empty and drops only empty pieces |
| JavaStrings.JavaSplit | java/org/jax/mgi/app/assocload/DPAssociationInterpreter.java:116-117 | defines Java's `split` on one character: the empty string gives one empty piece, otherwise all pieces without the trailing empty ones |
| JavaStrings.JavaSplitPieces | java/org/jax/mgi/app/assocload/DPAssociationInterpreter.java:116-127 | the split's pieces are a prefix of all pieces and none holds the separator |
| JavaStrings.JavaSplitDropsTrailingEmpty | java/org/jax/mgi/app/assocload/DPAssociationInterpreter.java:116-127 | a string ending in the separator loses its last empty piece |
| JavaStrings.JavaSplitKeepsAll | java/org/jax/mgi/app/assocload/DPAssociationInterpreter.java:116-127 | a string not ending in the separator keeps every piece |
| JavaStrings.FirstIndex | java/org/jax/mgi/app/assocload/DPAssociationInterpreter.java:116 | the position of the first occurrence of the character |
| JavaStrings.RemoveFirst | java/org/jax/mgi/app/assocload/DPAssociationInterpreter.java:82 | defines `replaceFirst` of one character by the empty string: the first occurrence is cut out |
| JavaStrings.RemoveFirstCutsFirst | java/org/jax/mgi/app/assocload/DPAssociationInterpreter.java:82 | removing the newline cuts out exactly its first occurrence, or changes nothing when there is none |

## Left out

- The SQL in the generator's constructor, ResultsNavigator and MultiRowIterator are database and library code. They are not part of this model. `AssocGenerator.Groups` is a reference for the grouping they perform, with its properties proved as lemmas, and `QueryRow` states what the query can return.
- The generator's `interpret(RowReference)` and `RowData(RowReference)` read database columns. `RowData` is a datatype built directly from the column values.
- Configuration and lookups (RADARCfg, AssocLoadCfg, JNumberLookup, LogicalDBLookup, MGITypeLookup) are parameters:
  - the processor's logical DB key lists, reference key and private flag;
  - the association's target type and key;
  - the interpreter's set of known logical DB names;
  - the PRB_Reference rows the probe cache is filled from.
- `Processor.MGIAssociationProcessor.Process`: requires the unit to be well formed (vectors aligned, and an MGI type only with an object). This is stronger than what the Java code reads: it takes an object key only of a target row found in MGI and of a row of the target's type. The generator guarantees it (`QueryRowsWellFormed`).
- DAO and state objects, key generation for ACC_Accession, and AccessionLib's splitting of an accession ID into prefix and numeric part are not modelled. Each insert is recorded as an event carrying the values the source sets from the model's inputs.
- Logging (logdDebug and logdInfo) and `MGIAssociation.print` are left out.
- AssociationLoadReporter's formatting of reports is left out. A report is an event that carries the arguments of the reporter call.
- Counters are unbounded integers. The source's 32-bit `int` overflow is not modelled.
- `DPAssociation.insert` writes rows to a SQL stream. The model returns the rows it would write.
- `ProbeRefLookup.getFullInitQuery` and its row interpreter are the cache's loading query. They are modelled by the constructor's contract on the table rows.
- The exception types are not modelled. A configuration error is the returned logical DB key. A format or lookup error in the input file is an `Interpreted` variant.
