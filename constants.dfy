/**
 * The constants of the association load: record format, the action codes
 * and the discrepancy messages for the target and associate checks.
 */
module AssocConstants {

  import opened Wrappers

  /** Record terminator, field separator and accession ID separator. */
  const CRT: char := '\n'
  const TAB: char := '\t'
  const COMMA: char := ','

  /** A header record must name at least this many logical DBs. */
  const MIN_FIELD_COUNT: nat := 2

  /** The four actions an accession ID/logical DB pair can be given. */
  datatype Action = Skip | ReportSkip | Associate | ReportAssociate {

    /** The integer code the load uses for the action. */
    function Code(): (c: int)
      ensures 1 <= c <= 4
    {
      match this
      case Skip => 1
      case ReportSkip => 2
      case Associate => 3
      case ReportAssociate => 4
    }

    predicate IsReport() { this == ReportSkip || this == ReportAssociate }

    predicate IsAssociate() { this == Associate || this == ReportAssociate }
  }

  /** The action codes are 1 to 4 and no two actions share one. */
  lemma ActionCodesDistinct(a: Action, b: Action)
    ensures a.Code() == b.Code() <==> a == b
    ensures a == Skip ==> a.Code() == 1
    ensures a == ReportSkip ==> a.Code() == 2
    ensures a == Associate ==> a.Code() == 3
    ensures a == ReportAssociate ==> a.Code() == 4
  {
  }

  /** How a count is classified: exactly 0, exactly 1, or more than 1. */
  datatype Bucket = Zero | One | Many {
    function Text(): string
    {
      match this
      case Zero => "0"
      case One => "1"
      case Many => ">1"
    }
  }

  function BucketOf(n: nat): (b: Bucket)
    ensures b == Zero <==> n == 0
    ensures b == One <==> n == 1
    ensures b == Many <==> n > 1
  {
    if n == 0 then Zero else if n == 1 then One else Many
  }

  /** The eight discrepancies of the target accession ID/logical DB. */
  datatype TargetDiscrep = TargetA | TargetB | TargetC | TargetD | TargetE | TargetF | TargetG | TargetH

  function TargetLetter(d: TargetDiscrep): char
  {
    match d
    case TargetA => 'A'
    case TargetB => 'B'
    case TargetC => 'C'
    case TargetD => 'D'
    case TargetE => 'E'
    case TargetF => 'F'
    case TargetG => 'G'
    case TargetH => 'H'
  }

  /** The (same type, different type) buckets that each target message names. */
  function TargetBuckets(d: TargetDiscrep): (Bucket, Bucket)
  {
    match d
    case TargetA => (Zero, Zero)
    case TargetB => (Zero, One)
    case TargetC => (Zero, Many)
    case TargetD => (One, One)
    case TargetE => (One, Many)
    case TargetF => (Many, Zero)
    case TargetG => (Many, One)
    case TargetH => (Many, Many)
  }

  /**
   * The message text of a target discrepancy: its letter and its two
   * buckets, so TargetC reads "C: Same type (0), different type (>1)".
   */
  function TargetMessage(d: TargetDiscrep): (m: string)
    ensures |m| > 0 && m[0] == TargetLetter(d)
  {
    [TargetLetter(d)] + ": Same type (" + TargetBuckets(d).0.Text()
    + "), different type (" + TargetBuckets(d).1.Text() + ")"
  }

  /** No two target discrepancies share a letter, a bucket pair or a message. */
  lemma TargetMessagesDistinct(d: TargetDiscrep, e: TargetDiscrep)
    requires d != e
    ensures TargetLetter(d) != TargetLetter(e)
    ensures TargetBuckets(d) != TargetBuckets(e)
    ensures TargetMessage(d) != TargetMessage(e)
  {
  }

  /** The thirteen discrepancies of an associate accession ID/logical DB. */
  datatype AssocDiscrep = AssocA | AssocB | AssocC | AssocD | AssocE | AssocF | AssocG
                        | AssocH | AssocI | AssocJ | AssocK | AssocL | AssocM

  function AssocLetter(d: AssocDiscrep): char
  {
    match d
    case AssocA => 'A'
    case AssocB => 'B'
    case AssocC => 'C'
    case AssocD => 'D'
    case AssocE => 'E'
    case AssocF => 'F'
    case AssocG => 'G'
    case AssocH => 'H'
    case AssocI => 'I'
    case AssocJ => 'J'
    case AssocK => 'K'
    case AssocL => 'L'
    case AssocM => 'M'
  }

  /**
   * The (same type, same object, different type) buckets an associate
   * message names; messages A and B do not mention the same-object count
   * (sameObj is None for them).
   */
  datatype AssocBuckets = AssocBuckets(sameType: Bucket, sameObj: Option<Bucket>, diffType: Bucket)

  function AssocDiscrepBuckets(d: AssocDiscrep): AssocBuckets
  {
    match d
    case AssocA => AssocBuckets(Zero, None, One)
    case AssocB => AssocBuckets(Zero, None, Many)
    case AssocC => AssocBuckets(One, Some(One), One)
    case AssocD => AssocBuckets(One, Some(One), Many)
    case AssocE => AssocBuckets(One, Some(Zero), Zero)
    case AssocF => AssocBuckets(One, Some(Zero), One)
    case AssocG => AssocBuckets(One, Some(Zero), Many)
    case AssocH => AssocBuckets(Many, Some(One), Zero)
    case AssocI => AssocBuckets(Many, Some(One), One)
    case AssocJ => AssocBuckets(Many, Some(One), Many)
    case AssocK => AssocBuckets(Many, Some(Zero), Zero)
    case AssocL => AssocBuckets(Many, Some(Zero), One)
    case AssocM => AssocBuckets(Many, Some(Zero), Many)
  }

  /**
   * The message text of an associate discrepancy, so AssocL reads
   * "L: Same type (>1), same object (0), different type (1)" and AssocA
   * reads "A: Same type (0), different type (1)".
   */
  function AssocMessage(d: AssocDiscrep): (m: string)
    ensures |m| > 0 && m[0] == AssocLetter(d)
  {
    var b := AssocDiscrepBuckets(d);
    [AssocLetter(d)] + ": Same type (" + b.sameType.Text() + "), "
    + (match b.sameObj case Some(o) => "same object (" + o.Text() + "), " case None => "")
    + "different type (" + b.diffType.Text() + ")"
  }

  /** No two associate discrepancies share a letter, a bucket triple or a message. */
  lemma AssocMessagesDistinct(d: AssocDiscrep, e: AssocDiscrep)
    requires d != e
    ensures AssocLetter(d) != AssocLetter(e)
    ensures AssocDiscrepBuckets(d) != AssocDiscrepBuckets(e)
    ensures AssocMessage(d) != AssocMessage(e)
  {
  }
}
