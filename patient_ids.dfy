/**
 * The patient identifier generated at registration: "PAT" followed by the number of
 * existing patients plus one, left-padded with zeros to five digits.
 */
module PatientIds {
  import opened Text

  const Prefix: string := "PAT"
  const MinDigits: nat := 5

  /** `PAT${String(patientCount + 1).padStart(5, '0')}` */
  function PatientId(patientCount: nat): string
  {
    Prefix + PadStart(Digits(patientCount + 1), MinDigits, '0')
  }

  /** The zero-padded digits after the prefix. */
  function NumberPart(patientCount: nat): string
  {
    PadStart(Digits(patientCount + 1), MinDigits, '0')
  }

  /**
   * The identifier is "PAT" followed by at least five characters, all decimal digits, that end
   * with the full decimal rendering of `patientCount + 1`: padding adds zeros but never truncates.
   */
  lemma IdShape(patientCount: nat)
    ensures var id := PatientId(patientCount);
      var d := Digits(patientCount + 1);
      && StartsWith(id, Prefix)
      && |id| == |Prefix| + (if |d| >= MinDigits then |d| else MinDigits)
      && EndsWith(id, d)
      && (forall i :: |Prefix| <= i < |id| ==> IsDigit(id[i]))
  {
    var id := PatientId(patientCount);
    var n := NumberPart(patientCount);
    assert id == Prefix + n;
    assert id[..|Prefix|] == Prefix;
    assert id[|id| - |Digits(patientCount + 1)|..] == n[|n| - |Digits(patientCount + 1)|..];
    forall i | |Prefix| <= i < |id|
      ensures IsDigit(id[i])
    {
      assert id[i] == n[i - |Prefix|];
      var d := Digits(patientCount + 1);
      if i - |Prefix| >= |n| - |d| {
        assert n[i - |Prefix|] == d[i - |Prefix| - (|n| - |d|)];
      }
    }
  }

  /** While fewer than 100000 patients are registered, every identifier is exactly eight characters. */
  lemma IdLengthBelowLimit(patientCount: nat)
    requires patientCount + 1 < 100000
    ensures |PatientId(patientCount)| == 8
  {
    assert Pow10(5) == 100000;
    DigitsLength(patientCount + 1, 5);
  }

  /** Reading back the digits after the prefix gives `patientCount + 1`. */
  lemma IdNumberValue(patientCount: nat)
    ensures var n := NumberPart(patientCount);
      (forall i :: 0 <= i < |n| ==> IsDigit(n[i])) && DecimalValue(n) == patientCount + 1
  {
    var d := Digits(patientCount + 1);
    var n := NumberPart(patientCount);
    DigitsValue(patientCount + 1);
    if |d| < MinDigits {
      var z := n[..|n| - |d|];
      assert n == z + d;
      LeadingZerosValue(z, d);
    }
  }

  /** Different patient counts give different identifiers, as the unique `patientId` index requires. */
  lemma IdInjective(c1: nat, c2: nat)
    requires c1 != c2
    ensures PatientId(c1) != PatientId(c2)
  {
    IdNumberValue(c1);
    IdNumberValue(c2);
    assert NumberPart(c1) == PatientId(c1)[|Prefix|..];
    assert NumberPart(c2) == PatientId(c2)[|Prefix|..];
  }
}
