/**
 * The label record for a dispensed medication: pharmacy and prescription
 * identifiers, an optional patient, the label texts, stored QR image bytes,
 * and the QR URL derived from the medication identifier.
 */
module MedicationLabels {
  import opened Wrappers
  import Patients

  /** Every QR code points below this address. */
  const QrUrlPrefix: string := "https://hushmedicalspa.com/medications/"

  /**
   * The stored fields. The Swift initializer stores each argument in the
   * field of the same name; `lotNumber`, `bestByDate`, `patient` and
   * `qrImageData` default to `nil`. Its `createdAt` default, the current
   * time, is a clock reading and is passed in instead.
   */
  datatype MedicationLabel = MedicationLabel(
    createdAt: Date,
    pharmacyIdentifier: string,
    rxNumber: string,
    medicationIdentifier: string,
    lotNumber: Option<string> := None,
    bestByDate: Option<Date> := None,
    patient: Option<Patients.Patient> := None,
    medicationName: string,
    dose: string,
    dispenseAmount: int,
    sig: string,
    qrImageData: Option<Bytes> := None)
  {
    /** The text of `qrURL`: the fixed prefix, then the medication identifier. */
    function QrUrlText(): (r: string)
      ensures |r| == |QrUrlPrefix| + |medicationIdentifier|
      ensures r[..|QrUrlPrefix|] == QrUrlPrefix
      ensures r[|QrUrlPrefix|..] == medicationIdentifier
    {
      QrUrlPrefix + medicationIdentifier
    }

    /**
     * `qrURL`: `URL(string:)` applied to the text. Whether Foundation accepts
     * a string as a URL is outside this model and is passed in as `parses`.
     */
    function QrUrl(parses: string -> bool): (u: Option<string>)
      ensures u.Some? <==> parses(QrUrlText())
      ensures u.Some? ==> u.value == QrUrlText()
    {
      if parses(QrUrlText()) then Some(QrUrlText()) else None
    }
  }

  /** `qrURL` reads `medicationIdentifier` and nothing else. */
  lemma QrUrlDependsOnlyOnIdentifier(a: MedicationLabel, b: MedicationLabel)
    requires a.medicationIdentifier == b.medicationIdentifier
    ensures a.QrUrlText() == b.QrUrlText()
    ensures forall parses: string -> bool :: a.QrUrl(parses) == b.QrUrl(parses)
  {
  }

  /** Different identifiers give different URLs: the identifier can be read back from the URL. */
  lemma QrUrlDeterminesIdentifier(a: MedicationLabel, b: MedicationLabel)
    requires a.QrUrlText() == b.QrUrlText()
    ensures a.medicationIdentifier == b.medicationIdentifier
  {
  }

  /** The initializer's defaults. */
  lemma InitDefaults(createdAt: Date, pharmacyIdentifier: string, rxNumber: string,
                     medicationIdentifier: string, medicationName: string, dose: string,
                     dispenseAmount: int, sig: string)
    ensures var l := MedicationLabel(createdAt, pharmacyIdentifier, rxNumber, medicationIdentifier,
                                     medicationName := medicationName, dose := dose,
                                     dispenseAmount := dispenseAmount, sig := sig);
            && l.lotNumber == None && l.bestByDate == None && l.patient == None && l.qrImageData == None
            && l.createdAt == createdAt && l.pharmacyIdentifier == pharmacyIdentifier
            && l.rxNumber == rxNumber && l.medicationIdentifier == medicationIdentifier
            && l.medicationName == medicationName && l.dose == dose
            && l.dispenseAmount == dispenseAmount && l.sig == sig
  {
  }
}
