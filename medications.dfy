/**
 * The medication record: its names and concentrations, the pharmacy that
 * supplies it, the web addresses behind its QR code, and its labels.
 */
module Medications {
  import opened Wrappers
  import opened Text
  import opened MedicationLabels

  /** The stored fields. */
  datatype Medication = Medication(
    id: Uuid,
    medicationName: string,
    concentrationPrimaryMedicationPerMl: real,
    medicationNameSecondary: Option<string>,
    concentrationSecondaryMedicationPerMl: Option<real>,
    pharmacy: string,
    pharmacyWebsite: string,
    hushWebsite: string,
    medIdentifier: string,
    hushQRCodePayload: string,
    notes: string,
    labels: seq<MedicationLabel>)
  {
    /** `hasValidNames`: the medication name has a character that is not whitespace. */
    predicate HasValidNames()
      ensures HasValidNames() <==> exists i | 0 <= i < |medicationName| :: !IsWhitespace(medicationName[i])
    {
      TrimEmptyIffBlank(medicationName);
      Trim(medicationName) != []
    }

    /**
     * `selectionName`: pharmacy and medication name, each trimmed, the empty
     * ones dropped, the rest joined by one space.
     */
    function SelectionName(): (r: string)
      ensures HasNoOuterWhitespace(r)
      ensures IsBlank(pharmacy) && IsBlank(medicationName) ==> r == []
      ensures IsBlank(pharmacy) && !IsBlank(medicationName) ==> r == Trim(medicationName)
      ensures !IsBlank(pharmacy) && IsBlank(medicationName) ==> r == Trim(pharmacy)
      ensures !IsBlank(pharmacy) && !IsBlank(medicationName) ==>
                r == Trim(pharmacy) + " " + Trim(medicationName)
    {
      JoinNonEmptyPair(Trim(pharmacy), Trim(medicationName), " ");
      TrimEmptyIffBlank(pharmacy);
      TrimEmptyIffBlank(medicationName);
      JoinKeepsNoOuterWhitespace(Trim(pharmacy), " ", Trim(medicationName));
      Joined(NonEmptyOnly([Trim(pharmacy), Trim(medicationName)]), " ")
    }
  }

  /**
   * The initializer: an empty secondary name is stored as `nil`; the
   * concentrations, which it does not take, start at 0 and `nil`; every
   * other argument is stored as given. Every argument but `id` has a
   * default; the default `id`, a fresh random UUID, is passed in instead.
   */
  function NewMedication(
    id: Uuid,
    medicationNameSecondary: string := "",
    medicationName: string := "",
    pharmacy: string := "",
    pharmacyWebsite: string := "",
    hushWebsite: string := "",
    hushQRCodePayload: string := "",
    notes: string := "",
    labels: seq<MedicationLabel> := [],
    medIdentifier: string := ""): (m: Medication)
    ensures medicationNameSecondary == [] ==> m.medicationNameSecondary == None
    ensures medicationNameSecondary != [] ==> m.medicationNameSecondary == Some(medicationNameSecondary)
    ensures m.concentrationPrimaryMedicationPerMl == 0.0 && m.concentrationSecondaryMedicationPerMl == None
    ensures m.id == id && m.medicationName == medicationName && m.pharmacy == pharmacy
    ensures m.pharmacyWebsite == pharmacyWebsite && m.hushWebsite == hushWebsite
    ensures m.hushQRCodePayload == hushQRCodePayload && m.notes == notes
    ensures m.labels == labels && m.medIdentifier == medIdentifier
  {
    Medication(
      id := id,
      medicationName := medicationName,
      concentrationPrimaryMedicationPerMl := 0.0,
      medicationNameSecondary := if |medicationNameSecondary| == 0 then None else Some(medicationNameSecondary),
      concentrationSecondaryMedicationPerMl := None,
      pharmacy := pharmacy,
      pharmacyWebsite := pharmacyWebsite,
      hushWebsite := hushWebsite,
      medIdentifier := medIdentifier,
      hushQRCodePayload := hushQRCodePayload,
      notes := notes,
      labels := labels)
  }

  /** Called with only an `id`, the initializer gives empty names, no secondary name and no labels. */
  lemma NewMedicationDefaults(id: Uuid)
    ensures var m := NewMedication(id);
            && m.medicationName == [] && m.medicationNameSecondary == None && m.pharmacy == []
            && m.pharmacyWebsite == [] && m.hushWebsite == [] && m.hushQRCodePayload == []
            && m.notes == [] && m.labels == [] && m.medIdentifier == []
            && !m.HasValidNames() && m.SelectionName() == []
  {
  }
}
