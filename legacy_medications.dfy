/**
 * The earlier revision of the medication record: no secondary ingredient,
 * no concentrations, no medication identifier.
 */
module LegacyMedications {
  import opened Wrappers
  import opened Text
  import opened MedicationLabels

  /**
   * The stored fields. The Swift initializer stores each argument as given,
   * with no normalisation; every argument but `id` defaults to "" or, for
   * `labels`, to no labels.
   */
  datatype Medication = Medication(
    id: Uuid,
    medicationName: string := "",
    pharmacy: string := "",
    pharmacyWebsite: string := "",
    hushWebsite: string := "",
    hushQRCodePayload: string := "",
    notes: string := "",
    labels: seq<MedicationLabel> := [])
  {
    /** `hasValidNames`: false for an empty or all-whitespace name, true otherwise. */
    predicate HasValidNames()
      ensures IsBlank(medicationName) ==> !HasValidNames()
      ensures forall i | 0 <= i < |medicationName| :: !IsWhitespace(medicationName[i]) ==> HasValidNames()
    {
      TrimEmptyIffBlank(medicationName);
      Trim(medicationName) != []
    }
  }

  /** Called with only an `id`, the initializer stores empty strings and no labels. */
  lemma InitDefaults(id: Uuid)
    ensures var m := Medication(id);
            && m.id == id && m.medicationName == [] && m.pharmacy == [] && m.pharmacyWebsite == []
            && m.hushWebsite == [] && m.hushQRCodePayload == [] && m.notes == [] && m.labels == []
            && !m.HasValidNames()
  {
  }
}
