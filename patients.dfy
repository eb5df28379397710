/**
 * The patient record: a person receiving medication, with an inline street
 * address. A label names its patient by `FullName`.
 */
module Patients {
  import opened Wrappers
  import opened Text

  /**
   * The stored fields. The Swift initializer stores each argument in the
   * field of the same name; `middleName` and `streetLine2` default to `nil`.
   */
  datatype Patient = Patient(
    id: Uuid,
    firstName: string,
    middleName: Option<string> := None,
    lastName: string,
    medicalRecordNumber: string,
    birthDate: Date,
    streetLine1: string,
    streetLine2: Option<string> := None,
    city: string,
    state: string,
    postalCode: string,
    country: string)
  {
    /**
     * `fullName`: first, middle and last name separated by single spaces; a
     * middle name that is missing or only whitespace is left out. A middle
     * name that is kept is kept as written, untrimmed.
     */
    function FullName(): (r: string)
      ensures middleName.Some? && !IsBlank(middleName.value) ==>
                r == firstName + " " + middleName.value + " " + lastName
      ensures middleName.None? || IsBlank(middleName.value) ==>
                r == firstName + " " + lastName
    {
      TrimEmptyIffBlank(middleName.GetOr(""));
      if middleName.Some? && Trim(middleName.value) != [] then
        firstName + " " + middleName.value + " " + lastName
      else
        firstName + " " + lastName
    }

    /**
     * `age`: whole years since birth, never negative. `yearsSinceBirth` is
     * the calendar's year component between `birthDate` and now, which may
     * be missing.
     */
    function Age(yearsSinceBirth: Option<int>): (a: int)
      ensures a >= 0
      ensures yearsSinceBirth.Some? && yearsSinceBirth.value >= 0 ==> a == yearsSinceBirth.value
      ensures yearsSinceBirth.None? || yearsSinceBirth.value < 0 ==> a == 0
    {
      var years := yearsSinceBirth.GetOr(0);
      if 0 >= years then 0 else years
    }
  }

  /** The initializer's defaults: no middle name and no second street line. */
  lemma InitDefaults(id: Uuid, firstName: string, lastName: string, medicalRecordNumber: string,
                     birthDate: Date, streetLine1: string, city: string, state: string,
                     postalCode: string, country: string)
    ensures var p := Patient(id, firstName, lastName := lastName, medicalRecordNumber := medicalRecordNumber,
                             birthDate := birthDate, streetLine1 := streetLine1, city := city, state := state,
                             postalCode := postalCode, country := country);
            && p.middleName == None && p.streetLine2 == None
            && p.id == id && p.firstName == firstName && p.lastName == lastName
            && p.medicalRecordNumber == medicalRecordNumber && p.birthDate == birthDate
            && p.streetLine1 == streetLine1 && p.city == city && p.state == state
            && p.postalCode == postalCode && p.country == country
  {
  }
}
