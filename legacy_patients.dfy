/**
 * The earlier revision of the patient record, whose address is a separate
 * `PostalAddress` value rather than inline street fields.
 */
module LegacyPatients {
  import opened Wrappers
  import opened Text

  /** `PostalAddress`: the initializer stores each argument; `line2` defaults to `nil`. */
  datatype PostalAddress = PostalAddress(
    line1: string,
    line2: Option<string> := None,
    city: string,
    state: string,
    postalCode: string,
    country: string)

  /** The stored fields; the initializer stores each argument, `middleName` defaults to `nil`. */
  datatype Patient = Patient(
    id: Uuid,
    firstName: string,
    middleName: Option<string> := None,
    lastName: string,
    medicalRecordNumber: string,
    birthDate: Date,
    address: PostalAddress)
  {
    /** `fullName`: as in the current record, a blank middle name is left out. */
    function FullName(): (r: string)
      ensures middleName.Some? && !IsBlank(middleName.value) ==>
                r == firstName + " " + middleName.value + " " + lastName
      ensures middleName.None? || IsBlank(middleName.value) ==>
                r == firstName + " " + lastName
    {
      TrimEmptyIffBlank(middleName.GetOr(""));
      if middleName.Some? && Trim(middleName.value) != [] then
        firstName + " " + middleName.value + " " + lastName
      else
        firstName + " " + lastName
    }

    /** `age`: `max(0, years)`, with a missing year component counted as 0. */
    function Age(yearsSinceBirth: Option<int>): (a: int)
      ensures a >= 0
      ensures yearsSinceBirth.Some? && yearsSinceBirth.value >= 0 ==> a == yearsSinceBirth.value
      ensures yearsSinceBirth.None? || yearsSinceBirth.value < 0 ==> a == 0
    {
      var years := yearsSinceBirth.GetOr(0);
      if 0 >= years then 0 else years
    }
  }

  /** The initializers' defaults: no middle name, no second address line, everything else as given. */
  lemma InitDefaults(id: Uuid, firstName: string, lastName: string, medicalRecordNumber: string,
                     birthDate: Date, line1: string, city: string, state: string,
                     postalCode: string, country: string)
    ensures var a := PostalAddress(line1, city := city, state := state, postalCode := postalCode, country := country);
            && a.line2 == None
            && a.line1 == line1 && a.city == city && a.state == state
            && a.postalCode == postalCode && a.country == country
    ensures var a := PostalAddress(line1, city := city, state := state, postalCode := postalCode, country := country);
            var p := Patient(id, firstName, lastName := lastName, medicalRecordNumber := medicalRecordNumber,
                             birthDate := birthDate, address := a);
            && p.middleName == None && p.address == a
            && p.id == id && p.firstName == firstName && p.lastName == lastName
            && p.medicalRecordNumber == medicalRecordNumber && p.birthDate == birthDate
  {
  }
}
