/**
 * The text binding the patient edit form puts over an optional field such
 * as `middleName` or `streetLine2`: a text field edits a plain string, and
 * the binding translates between that string and the optional one.
 */
module PatientEditing {
  import opened Wrappers
  import opened Text

  /**
   * `Binding(optional:replacingNilWith:)`. `wrapped` is the optional source
   * the binding writes through to; `placeholder` is what the text field
   * shows while the source is `nil` (the form passes "").
   */
  class OptionalTextBinding {
    var wrapped: Option<string>
    const placeholder: string

    constructor (source: Option<string>, placeholder: string)
      ensures wrapped == source && this.placeholder == placeholder
    {
      wrapped := source;
      this.placeholder := placeholder;
    }

    /** The getter: the stored string when there is one, the placeholder otherwise. */
    function Get(): (text: string)
      reads this
      ensures wrapped.Some? ==> text == wrapped.value
      ensures wrapped.None? ==> text == placeholder
    {
      wrapped.GetOr(placeholder)
    }

    /**
     * The setter: a value that is empty or all whitespace clears the source
     * to `nil`; any other value is stored as typed, untrimmed. Reading back
     * gives the value set, or the placeholder after a blank one.
     */
    method Set(newValue: string)
      modifies this
      ensures IsBlank(newValue) ==> wrapped == None
      ensures !IsBlank(newValue) ==> wrapped == Some(newValue)
      ensures Get() == if IsBlank(newValue) then placeholder else newValue
    {
      var trimmed := Trim(newValue);
      TrimEmptyIffBlank(newValue);
      wrapped := if trimmed == [] then None else Some(newValue);
    }
  }
}
