/**
  ConsoleService.ValidateInput: the rule the console applies to every typed
  answer before accepting it.
*/
module ConsoleInput {
  import opened Wrappers
  import opened Text

  datatype ValidationResult = Valid | Invalid(message: string)

  const TooShortText := "[red]Value too short[/]"
  const TooLongText := "[red]Value too long[/]"
  const MinLength := 3
  const MaxLength := 200

  /** Blank or shorter than three UTF-16 code units. */
  predicate IsTooShort(value: Option<string>) {
    IsNullOrWhiteSpace(value) || Utf16Length(value.value) < MinLength
  }

  /** `ValidateInput(value, allowEmptyValue, validateLength)`. */
  function ValidateInput(value: Option<string>, allowEmptyValue: bool, validateLength: bool): (r: ValidationResult)
    ensures r == Invalid(TooShortText) <==> !allowEmptyValue && IsTooShort(value)
    ensures r == Invalid(TooLongText) <==>
      !(!allowEmptyValue && IsTooShort(value)) && validateLength && value.Some? && Utf16Length(value.value) > MaxLength
    ensures r.Valid? || r == Invalid(TooShortText) || r == Invalid(TooLongText)
  {
    if !allowEmptyValue && IsTooShort(value) then Invalid(TooShortText)
    else if validateLength && value.Some? && Utf16Length(value.value) > MaxLength then Invalid(TooLongText)
    else Valid
  }

  /** A value is accepted exactly when it is neither too short (when that is
      checked) nor too long (when that is checked). */
  lemma ValidateInputAccepts(value: Option<string>, allowEmptyValue: bool, validateLength: bool)
    ensures ValidateInput(value, allowEmptyValue, validateLength).Valid? <==>
      (allowEmptyValue || !IsTooShort(value)) && !(validateLength && value.Some? && Utf16Length(value.value) > MaxLength)
  {
  }

  /** The short check comes first: a blank value longer than 200 characters
      is reported as too short. */
  lemma TooShortTakesPrecedence(value: Option<string>, validateLength: bool)
    requires IsNullOrWhiteSpace(value)
    ensures ValidateInput(value, false, validateLength) == Invalid(TooShortText)
  {
  }

  /** Nothing is checked when blanks are allowed and the length is not. */
  lemma EverythingPassesWithoutChecks(value: Option<string>)
    ensures ValidateInput(value, true, false) == Valid
  {
  }

  /** A non-blank value of 3 to 200 code units passes under every flag setting. */
  lemma InRangeAlwaysPasses(value: string, allowEmptyValue: bool, validateLength: bool)
    requires !AllWhiteSpace(value) && MinLength <= Utf16Length(value) <= MaxLength
    ensures ValidateInput(Some(value), allowEmptyValue, validateLength) == Valid
  {
  }

  /** Without characters beyond the Basic Multilingual Plane the limits are
      plain character counts: a non-blank value of 3 to 200 characters passes,
      and one of more than 200 fails the length check. */
  lemma PlaneZeroLimitsAreCharacterCounts(value: string, allowEmptyValue: bool)
    requires !AllWhiteSpace(value) && forall i :: 0 <= i < |value| ==> value[i] as int < 0x1_0000
    ensures MinLength <= |value| <= MaxLength ==> ValidateInput(Some(value), allowEmptyValue, true) == Valid
    ensures |value| > MaxLength ==> ValidateInput(Some(value), true, true) == Invalid(TooLongText)
  {
    Utf16LengthBounds(value);
  }

  /** A character beyond the Basic Multilingual Plane is a surrogate pair and
      counts twice: two emoji are long enough, and 101 of them are too long. */
  lemma SurrogatePairsCountTwice(emoji: char, n: nat)
    requires emoji as int >= 0x1_0000
    ensures Utf16Length(seq(n, _ => emoji)) == 2 * n
    ensures ValidateInput(Some([emoji, emoji]), false, true) == Valid
    ensures n > MaxLength / 2 ==> ValidateInput(Some(seq(n, _ => emoji)), true, true) == Invalid(TooLongText)
  {
    Repeated(emoji, n);
    Repeated(emoji, 2);
    assert [emoji, emoji] == seq(2, _ => emoji);
  }

  lemma {:induction false} Repeated(c: char, n: nat)
    ensures Utf16Length(seq(n, _ => c)) == n * Utf16Units(c)
  {
    if n > 0 {
      assert seq(n, _ => c)[1..] == seq(n - 1, _ => c);
      Repeated(c, n - 1);
    }
  }

  /** A missing value passes once blanks are allowed, whatever the length flag. */
  lemma NullPassesWhenAllowed(validateLength: bool)
    ensures ValidateInput(None, true, validateLength) == Valid
  {
  }
}
