/** The field rule shared by the domain entities (`ValidateRequired` in
    Project, WebhookDelivery, AppUser and RefreshToken, and `ValidateTitle`
    in Task): a value must not be blank, is stored trimmed, and its trimmed
    form must not exceed a maximum length. */
module Required {
  import opened Common
  import opened Text

  /** The message of the blank-value failure, `"{field} is required."`. */
  function RequiredMessage(field: string): string {
    field + " is required."
  }

  /** The message of the too-long failure, `"{field} must be {max} characters or fewer."`. */
  function TooLongMessage(field: string, maxLength: nat): string {
    field + " must be " + NatToString(maxLength) + " characters or fewer."
  }

  /** The error the rule throws for a refused value: the blank-value message
      when it is blank, the too-long message otherwise. */
  function FieldError(value: string, field: string, maxLength: nat): Error {
    DomainRule(if IsBlank(value) then RequiredMessage(field) else TooLongMessage(field, maxLength))
  }

  /** A value as the entities store it: non-blank, trimmed, within the limit. */
  predicate StoredForm(value: string, maxLength: nat) {
    value != [] && IsTrimmed(value) && |value| <= maxLength
  }

  function ValidateRequired(value: string, field: string, maxLength: nat): (r: Result<string>)
    ensures r.Ok? <==> !IsBlank(value) && |Trim(value)| <= maxLength
    ensures r.Ok? ==> r.value == Trim(value) && StoredForm(r.value, maxLength)
    ensures r.Fail? && IsBlank(value) ==> r.error == DomainRule(RequiredMessage(field))
    ensures r.Fail? && !IsBlank(value) ==> r.error == DomainRule(TooLongMessage(field, maxLength))
    ensures r.Fail? ==> r.error == FieldError(value, field, maxLength)
  {
    if IsBlank(value) then
      Fail(DomainRule(RequiredMessage(field)))
    else
      var trimmed := Trim(value);
      TrimIdempotent(value);
      if |trimmed| > maxLength then
        Fail(DomainRule(TooLongMessage(field, maxLength)))
      else
        Ok(trimmed)
  }

  /** A value already in stored form passes the rule unchanged. */
  lemma StoredFormRevalidates(value: string, field: string, maxLength: nat)
    requires StoredForm(value, maxLength)
    ensures ValidateRequired(value, field, maxLength) == Ok(value)
  {
    TrimOfTrimmed(value);
  }
}
