/** The ledger entry recorded for each processed webhook delivery, which makes
    a redelivery of the same delivery id a no-op. */
module WebhookDeliveries {
  import opened Common
  import opened Text
  import opened Required

  const MaxDeliveryIdLength: nat := 100
  const MaxEventNameLength: nat := 50

  datatype DeliveryRow = DeliveryRow(id: Guid, deliveryId: string, eventName: string, receivedAt: Instant)

  predicate WellFormed(d: DeliveryRow) {
    StoredForm(d.deliveryId, MaxDeliveryIdLength) && StoredForm(d.eventName, MaxEventNameLength)
  }

  /** The constructor `WebhookDelivery(deliveryId, eventName, receivedAt)`. */
  function NewDelivery(id: Guid, deliveryId: string, eventName: string,
                       receivedAt: Option<Instant>, now: Instant): (r: Result<DeliveryRow>)
    ensures r.Ok? <==> ValidateRequired(deliveryId, "deliveryId", MaxDeliveryIdLength).Ok?
                       && ValidateRequired(eventName, "eventName", MaxEventNameLength).Ok?
    ensures ValidateRequired(deliveryId, "deliveryId", MaxDeliveryIdLength).Fail? ==>
      r == Fail(FieldError(deliveryId, "deliveryId", MaxDeliveryIdLength))
    ensures ValidateRequired(deliveryId, "deliveryId", MaxDeliveryIdLength).Ok?
            && ValidateRequired(eventName, "eventName", MaxEventNameLength).Fail? ==>
      r == Fail(FieldError(eventName, "eventName", MaxEventNameLength))
    ensures r.Fail? ==> r.error.DomainRule?
    ensures r.Ok? ==>
      && WellFormed(r.value)
      && r.value == DeliveryRow(id, Trim(deliveryId), Trim(eventName), receivedAt.GetOr(now))
  {
    var validId :- ValidateRequired(deliveryId, "deliveryId", MaxDeliveryIdLength);
    var validEvent :- ValidateRequired(eventName, "eventName", MaxEventNameLength);
    Ok(DeliveryRow(id, validId, validEvent, receivedAt.GetOr(now)))
  }

  /** The id and the event name must both pass the field rule; a blank id is
      reported first. */
  lemma NewDeliveryAccepts(id: Guid, deliveryId: string, eventName: string, receivedAt: Option<Instant>, now: Instant)
    ensures NewDelivery(id, deliveryId, eventName, receivedAt, now).Ok? <==>
      && !IsBlank(deliveryId) && |Trim(deliveryId)| <= MaxDeliveryIdLength
      && !IsBlank(eventName) && |Trim(eventName)| <= MaxEventNameLength
    ensures IsBlank(deliveryId) ==>
      NewDelivery(id, deliveryId, eventName, receivedAt, now) == Fail(DomainRule("deliveryId is required."))
    ensures !IsBlank(deliveryId) && |Trim(deliveryId)| > MaxDeliveryIdLength ==>
      NewDelivery(id, deliveryId, eventName, receivedAt, now)
        == Fail(DomainRule(TooLongMessage("deliveryId", MaxDeliveryIdLength)))
  {
  }
}
