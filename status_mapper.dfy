/** Translation of the checkout provider's status strings to local payment statuses. */
module StatusMapper {
  import opened Payments

  /** Provider statuses that map to something other than PENDING. */
  const SettledStatuses: set<string> := {
    "AUTHORIZED", "PARTIALLY_CAPTURED", "CAPTURED", "AUTHORIZATION_VOIDED",
    "PARTIALLY_REFUNDED", "REFUNDED", "REJECTED", "FAILED"
  }

  /**
   * A total switch over provider status strings (each provider status equals its
   * enum member's name); every string outside the table, the literal "PENDING"
   * fallback included, maps to PENDING. The ensures read the table column by column:
   * which inputs produce each local status.
   */
  function MapDinteroStatus(dinteroStatus: string): (s: PaymentStatus)
    ensures s != INITIATED
    ensures s == PENDING <==> dinteroStatus !in SettledStatuses
    ensures s == AUTHORIZED <==> dinteroStatus == "AUTHORIZED"
    ensures s == CAPTURED <==> dinteroStatus == "PARTIALLY_CAPTURED" || dinteroStatus == "CAPTURED"
    ensures s == CANCELLED <==> dinteroStatus == "AUTHORIZATION_VOIDED"
    ensures s == REFUNDED <==> dinteroStatus == "PARTIALLY_REFUNDED" || dinteroStatus == "REFUNDED"
    ensures s == FAILED <==> dinteroStatus == "REJECTED" || dinteroStatus == "FAILED"
  {
    if dinteroStatus == "INITIALIZED" || dinteroStatus == "ON_HOLD" then PENDING
    else if dinteroStatus == "AUTHORIZED" then AUTHORIZED
    else if dinteroStatus == "PARTIALLY_CAPTURED" || dinteroStatus == "CAPTURED" then CAPTURED
    else if dinteroStatus == "AUTHORIZATION_VOIDED" then CANCELLED
    else if dinteroStatus == "PARTIALLY_REFUNDED" || dinteroStatus == "REFUNDED" then REFUNDED
    else if dinteroStatus == "REJECTED" || dinteroStatus == "FAILED" then FAILED
    else PENDING
  }

  /** The reconciliation fallback "PENDING" and the provider's waiting states all map to PENDING. */
  lemma WaitingStatesArePending()
    ensures MapDinteroStatus(StatusName(PENDING)) == PENDING
    ensures MapDinteroStatus("INITIALIZED") == PENDING
    ensures MapDinteroStatus("ON_HOLD") == PENDING
    ensures MapDinteroStatus("") == PENDING
  {
  }
}
