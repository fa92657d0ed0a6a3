/**
  The `Payment` table row (app/models.py) and the failures the payment router
  can surface while reconciling it.
*/
module Records {
  import opened Wrappers

  /** A `datetime.utcnow()` reading; the clock is an input of every operation. */
  type Timestamp = int

  /** Column defaults of app/models.py that the router also uses as JSON fallbacks. */
  const DefaultCurrency: string := "EUR"
  const DefaultStatus: string := "open"

  /** One row of the `payment` table. `None` is SQL NULL. */
  datatype Payment = Payment(
    id: nat,                        // surrogate primary key, assigned on insert
    mollieId: Option<string>,       // processor payment id
    amount: real,
    currency: string,
    description: Option<string>,
    status: string,
    checkoutUrl: Option<string>,
    createdAt: Timestamp,
    updatedAt: Timestamp,
    metadata: Option<string>,       // `payment_metadata`: JSON text of the caller's metadata
    idempotencyKey: Option<string>
  )

  /** Why a handler or the webhook task stops without committing. */
  datatype Failure =
    | UpstreamFailed          // the processor fetch raised (HTTP 400 to the status caller)
    | ResponseInvalid         // the status reply failed validation (id or status missing)
    | MultipleResultsFound    // `one_or_none()` saw more than one matching row
}
