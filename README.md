# Payment reconciliation of the Mollie relay service

This project models the local `payment` table of a small FastAPI service that
relays payments to the Mollie processor, and the four operations of
`app/routers/payments.py` that create and update its rows:

- `save_payment_to_db`: after a create call, upsert the processor's response
  keyed on `idempotency_key` only;
- the local update inside `payment_status`: refresh `status` and `updated_at`
  of the row with the polled `mollie_id`, never insert;
- the intake guard of `webhook`: reject a payload without an `id`, otherwise
  schedule one follow-up for that id and answer `{"status": "accepted"}`;
- `handle_webhook_update`: fetch the payment, refresh the matching row's
  status, or insert a bare row without metadata or idempotency key.

Files and modules:

- `wrappers.dfy` (`Wrappers`): `Option` and `Result`.
- `records.dfy` (`Records`): the `Payment` row of `app/models.py`, its
  defaults `"EUR"` and `"open"`, and the failures a handler can end with.
- `processor.dfy` (`Processor`): the processor's payment JSON (`None` is an
  absent key), the `mollie_json.get(...)` extraction, the amount fallback to
  0, the metadata encoding and the validated `payment_status` reply.
- `queries.dfy` (`Queries`): `select(Payment).where(...)` and
  `one_or_none()`, which gives no row, the one row, or raises when several
  rows match.
- `reconcile.dfy` (`Reconcile`): the table as a value with its invariant
  `Valid` (ids increase and stay below the next id, at most one row per
  non-null idempotency key) and one function per operation.
- `properties.dfy` (`Properties`): what each operation adds, what it may
  change, and that it keeps `Valid`.
- `scenarios.dfy` (`Scenarios`): sequences of operations that show behaviour a reader of the
  comments might not expect.
- `store.dfy` (`Store`): class `PaymentStore`, whose `rows` and `nextId`
  fields the methods reassign statement by statement as the router does,
  each method specified by the function of `Reconcile` for its operation.

The clock, Python's `float()` and `json.dumps` are inputs: `now` is a
parameter, and the last two form the `Builtins` value. A processor fetch
is an `Option<ProcessorPayment>`, where `None` means the call raised.

Where the code differs from what the comment at `app/routers/payments.py:29`,
or a reader, might expect, the model follows the code:

- The comment at `app/routers/payments.py:29` speaks of an upsert "by
  idempotency_key or mollie_id", but the query at line 30 matches only the
  key. `mollie_id` is therefore not unique. `Scenarios.WebhookThenCreateDuplicatesMollieId`
  shows how a webhook that arrives before the create response leaves two
  rows with the same id. After that, both lookups by that id raise.
- On an update, `save_payment_to_db` overwrites `mollie_id` whatever it held.
  It also replaces the stored metadata, with NULL when the caller supplies
  none or an empty dict (`Properties.SaveExistingKey`,
  `Scenarios.ResaveWithoutMetadataErasesIt`).
- The status is overwritten with no ordering check, so a stale webhook can
  move a row back to an earlier status
  (`Scenarios.StaleWebhookRegressesStatus`).
- `payment_status` builds its validated reply, which requires an `id` and a
  `status` (`app/schemas.py:17-19`), before it touches the table. The
  fallback to the stored status at line 111 is therefore never used on
  that path (`Properties.PaymentStatusTakesResponseStatus`). It is used on
  the webhook path, at line 147.

## Model

| member | source | states |
|---|---|---|
| `Processor.Currency` | app/routers/payments.py:20 | the currency is the response's `amount.currency`, and `"EUR"` when `amount` or its currency is absent |
| `Processor.CheckoutUrl` | app/routers/payments.py:21 | a checkout URL exists exactly when `_links.checkout.href` is present, and then equals it |
| `Processor.CreateAmount` | app/routers/payments.py:19-27 | the stored amount is the parsed `amount.value`, and 0 when the value is missing or does not parse |
| `Processor.WebhookAmount` | app/routers/payments.py:152-156 | the bare row's amount is the parsed value, and 0 when it is missing, empty or does not parse |
| `Processor.AmountPathsAgree` | app/routers/payments.py:152-156 | since `float("")` raises, the create and webhook guards give the same amount for every response |
| `Processor.EncodeMetadata` | app/routers/payments.py:40 | metadata is stored exactly when a non-empty dict is supplied, and then as its `json.dumps` text |
| `Processor.StatusView` | app/routers/payments.py:96-103 | the status reply validates exactly when the response has an id and a status, and then carries them, the response's amount, description, checkout URL and the raw response |
| `Queries.Select` | app/routers/payments.py:30-31 | the query returns, in increasing order, the positions of exactly the rows matching the WHERE clause |
| `Queries.Find` | app/routers/payments.py:32 | `one_or_none()` gives no row iff none matches, the only matching row when one matches, and raises iff two rows match |
| `Reconcile.Refreshed` | app/routers/payments.py:111-112 | a refreshed row differs only in status and `updated_at`, takes the response status, and keeps the old one when there is none |
| `Reconcile.Save` | app/routers/payments.py:17-60 | the upsert raises `MultipleResultsFound` exactly when two rows carry the key, and fails in no other way |
| `Reconcile.LocalStatusUpdate` | app/routers/payments.py:106-113 | the local update never adds a row, and raises `MultipleResultsFound` exactly when two rows carry the polled `mollie_id` |
| `Reconcile.PaymentStatusFlow` | app/routers/payments.py:87-115 | a failed fetch answers `UpstreamFailed`, a response without id or status `ResponseInvalid`, two rows with the `mollie_id` `MultipleResultsFound`; the handler succeeds exactly when the fetch succeeds, the reply validates and at most one row has the `mollie_id`; every failure leaves the table unchanged; success is the validated reply plus the local update |
| `Reconcile.WebhookIntake` | app/routers/payments.py:124-131 | the webhook is rejected with 400 iff the id is absent or empty; otherwise it answers "accepted" and schedules exactly that id |
| `Reconcile.WebhookUpdate` | app/routers/payments.py:133-167 | a failed fetch leaves the table unchanged; the task raises `MultipleResultsFound` exactly when the fetch succeeds and two rows have the `mollie_id` |
| `Properties.KeyLookupNeverRaises` | app/routers/payments.py:30-32 | with unique keys, the lookup by idempotency key never raises |
| `Properties.SavedRowReflectsResponse` | app/routers/payments.py:33-56 | the saved row's `mollie_id`, checkout URL, amount, currency, description, status (default "open"), metadata, key and `updated_at` are those of the response and the call |
| `Properties.SaveExistingKey` | app/routers/payments.py:33-45 | with the key present, that row is overwritten in place: same count, id and `created_at`, metadata replaced, all other rows unchanged |
| `Properties.SaveNewKey` | app/routers/payments.py:46-60 | with the key absent, exactly one row is appended, with the next id, that key and both timestamps `now` |
| `Properties.SaveKeepsValid` | app/routers/payments.py:29-60 | on a valid table the upsert never raises and keeps ids increasing and idempotency keys unique |
| `Properties.SaveTwiceKeepsOneRow` | app/routers/payments.py:29-60 | a second save with the same key adds no row, updates the row the first save produced, and every row with the key is that row, in a table that stays valid |
| `Properties.LocalStatusUpdateFrame` | app/routers/payments.py:106-113 | the poll update keeps the count and changes only status and `updated_at`, only of rows with that `mollie_id`, keeping the old status when the response has none |
| `Properties.LocalStatusUpdateNoMatch` | app/routers/payments.py:107-110 | with no row for that `mollie_id`, the table is unchanged |
| `Properties.PaymentStatusKeepsValid` | app/routers/payments.py:87-115 | the status handler keeps a valid table valid, whatever it answers |
| `Properties.PaymentStatusTakesResponseStatus` | app/routers/payments.py:96-112 | when the handler succeeds, a matched row always takes the response's own status |
| `Properties.WebhookExistingRow` | app/routers/payments.py:143-149 | a matched webhook refreshes only that row's status and `updated_at` and inserts nothing |
| `Properties.WebhookBareInsert` | app/routers/payments.py:150-167 | with no match, exactly one bare row is appended: the response's id, amount, currency, description and checkout URL, status default "open", no metadata, no idempotency key |
| `Properties.WebhookKeepsValid` | app/routers/payments.py:133-167 | the webhook task keeps a valid table valid, since its bare rows carry no key |
| `Scenarios.WebhookThenCreateDuplicatesMollieId` | app/routers/payments.py:29-32 | a webhook, then a create for the same payment, leaves two rows with one `mollie_id` on a valid table, and later lookups by it raise |
| `Scenarios.ResaveWithoutMetadataErasesIt` | app/routers/payments.py:40 | saving under a known key without metadata turns stored metadata into NULL |
| `Scenarios.StaleWebhookRegressesStatus` | app/routers/payments.py:147 | a late "open" webhook moves a "paid" row back to "open" |
| `Store.PaymentStore.SavePayment` | app/routers/payments.py:17-60 | the store changes exactly as `Save` says, stays valid, and returns the saved row |
| `Store.PaymentStore.PaymentStatus` | app/routers/payments.py:87-115 | the reply and the new table are those of `PaymentStatusFlow`, and the store stays valid |
| `Store.PaymentStore.HandleWebhookUpdate` | app/routers/payments.py:133-167 | the store becomes the table `WebhookUpdate` gives, or stays as it was when the task raises, and stays valid |

## Left out

- Save, SavedRowReflectsResponse, SaveNewKey and Store.PaymentStore.SavePayment assume that the `payment_metadata=` keyword of the insert at `app/routers/payments.py:54` is honoured, so a new row stores the encoded metadata. `app/models.py:15` declares that field with `alias="metadata"`, and `app/config.py:1` uses pydantic v1. Under pydantic v1 a field is filled only from its alias unless population by field name is enabled, so the keyword may be dropped and the new row's metadata left NULL. That depends on library behaviour the model does not cover. The update path at line 40 assigns the attribute directly and is not affected.
- The HTTP layer. FastAPI routing, status codes other than the webhook's 400, the `X-API-KEY` check (`app/utils.py`) and CORS are framework concerns.
- `create_payment` (`app/routers/payments.py:62-85`): only its call to `save_payment_to_db` is modelled. The request and response shapes (`CreatePaymentIn`, `CreatePaymentOut`) are framework concerns.
- The processor client (`app/services/mollie.py`) is network I/O, so it is not modelled. A fetch is an input, with `None` for a call that raised. The idempotency key it picks (the caller's, or else a fresh `uuid4`) is the `key` argument of `SavePayment`.
- JSON `null` for a present key is treated like an absent key. In Python, `.get(k, default)` would return `None` there, and a nested `.get` on a `null` object would raise. The model does not cover those crashes.
- Non-string or non-object JSON values are not modelled: a numeric `amount.value`, a webhook `id` such as `0`, or a payload that is not an object.
- Python float semantics (`nan`, `inf`, rounding) are not modelled. `float()` is an arbitrary partial parser into `real`; only the fallback to 0 is modelled.
- `json.dumps` is an arbitrary function of the metadata dict. Metadata values are modelled as strings because the code never reads them.
- Wall-clock time is a `now` parameter. On insert, `created_at` and `updated_at` both take `now`, while the source reads the clock once for each.
- Concurrency is not modelled. Sessions, commits, the atomicity of read-then-write across concurrent requests, and `BackgroundTasks` scheduling are out of scope. Each operation is one sequential step, and running the scheduled webhook task is a separate call.
- Database failures on commit and the columns' NOT NULL constraints are not modelled. With absent-key semantics no NULL can reach `currency` or `status`.
- Surrogate ids are modelled as a counter that starts at 1 and grows by one per insert, in a table that is never deleted from. How the configured database engine actually assigns primary keys is not modelled.
