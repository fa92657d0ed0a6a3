/**
  The reconciliation of the local `payment` table with processor responses,
  app/routers/payments.py, stated on table values: one function per
  operation, each giving the reply and the table after it.
*/
module Reconcile {
  import opened Wrappers
  import opened Records
  import opened Processor
  import opened Queries

  /** The table's rows and the next surrogate id the database will assign. */
  datatype Table = Table(rows: seq<Payment>, nextId: nat)

  /** At most one row carries a given non-null idempotency key. */
  predicate KeysUnique(rows: seq<Payment>) {
    forall i, j :: 0 <= i < |rows| && 0 <= j < |rows| && i != j && rows[i].idempotencyKey.Some? ==>
      rows[i].idempotencyKey != rows[j].idempotencyKey
  }

  /** Ids grow with insertion order and stay below the next id; idempotency keys are unique. */
  predicate Valid(t: Table) {
    && (forall i :: 0 <= i < |t.rows| ==> t.rows[i].id < t.nextId)
    && (forall i, j :: 0 <= i < j < |t.rows| ==> t.rows[i].id < t.rows[j].id)
    && KeysUnique(t.rows)
  }

  /** `q` differs from `p` at most in `status` and `updated_at`. */
  predicate OnlyStatusTouched(p: Payment, q: Payment) {
    q.(status := p.status, updatedAt := p.updatedAt) == p
  }

  /**
    The in-place status refresh of payments.py:111-112 and 147-148: the status
    from the response, the stored one when the response has none, and a new
    `updated_at`.
  */
  function Refreshed(p: Payment, resp: ProcessorPayment, now: Timestamp): (q: Payment)
    ensures OnlyStatusTouched(p, q) && q.updatedAt == now
    ensures resp.status.None? ==> q.status == p.status
    ensures resp.status.Some? ==> q.status == resp.status.value
  {
    p.(status := StatusOr(resp, p.status), updatedAt := now)
  }

  /** The table and the row `save_payment_to_db` returns. */
  datatype Saved = Saved(table: Table, row: Payment)

  /**
    `save_payment_to_db` (payments.py:17-60): upsert keyed on `idempotency_key`
    only. A found row is overwritten field by field, `mollie_id` and
    `payment_metadata` included; otherwise one row is appended.
  */
  function Save(t: Table, resp: ProcessorPayment, key: string, md: Option<Metadata>, b: Builtins, now: Timestamp)
    : (r: Result<Saved, Failure>)
    ensures r.Err? <==> Find(t.rows, ByKey(key)).ManyRows?
    ensures r.Err? ==> r.error == MultipleResultsFound
  {
    match Find(t.rows, ByKey(key))
    case OneRow(i) =>
      var row := t.rows[i].(
        mollieId := resp.id,
        checkoutUrl := CheckoutUrl(resp),
        amount := CreateAmount(resp, b),
        currency := Currency(resp),
        description := resp.description,
        status := StatusOr(resp, DefaultStatus),
        metadata := EncodeMetadata(md, b),
        updatedAt := now);
      Ok(Saved(t.(rows := t.rows[i := row]), row))
    case NoRow =>
      var row := Payment(
        id := t.nextId,
        mollieId := resp.id,
        amount := CreateAmount(resp, b),
        currency := Currency(resp),
        description := resp.description,
        status := StatusOr(resp, DefaultStatus),
        checkoutUrl := CheckoutUrl(resp),
        createdAt := now,
        updatedAt := now,
        metadata := EncodeMetadata(md, b),
        idempotencyKey := Some(key));
      Ok(Saved(Table(t.rows + [row], t.nextId + 1), row))
    case ManyRows => Err(MultipleResultsFound)
  }

  /**
    The local update of `payment_status` (payments.py:106-113): refresh the one
    row whose `mollie_id` is the requested id; never insert.
  */
  function LocalStatusUpdate(t: Table, mollieId: string, resp: ProcessorPayment, now: Timestamp)
    : (r: Result<Table, Failure>)
    ensures r.Ok? ==> r.value.nextId == t.nextId && |r.value.rows| == |t.rows|
    ensures r.Err? <==> Find(t.rows, ByMollieId(mollieId)).ManyRows?
    ensures r.Err? ==> r.error == MultipleResultsFound
  {
    match Find(t.rows, ByMollieId(mollieId))
    case NoRow => Ok(t)
    case OneRow(i) => Ok(t.(rows := t.rows[i := Refreshed(t.rows[i], resp, now)]))
    case ManyRows => Err(MultipleResultsFound)
  }

  /** The reply of a handler and the table it leaves behind. */
  datatype Handled<T> = Handled(reply: Result<T, Failure>, table: Table)

  /**
    `payment_status` (payments.py:87-115): fetch, build the validated reply,
    then update the local row. Every failure leaves the table as it was.
  */
  function PaymentStatusFlow(t: Table, mollieId: string, fetched: Option<ProcessorPayment>, now: Timestamp)
    : (h: Handled<StatusOut>)
    ensures h.reply.Err? ==> h.table == t
    ensures fetched.None? ==> h.reply == Err(UpstreamFailed)
    ensures fetched.Some? && StatusView(fetched.value).Err? ==> h.reply == Err(ResponseInvalid)
    ensures fetched.Some? && StatusView(fetched.value).Ok? && Find(t.rows, ByMollieId(mollieId)).ManyRows? ==>
              h.reply == Err(MultipleResultsFound)
    ensures h.reply.Ok? <==> fetched.Some? && StatusView(fetched.value).Ok? && !Find(t.rows, ByMollieId(mollieId)).ManyRows?
    ensures h.reply.Ok? ==> fetched.Some? && StatusView(fetched.value) == Ok(h.reply.value)
                            && LocalStatusUpdate(t, mollieId, fetched.value, now) == Ok(h.table)
  {
    match fetched
    case None => Handled(Err(UpstreamFailed), t)
    case Some(resp) =>
      match StatusView(resp)
      case Err(e) => Handled(Err(e), t)
      case Ok(out) =>
        match LocalStatusUpdate(t, mollieId, resp, now)
        case Err(e) => Handled(Err(e), t)
        case Ok(t') => Handled(Ok(out), t')
  }

  /** The webhook's answer: 400 with a detail, or `{"status": "accepted"}` plus the scheduled task's id. */
  datatype IntakeReply = Rejected(code: nat, detail: string) | Accepted(status: string, scheduled: string)

  /**
    The intake guard of `webhook` (payments.py:124-131): `if not mollie_id`
    rejects an absent and an empty id; otherwise one follow-up is scheduled
    for exactly that id.
  */
  function WebhookIntake(payloadId: Option<string>): (r: IntakeReply)
    ensures r.Rejected? <==> payloadId.None? || payloadId.value == ""
    ensures r.Rejected? ==> r.code == 400
    ensures r.Accepted? ==> r.status == "accepted" && r.scheduled == payloadId.value
  {
    if payloadId.None? || payloadId.value == "" then Rejected(400, "Missing id in webhook payload")
    else Accepted("accepted", payloadId.value)
  }

  /**
    `handle_webhook_update` (payments.py:133-167). A failed fetch is swallowed
    and changes nothing; a matching row gets its status refreshed; otherwise a
    bare row without metadata or idempotency key is appended, carrying the
    response's own id.
  */
  function WebhookUpdate(t: Table, mollieId: string, fetched: Option<ProcessorPayment>, b: Builtins, now: Timestamp)
    : (r: Result<Table, Failure>)
    ensures fetched.None? ==> r == Ok(t)
    ensures r.Err? <==> fetched.Some? && Find(t.rows, ByMollieId(mollieId)).ManyRows?
    ensures r.Err? ==> r.error == MultipleResultsFound
  {
    match fetched
    case None => Ok(t)
    case Some(resp) =>
      match Find(t.rows, ByMollieId(mollieId))
      case OneRow(i) => Ok(t.(rows := t.rows[i := Refreshed(t.rows[i], resp, now)]))
      case NoRow =>
        var row := Payment(
          id := t.nextId,
          mollieId := resp.id,
          amount := WebhookAmount(resp, b),
          currency := Currency(resp),
          description := resp.description,
          status := StatusOr(resp, DefaultStatus),
          checkoutUrl := CheckoutUrl(resp),
          createdAt := now,
          updatedAt := now,
          metadata := None,
          idempotencyKey := None);
        Ok(Table(t.rows + [row], t.nextId + 1))
      case ManyRows => Err(MultipleResultsFound)
  }
}
