/**
  The `payment` table as the router changes it: a store object whose methods
  follow app/routers/payments.py statement by statement and are specified by
  the functions of module Reconcile.
*/
module Store {
  import opened Wrappers
  import opened Records
  import opened Processor
  import opened Queries
  import opened Reconcile
  import Properties

  class PaymentStore {
    var rows: seq<Payment>
    var nextId: nat

    function Snapshot(): Table
      reads this
    {
      Table(rows, nextId)
    }

    ghost predicate Valid()
      reads this
    {
      Reconcile.Valid(Snapshot())
    }

    /** An empty table; ids are handed out from 1. */
    constructor ()
      ensures Valid() && rows == [] && nextId == 1
    {
      rows := [];
      nextId := 1;
    }

    /** `save_payment_to_db` (payments.py:17-60). */
    method SavePayment(resp: ProcessorPayment, key: string, md: Option<Metadata>, b: Builtins, now: Timestamp)
      returns (saved: Payment)
      requires Valid()
      modifies this
      ensures Valid()
      ensures Save(old(Snapshot()), resp, key, md, b, now) == Ok(Saved(Snapshot(), saved))
    {
      Properties.SaveKeepsValid(Snapshot(), resp, key, md, b, now);
      var amount := CreateAmount(resp, b);
      var found := Find(rows, ByKey(key));
      if found.OneRow? {
        var row := rows[found.index];
        row := row.(mollieId := resp.id);
        row := row.(checkoutUrl := CheckoutUrl(resp));
        row := row.(amount := amount);
        row := row.(currency := Currency(resp));
        row := row.(description := resp.description);
        row := row.(status := StatusOr(resp, DefaultStatus));
        row := row.(metadata := EncodeMetadata(md, b));
        row := row.(updatedAt := now);
        rows := rows[found.index := row];
        saved := row;
      } else {
        assert found.NoRow?;
        saved := Payment(nextId, resp.id, amount, Currency(resp), resp.description, StatusOr(resp, DefaultStatus),
                         CheckoutUrl(resp), now, now, EncodeMetadata(md, b), Some(key));
        rows := rows + [saved];
        nextId := nextId + 1;
      }
    }

    /** `payment_status` (payments.py:87-115): the reply, and the local row refreshed when it exists. */
    method PaymentStatus(mollieId: string, fetched: Option<ProcessorPayment>, now: Timestamp)
      returns (reply: Result<StatusOut, Failure>)
      requires Valid()
      modifies this
      ensures Valid()
      ensures PaymentStatusFlow(old(Snapshot()), mollieId, fetched, now) == Handled(reply, Snapshot())
    {
      Properties.PaymentStatusKeepsValid(Snapshot(), mollieId, fetched, now);
      if fetched.None? {
        return Err(UpstreamFailed);
      }
      var resp := fetched.value;
      var out := StatusView(resp);
      if out.Err? {
        return Err(out.error);
      }
      var found := Find(rows, ByMollieId(mollieId));
      match found
      case ManyRows =>
        reply := Err(MultipleResultsFound);
      case NoRow =>
        reply := Ok(out.value);
      case OneRow(i) =>
        var row := rows[i];
        row := row.(status := StatusOr(resp, row.status));
        row := row.(updatedAt := now);
        rows := rows[i := row];
        reply := Ok(out.value);
    }

    /** `handle_webhook_update` (payments.py:133-167); `raised` is what escapes the background task. */
    method HandleWebhookUpdate(mollieId: string, fetched: Option<ProcessorPayment>, b: Builtins, now: Timestamp)
      returns (raised: Option<Failure>)
      requires Valid()
      modifies this
      ensures Valid()
      ensures match WebhookUpdate(old(Snapshot()), mollieId, fetched, b, now)
              case Ok(t) => Snapshot() == t && raised.None?
              case Err(e) => Snapshot() == old(Snapshot()) && raised == Some(e)
    {
      if fetched.None? {
        return None;
      }
      var resp := fetched.value;
      var found := Find(rows, ByMollieId(mollieId));
      match found
      case ManyRows =>
        raised := Some(MultipleResultsFound);
      case OneRow(i) =>
        Properties.WebhookKeepsValid(Snapshot(), mollieId, fetched, b, now);
        var row := rows[i];
        row := row.(status := StatusOr(resp, row.status));
        row := row.(updatedAt := now);
        rows := rows[i := row];
        raised := None;
      case NoRow =>
        Properties.WebhookKeepsValid(Snapshot(), mollieId, fetched, b, now);
        var row := Payment(nextId, resp.id, WebhookAmount(resp, b), Currency(resp), resp.description,
                           StatusOr(resp, DefaultStatus), CheckoutUrl(resp), now, now, None, None);
        rows := rows + [row];
        nextId := nextId + 1;
        raised := None;
    }
  }

  /**
    A create followed by a status poll and a webhook for the same payment:
    what a caller can conclude from the method contracts alone.
  */
  method CreatePollNotify(b: Builtins)
  {
    var store := new PaymentStore();
    var created := ProcessorPayment(Some("tr_9"), None, None, None, None);
    var row := store.SavePayment(created, "key-9", None, b, 1);
    assert row.status == DefaultStatus && row.idempotencyKey == Some("key-9") && row.metadata.None?;
    assert store.rows == [row];
    var paid := ProcessorPayment(Some("tr_9"), Some("paid"), None, None, None);
    var reply := store.PaymentStatus("tr_9", Some(paid), 2);
    assert Find([row], ByMollieId("tr_9")) == OneRow(0);
    assert reply.Ok? && store.rows[0].status == "paid";
    var raised := store.HandleWebhookUpdate("tr_9", None, b, 3);
    assert raised.None? && |store.rows| == 1 && store.rows[0].status == "paid";
  }
}
