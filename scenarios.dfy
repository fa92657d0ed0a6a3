/**
  Sequences of reconciliation operations that show behaviour of
  app/routers/payments.py which a reader of its comments might not expect.
*/
module Scenarios {
  import opened Wrappers
  import opened Records
  import opened Processor
  import opened Queries
  import opened Reconcile
  import Properties

  /** A `float` that rejects every string and a `json.dumps` that always gives "{}". */
  function Stub(): Builtins {
    Builtins(s => None, m => "{}")
  }

  function OpenPayment(id: string, status: string): ProcessorPayment {
    ProcessorPayment(Some(id), Some(status), None, None, None)
  }

  /**
    The upsert of `save_payment_to_db` matches on `idempotency_key` only
    (payments.py:30), so a webhook arriving before the create response
    leaves two rows with the same `mollie_id`, on a table that is otherwise
    valid; from then on both `one_or_none()` lookups by that id raise.
  */
  lemma {:induction false} WebhookThenCreateDuplicatesMollieId(t: Table, mid: string, resp: ProcessorPayment, key: string,
                                                              later: ProcessorPayment, b: Builtins, now: Timestamp)
    requires Valid(t) && resp.id == Some(mid)
    requires forall j :: 0 <= j < |t.rows| ==> t.rows[j].mollieId != Some(mid) && t.rows[j].idempotencyKey != Some(key)
    ensures WebhookUpdate(t, mid, Some(resp), b, now).Ok?
    ensures var t1 := WebhookUpdate(t, mid, Some(resp), b, now).value;
      && Save(t1, resp, key, None, b, now).Ok?
      && var t2 := Save(t1, resp, key, None, b, now).value.table;
      && Valid(t2) && |t2.rows| == |t.rows| + 2
      && t2.rows[|t.rows|].mollieId == Some(mid) && t2.rows[|t.rows| + 1].mollieId == Some(mid)
      && Find(t2.rows, ByMollieId(mid)).ManyRows?
      && LocalStatusUpdate(t2, mid, later, now) == Err(MultipleResultsFound)
      && WebhookUpdate(t2, mid, Some(later), b, now) == Err(MultipleResultsFound)
  {
    Properties.WebhookBareInsert(t, mid, resp, b, now);
    var t1 := WebhookUpdate(t, mid, Some(resp), b, now).value;
    assert forall j :: 0 <= j < |t1.rows| ==> t1.rows[j].idempotencyKey != Some(key) by {
      assert t1.rows == t.rows + [t1.rows[|t.rows|]];
    }
    Properties.SaveNewKey(t1, resp, key, None, b, now);
    Properties.WebhookKeepsValid(t, mid, Some(resp), b, now);
    Properties.SaveKeepsValid(t1, resp, key, None, b, now);
    var t2 := Save(t1, resp, key, None, b, now).value.table;
    assert Matches(ByMollieId(mid), t2.rows[|t.rows|]) && Matches(ByMollieId(mid), t2.rows[|t.rows| + 1]);
  }

  /**
    Saving again under a known key without metadata sets `payment_metadata`
    to NULL (payments.py:40): stored metadata is replaced, not preserved.
  */
  lemma ResaveWithoutMetadataErasesIt()
    ensures var row := Payment(1, Some("tr_2"), 10.0, "EUR", None, "open", None, 0, 0, Some("{\"order\": \"42\"}"), Some("key-2"));
      && Save(Table([row], 2), OpenPayment("tr_2", "open"), "key-2", None, Stub(), 5).Ok?
      && var s := Save(Table([row], 2), OpenPayment("tr_2", "open"), "key-2", None, Stub(), 5).value;
      && |s.table.rows| == 1 && s.table.rows[0].metadata.None?
  {
    var row := Payment(1, Some("tr_2"), 10.0, "EUR", None, "open", None, 0, 0, Some("{\"order\": \"42\"}"), Some("key-2"));
    assert Matches(ByKey("key-2"), row);
  }

  /**
    Status is overwritten with no ordering check (payments.py:147): a stale
    "open" delivered after "paid" moves the row back to "open".
  */
  lemma StaleWebhookRegressesStatus()
    ensures var row := Payment(1, Some("tr_3"), 10.0, "EUR", None, "paid", None, 0, 0, None, Some("key-3"));
      && WebhookUpdate(Table([row], 2), "tr_3", Some(OpenPayment("tr_3", "open")), Stub(), 7).Ok?
      && WebhookUpdate(Table([row], 2), "tr_3", Some(OpenPayment("tr_3", "open")), Stub(), 7).value.rows[0].status == "open"
  {
    var row := Payment(1, Some("tr_3"), 10.0, "EUR", None, "paid", None, 0, 0, None, Some("key-3"));
    assert Matches(ByMollieId("tr_3"), row);
  }
}
