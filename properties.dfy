/**
  What the reconciliation operations of app/routers/payments.py guarantee:
  how many rows each one adds, which rows and fields it may change, and that
  the idempotency key stays unique.
*/
module Properties {
  import opened Wrappers
  import opened Records
  import opened Processor
  import opened Queries
  import opened Reconcile

  /** Under the key invariant the `idempotency_key` lookup of `save_payment_to_db` never raises. */
  lemma KeyLookupNeverRaises(rows: seq<Payment>, key: string)
    requires KeysUnique(rows)
    ensures !Find(rows, ByKey(key)).ManyRows?
  {
  }

  /** The row `save_payment_to_db` returns carries every value extracted from the response, and the key. */
  lemma SavedRowReflectsResponse(t: Table, resp: ProcessorPayment, key: string, md: Option<Metadata>, b: Builtins, now: Timestamp)
    requires Save(t, resp, key, md, b, now).Ok?
    ensures var row := Save(t, resp, key, md, b, now).value.row;
      && row.mollieId == resp.id
      && row.checkoutUrl == CheckoutUrl(resp)
      && row.amount == CreateAmount(resp, b)
      && row.currency == Currency(resp)
      && row.description == resp.description
      && row.status == StatusOr(resp, DefaultStatus)
      && row.metadata == EncodeMetadata(md, b)
      && row.idempotencyKey == Some(key)
      && row.updatedAt == now
  {
  }

  /**
    With the key already present, `save_payment_to_db` overwrites that row in
    place: same count, same id and creation time, every other row untouched,
    and the stored metadata replaced (NULL when none is supplied).
  */
  lemma SaveExistingKey(t: Table, i: nat, resp: ProcessorPayment, key: string, md: Option<Metadata>, b: Builtins, now: Timestamp)
    requires Valid(t) && i < |t.rows| && t.rows[i].idempotencyKey == Some(key)
    ensures Save(t, resp, key, md, b, now).Ok?
    ensures var s := Save(t, resp, key, md, b, now).value;
      && |s.table.rows| == |t.rows| && s.table.nextId == t.nextId
      && s.table.rows[i] == s.row
      && s.row.id == t.rows[i].id && s.row.createdAt == t.rows[i].createdAt
      && s.row.metadata == EncodeMetadata(md, b)
      && (forall j :: 0 <= j < |t.rows| && j != i ==> s.table.rows[j] == t.rows[j])
  {
    var f := Find(t.rows, ByKey(key));
    if !f.OneRow? {
      KeyLookupNeverRaises(t.rows, key);
      assert Matches(ByKey(key), t.rows[i]);
      assert false;
    }
    assert f.index == i by {
      if f.index != i {
        assert Matches(ByKey(key), t.rows[i]);
        assert false;
      }
    }
  }

  /** With the key absent, `save_payment_to_db` appends exactly one row, new id, carrying that key. */
  lemma SaveNewKey(t: Table, resp: ProcessorPayment, key: string, md: Option<Metadata>, b: Builtins, now: Timestamp)
    requires forall i :: 0 <= i < |t.rows| ==> t.rows[i].idempotencyKey != Some(key)
    ensures Save(t, resp, key, md, b, now).Ok?
    ensures var s := Save(t, resp, key, md, b, now).value;
      && s.table.rows == t.rows + [s.row] && s.table.nextId == t.nextId + 1
      && s.row.id == t.nextId && s.row.idempotencyKey == Some(key)
      && s.row.createdAt == now && s.row.updatedAt == now
  {
    assert Find(t.rows, ByKey(key)).NoRow?;
  }

  /** `save_payment_to_db` never raises on a valid table and keeps it valid. */
  lemma SaveKeepsValid(t: Table, resp: ProcessorPayment, key: string, md: Option<Metadata>, b: Builtins, now: Timestamp)
    requires Valid(t)
    ensures Save(t, resp, key, md, b, now).Ok?
    ensures Valid(Save(t, resp, key, md, b, now).value.table)
  {
    KeyLookupNeverRaises(t.rows, key);
    var f := Find(t.rows, ByKey(key));
    var t' := Save(t, resp, key, md, b, now).value.table;
    if f.OneRow? {
      var i := f.index;
      assert forall j :: 0 <= j < |t.rows| ==>
               t'.rows[j].id == t.rows[j].id && t'.rows[j].idempotencyKey == t.rows[j].idempotencyKey;
    } else {
      assert t'.rows == t.rows + [t'.rows[|t.rows|]];
      forall i, j | 0 <= i < |t'.rows| && 0 <= j < |t'.rows| && i != j && t'.rows[i].idempotencyKey.Some?
        ensures t'.rows[i].idempotencyKey != t'.rows[j].idempotencyKey
      {
        if i == |t.rows| {
          assert !Matches(ByKey(key), t.rows[j]);
        } else if j == |t.rows| {
          assert !Matches(ByKey(key), t.rows[i]);
        }
      }
    }
  }

  /**
    Calling `save_payment_to_db` again with the same key never creates a
    second row: the second call keeps the count, updates the row the first
    call produced, and that row is the only one with the key.
  */
  lemma SaveTwiceKeepsOneRow(t: Table, resp1: ProcessorPayment, resp2: ProcessorPayment, key: string,
                             md1: Option<Metadata>, md2: Option<Metadata>, b: Builtins, now1: Timestamp, now2: Timestamp)
    requires Valid(t)
    ensures Save(t, resp1, key, md1, b, now1).Ok?
    ensures var s1 := Save(t, resp1, key, md1, b, now1).value;
      && |s1.table.rows| <= |t.rows| + 1
      && Save(s1.table, resp2, key, md2, b, now2).Ok?
      && var s2 := Save(s1.table, resp2, key, md2, b, now2).value;
      && Valid(s2.table)
      && |s2.table.rows| == |s1.table.rows|
      && s2.row.id == s1.row.id
      && forall j :: 0 <= j < |s2.table.rows| && s2.table.rows[j].idempotencyKey == Some(key) ==> s2.table.rows[j] == s2.row
  {
    SaveKeepsValid(t, resp1, key, md1, b, now1);
    var s1 := Save(t, resp1, key, md1, b, now1).value;
    var k := SavedRowIndex(t, resp1, key, md1, b, now1);
    SavedRowReflectsResponse(t, resp1, key, md1, b, now1);
    SaveExistingKey(s1.table, k, resp2, key, md2, b, now2);
    SaveKeepsValid(s1.table, resp2, key, md2, b, now2);
    var s2 := Save(s1.table, resp2, key, md2, b, now2).value;
    SavedRowReflectsResponse(s1.table, resp2, key, md2, b, now2);
    assert s2.table.rows[k].idempotencyKey == Some(key);
    forall j | 0 <= j < |s2.table.rows| && s2.table.rows[j].idempotencyKey == Some(key)
      ensures s2.table.rows[j].id == s1.row.id
    {
      assert j == k;
    }
  }

  /** Where the row `save_payment_to_db` returns sits in the table afterwards. */
  lemma SavedRowIndex(t: Table, resp: ProcessorPayment, key: string, md: Option<Metadata>, b: Builtins, now: Timestamp)
    returns (k: nat)
    requires Save(t, resp, key, md, b, now).Ok?
    ensures var s := Save(t, resp, key, md, b, now).value; k < |s.table.rows| && s.table.rows[k] == s.row
  {
    var f := Find(t.rows, ByKey(key));
    if f.OneRow? {
      k := f.index;
    } else {
      k := |t.rows|;
    }
  }

  /**
    The `payment_status` local update never inserts; it changes only `status`
    and `updated_at`, only of the row with the requested `mollie_id`, and keeps
    the old status when the response has none.
  */
  lemma LocalStatusUpdateFrame(t: Table, mollieId: string, resp: ProcessorPayment, now: Timestamp)
    requires LocalStatusUpdate(t, mollieId, resp, now).Ok?
    ensures var t' := LocalStatusUpdate(t, mollieId, resp, now).value;
      && t'.nextId == t.nextId && |t'.rows| == |t.rows|
      && (forall j :: 0 <= j < |t.rows| ==> OnlyStatusTouched(t.rows[j], t'.rows[j]))
      && (forall j :: 0 <= j < |t.rows| && t.rows[j].mollieId != Some(mollieId) ==> t'.rows[j] == t.rows[j])
      && (forall j :: 0 <= j < |t.rows| && t.rows[j].mollieId == Some(mollieId) ==>
            t'.rows[j].updatedAt == now && t'.rows[j].status == StatusOr(resp, t.rows[j].status))
  {
  }

  /** With no row for that `mollie_id`, the `payment_status` local update leaves the table as it was. */
  lemma LocalStatusUpdateNoMatch(t: Table, mollieId: string, resp: ProcessorPayment, now: Timestamp)
    requires forall j :: 0 <= j < |t.rows| ==> t.rows[j].mollieId != Some(mollieId)
    ensures LocalStatusUpdate(t, mollieId, resp, now) == Ok(t)
  {
    assert Find(t.rows, ByMollieId(mollieId)).NoRow?;
  }

  /** Refreshing a row's status keeps ids and keys, so a valid table stays valid. */
  lemma StatusOnlyChangeKeepsValid(t: Table, t': Table)
    requires Valid(t) && t'.nextId == t.nextId && |t'.rows| == |t.rows|
    requires forall j :: 0 <= j < |t.rows| ==> OnlyStatusTouched(t.rows[j], t'.rows[j])
    ensures Valid(t')
  {
    assert forall j :: 0 <= j < |t.rows| ==>
               t'.rows[j].id == t.rows[j].id && t'.rows[j].idempotencyKey == t.rows[j].idempotencyKey;
  }

  /** The `payment_status` handler keeps a valid table valid, whatever it replies. */
  lemma PaymentStatusKeepsValid(t: Table, mollieId: string, fetched: Option<ProcessorPayment>, now: Timestamp)
    requires Valid(t)
    ensures Valid(PaymentStatusFlow(t, mollieId, fetched, now).table)
  {
    var h := PaymentStatusFlow(t, mollieId, fetched, now);
    if h.reply.Ok? {
      LocalStatusUpdateFrame(t, mollieId, fetched.value, now);
      StatusOnlyChangeKeepsValid(t, h.table);
    }
  }

  /**
    In the `payment_status` handler the reply is validated before the local
    update, so a matched row always takes the response's status: the
    fallback to the stored status at payments.py:111 is never used there.
  */
  lemma PaymentStatusTakesResponseStatus(t: Table, mollieId: string, fetched: Option<ProcessorPayment>, now: Timestamp, j: nat)
    requires PaymentStatusFlow(t, mollieId, fetched, now).reply.Ok?
    requires j < |t.rows| && t.rows[j].mollieId == Some(mollieId)
    ensures fetched.Some? && fetched.value.status.Some?
    ensures PaymentStatusFlow(t, mollieId, fetched, now).table.rows[j].status == fetched.value.status.value
  {
    LocalStatusUpdateFrame(t, mollieId, fetched.value, now);
  }

  /** A matched webhook changes only `status` and `updated_at` of rows with that `mollie_id`, and inserts nothing. */
  lemma WebhookExistingRow(t: Table, mollieId: string, resp: ProcessorPayment, b: Builtins, now: Timestamp, i: nat)
    requires i < |t.rows| && t.rows[i].mollieId == Some(mollieId)
    requires WebhookUpdate(t, mollieId, Some(resp), b, now).Ok?
    ensures var t' := WebhookUpdate(t, mollieId, Some(resp), b, now).value;
      && t'.nextId == t.nextId && |t'.rows| == |t.rows|
      && t'.rows[i] == Refreshed(t.rows[i], resp, now)
      && (forall j :: 0 <= j < |t.rows| && j != i ==> t'.rows[j] == t.rows[j])
  {
    assert !Find(t.rows, ByMollieId(mollieId)).NoRow?;
  }

  /**
    Without a matching row the webhook appends exactly one bare row: the
    response's id, status defaulting to "open", no metadata, no idempotency key.
  */
  lemma WebhookBareInsert(t: Table, mollieId: string, resp: ProcessorPayment, b: Builtins, now: Timestamp)
    requires forall j :: 0 <= j < |t.rows| ==> t.rows[j].mollieId != Some(mollieId)
    ensures WebhookUpdate(t, mollieId, Some(resp), b, now).Ok?
    ensures var t' := WebhookUpdate(t, mollieId, Some(resp), b, now).value;
      && |t'.rows| == |t.rows| + 1 && t'.rows[..|t.rows|] == t.rows && t'.nextId == t.nextId + 1
      && var row := t'.rows[|t.rows|];
      && row.id == t.nextId
      && row.mollieId == resp.id
      && row.amount == WebhookAmount(resp, b)
      && row.currency == Currency(resp)
      && row.status == StatusOr(resp, DefaultStatus)
      && row.description == resp.description && row.checkoutUrl == CheckoutUrl(resp)
      && row.metadata.None? && row.idempotencyKey.None?
      && row.createdAt == now && row.updatedAt == now
  {
    assert Find(t.rows, ByMollieId(mollieId)).NoRow?;
    var t' := WebhookUpdate(t, mollieId, Some(resp), b, now).value;
    assert t'.rows[..|t.rows|] == t.rows;
  }

  /** Whatever the webhook task does, a valid table stays valid: its bare rows have no key. */
  lemma WebhookKeepsValid(t: Table, mollieId: string, fetched: Option<ProcessorPayment>, b: Builtins, now: Timestamp)
    requires Valid(t) && WebhookUpdate(t, mollieId, fetched, b, now).Ok?
    ensures Valid(WebhookUpdate(t, mollieId, fetched, b, now).value)
  {
    if fetched.Some? {
      var t' := WebhookUpdate(t, mollieId, fetched, b, now).value;
      var f := Find(t.rows, ByMollieId(mollieId));
      if f.OneRow? {
        StatusOnlyChangeKeepsValid(t, t');
      } else {
        assert t'.rows == t.rows + [t'.rows[|t.rows|]];
        assert t'.rows[|t.rows|].idempotencyKey.None?;
      }
    }
  }
}
