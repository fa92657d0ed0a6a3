/**
  The processor's payment JSON as the router reads it, and the pure field
  extraction of app/routers/payments.py (the `mollie_json.get(...)` chains).
*/
module Processor {
  import opened Wrappers
  import opened Records

  /** `amount` object: `{"value": "10.00", "currency": "EUR"}`. */
  datatype AmountField = AmountField(value: Option<string>, currency: Option<string>)

  /** `_links.checkout` object and the `_links` object around it. */
  datatype Link = Link(href: Option<string>)
  datatype Links = Links(checkout: Option<Link>)

  /** The keys of the processor's payment JSON the router reads; `None` is an absent key. */
  datatype ProcessorPayment = ProcessorPayment(
    id: Option<string>,
    status: Option<string>,
    amount: Option<AmountField>,
    description: Option<string>,
    links: Option<Links>
  )

  /** The caller's `metadata` dict; its values stay uninterpreted. */
  type Metadata = map<string, string>

  /** The two library calls the router relies on: `float(s)` (None where it raises) and `json.dumps`. */
  datatype Builtins = Builtins(parseFloat: string -> Option<real>, jsonDumps: Metadata -> string)

  /** `mollie_json.get("amount", {}).get("value")`. */
  function AmountValue(resp: ProcessorPayment): Option<string> {
    match resp.amount
    case None => None
    case Some(a) => a.value
  }

  /** `mollie_json.get("amount", {}).get("currency", "EUR")`. */
  function Currency(resp: ProcessorPayment): (c: string)
    ensures resp.amount.None? || resp.amount.value.currency.None? ==> c == DefaultCurrency
    ensures resp.amount.Some? && resp.amount.value.currency.Some? ==> c == resp.amount.value.currency.value
  {
    match resp.amount
    case None => DefaultCurrency
    case Some(a) => a.currency.GetOr(DefaultCurrency)
  }

  /** `mollie_json.get("_links", {}).get("checkout", {}).get("href")`. */
  function CheckoutUrl(resp: ProcessorPayment): (u: Option<string>)
    ensures u.Some? <==> resp.links.Some? && resp.links.value.checkout.Some? && resp.links.value.checkout.value.href.Some?
    ensures u.Some? ==> u.value == resp.links.value.checkout.value.href.value
  {
    match resp.links
    case None => None
    case Some(l) =>
      match l.checkout
      case None => None
      case Some(c) => c.href
  }

  /** `mollie_json.get("status", fallback)`. */
  function StatusOr(resp: ProcessorPayment, fallback: string): string {
    resp.status.GetOr(fallback)
  }

  /**
    The amount stored by `save_payment_to_db` (payments.py:24-27):
    `float(value) if value is not None else 0.0`, and 0.0 when `float` raises.
  */
  function CreateAmount(resp: ProcessorPayment, b: Builtins): (a: real)
    ensures AmountValue(resp).None? ==> a == 0.0
    ensures AmountValue(resp).Some? && b.parseFloat(AmountValue(resp).value).None? ==> a == 0.0
    ensures AmountValue(resp).Some? && b.parseFloat(AmountValue(resp).value).Some? ==>
              a == b.parseFloat(AmountValue(resp).value).value
  {
    match AmountValue(resp)
    case None => 0.0
    case Some(v) =>
      match b.parseFloat(v)
      case None => 0.0
      case Some(x) => x
  }

  /**
    The amount of a bare webhook row (payments.py:152-156): the guard is the
    truthiness of the value (`if amount`), so the empty string also gives 0.0.
  */
  function WebhookAmount(resp: ProcessorPayment, b: Builtins): (a: real)
    ensures AmountValue(resp).None? || AmountValue(resp).value == "" ==> a == 0.0
    ensures AmountValue(resp).Some? && b.parseFloat(AmountValue(resp).value).None? ==> a == 0.0
    ensures AmountValue(resp).Some? && AmountValue(resp).value != "" && b.parseFloat(AmountValue(resp).value).Some? ==>
              a == b.parseFloat(AmountValue(resp).value).value
  {
    match AmountValue(resp)
    case None => 0.0
    case Some(v) =>
      if v == "" then 0.0
      else
        match b.parseFloat(v)
        case None => 0.0
        case Some(x) => x
  }

  /**
    Both amount guards give the same number, because `float("")` raises:
    a missing or unparsable amount never blocks either path.
  */
  lemma AmountPathsAgree(resp: ProcessorPayment, b: Builtins)
    requires b.parseFloat("").None?
    ensures CreateAmount(resp, b) == WebhookAmount(resp, b)
  {
  }

  /**
    `json.dumps(metadata) if metadata else None` (payments.py:40, 54): an
    absent or empty dict is stored as NULL.
  */
  function EncodeMetadata(md: Option<Metadata>, b: Builtins): (m: Option<string>)
    ensures m.Some? <==> md.Some? && |md.value| > 0
    ensures m.Some? ==> m.value == b.jsonDumps(md.value)
  {
    if md.Some? && |md.value| > 0 then Some(b.jsonDumps(md.value)) else None
  }

  /** `PaymentStatusOut` (app/schemas.py:17-23): `mollie_id` and `status` are required strings. */
  datatype StatusOut = StatusOut(
    mollieId: string,
    status: string,
    amount: Option<AmountField>,
    description: Option<string>,
    checkoutUrl: Option<string>,
    raw: ProcessorPayment
  )

  /**
    The reply of `payment_status` (payments.py:96-103). Validation fails when the
    response has no `id` or no `status`, because the schema requires both.
  */
  function StatusView(resp: ProcessorPayment): (r: Result<StatusOut, Failure>)
    ensures r.Ok? <==> resp.id.Some? && resp.status.Some?
    ensures r.Err? ==> r.error == ResponseInvalid
    ensures r.Ok? ==> r.value.mollieId == resp.id.value && r.value.status == resp.status.value
                      && r.value.amount == resp.amount && r.value.description == resp.description
                      && r.value.checkoutUrl == CheckoutUrl(resp) && r.value.raw == resp
  {
    if resp.id.None? || resp.status.None? then Err(ResponseInvalid)
    else Ok(StatusOut(resp.id.value, resp.status.value, resp.amount, resp.description, CheckoutUrl(resp), resp))
  }
}
