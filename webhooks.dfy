/** `POST /api/webhooks/mercadopago`: every notification is stored in the
    `webhooks` audit table and acknowledged; a payment notification then
    has its payment re-read from the provider, and the provider's status
    is carried over to the charges whose order id is the payment's
    external reference. */
module Webhooks {
  import opened Common
  import opened Charges

  const ProviderName := "Mercado Pago"
  const Paid := "pago"
  const Cancelled := "cancelado"

  /** A row of `webhooks`. `processed`, `retries`, `errorMessage` and
      `processedAt` only ever hold their column defaults. */
  datatype WebhookRow = WebhookRow(
    id: nat,
    provider: string,
    eventType: Option<string>,
    httpHeaders: Blob,
    payload: Blob,
    processed: bool,
    retries: int,
    errorMessage: Option<string>,
    processedAt: Option<int>)

  /** An inbound notification: its `type`, its `data.id` (`None` when `data`
      or its id is missing), the request headers and the whole body. */
  datatype WebhookEvent = WebhookEvent(eventType: Option<string>, paymentId: Option<Value>, headers: Blob, body: Blob)

  /** The payment as the provider reports it when asked by id. */
  datatype PaymentDetails = PaymentDetails(
    id: string,
    status: string,
    externalReference: Option<string>,
    e2eId: Option<string>,
    payer: Option<Blob>,
    raw: Blob)

  datatype FetchResult = Fetched(details: PaymentDetails) | FetchFailed(message: string)

  /** What the handler does, in order. */
  datatype Step =
    | AuditStored(rowId: nat)
    | Acknowledged(httpStatus: nat)
    | PaymentFetched(paymentId: Value)
    | ChargesUpdated(newStatus: string)
    | ErrorLogged

  /** The audit row written for an event, with the column defaults. */
  function AuditRow(id: nat, ev: WebhookEvent): WebhookRow
  {
    WebhookRow(id, ProviderName, ev.eventType, ev.headers, ev.body, false, 0, None, None)
  }

  /** Only a `payment` notification that names a payment is reconciled. */
  predicate ShouldReconcile(ev: WebhookEvent)
  {
    ev.eventType == Some("payment") && Truthy(ev.paymentId)
  }

  /** `WHERE order_id = <external reference>`; a missing reference is SQL
      `NULL` and matches no row. */
  predicate Matches(c: Charge, externalReference: Option<string>)
  {
    externalReference.Some? && c.orderId == externalReference.value
  }

  predicate IsApproval(status: string)
  {
    status == "approved" || status == "authorized"
  }

  predicate IsCancellation(status: string)
  {
    status == "cancelled" || status == "rejected"
  }

  /** The SET list of the approval update. */
  function MarkPaid(c: Charge, d: PaymentDetails, now: int): Charge
  {
    c.(status := Paid, paidAt := Some(now), e2eId := d.e2eId, txid := Some(d.id),
       payerInfo := d.payer, providerRaw := Some(d.raw))
  }

  /** The SET list of the cancellation update. */
  function MarkCancelled(c: Charge, d: PaymentDetails): Charge
  {
    c.(status := Cancelled, providerRaw := Some(d.raw))
  }

  /** `UPDATE charges SET status = 'pago', ... WHERE order_id = $5`. */
  function PaidRows(rows: seq<Charge>, d: PaymentDetails, now: int): seq<Charge>
  {
    seq(|rows|, i requires 0 <= i < |rows| =>
      if Matches(rows[i], d.externalReference) then MarkPaid(rows[i], d, now) else rows[i])
  }

  /** `UPDATE charges SET status = 'cancelado', ... WHERE order_id = $2`. */
  function CancelledRows(rows: seq<Charge>, d: PaymentDetails): seq<Charge>
  {
    seq(|rows|, i requires 0 <= i < |rows| =>
      if Matches(rows[i], d.externalReference) then MarkCancelled(rows[i], d) else rows[i])
  }

  /** The approval update writes the payment id into `txid`, which is
      unique: it is refused as a whole when a row it updates would take a
      `txid` that a row it leaves alone already holds. */
  predicate TxidClash(rows: seq<Charge>, d: PaymentDetails)
  {
    && (exists i :: 0 <= i < |rows| && Matches(rows[i], d.externalReference))
    && (exists j :: 0 <= j < |rows| && !Matches(rows[j], d.externalReference) && rows[j].txid == Some(d.id))
  }

  /** The charge table after reconciling with payment details `d` at time
      `now`. */
  function Reconcile(rows: seq<Charge>, d: PaymentDetails, now: int): (r: seq<Charge>)
    ensures |r| == |rows|
    // rows of other orders are never touched
    ensures forall i :: 0 <= i < |rows| && !Matches(rows[i], d.externalReference) ==> r[i] == rows[i]
    // approved/authorized: paid, stamped with the time and the payment's data,
    // whatever the previous status
    ensures IsApproval(d.status) && !TxidClash(rows, d) ==>
      forall i :: 0 <= i < |rows| && Matches(rows[i], d.externalReference) ==>
        && r[i].status == Paid && r[i].paidAt == Some(now)
        && r[i].e2eId == d.e2eId && r[i].txid == Some(d.id)
        && r[i].payerInfo == d.payer && r[i].providerRaw == Some(d.raw)
        && r[i].id == rows[i].id && r[i].orderId == rows[i].orderId
        && r[i].amount == rows[i].amount && r[i].description == rows[i].description
        && r[i].qrUrl == rows[i].qrUrl && r[i].copiaECola == rows[i].copiaECola
        && r[i].expirationAt == rows[i].expirationAt
    // cancelled/rejected: only the status and the raw response change,
    // whatever the previous status (a paid charge can become cancelled)
    ensures IsCancellation(d.status) ==>
      forall i :: 0 <= i < |rows| && Matches(rows[i], d.externalReference) ==>
        r[i] == rows[i].(status := Cancelled, providerRaw := Some(d.raw))
    // any other status, a refused approval update, or no matching order:
    // nothing changes
    ensures !IsApproval(d.status) && !IsCancellation(d.status) ==> r == rows
    ensures IsApproval(d.status) && TxidClash(rows, d) ==> r == rows
    ensures (forall i :: 0 <= i < |rows| ==> !Matches(rows[i], d.externalReference)) ==> r == rows
  {
    if IsApproval(d.status) then
      if TxidClash(rows, d) then rows else PaidRows(rows, d, now)
    else if IsCancellation(d.status) then CancelledRows(rows, d)
    else rows
  }

  /** Delivering the same payment details twice at the same time leaves the
      table as delivering them once. */
  lemma ReconcileIdempotent(rows: seq<Charge>, d: PaymentDetails, now: int)
    ensures Reconcile(Reconcile(rows, d, now), d, now) == Reconcile(rows, d, now)
  {
    var once := Reconcile(rows, d, now);
    if IsApproval(d.status) && !TxidClash(rows, d) {
      assert forall i :: 0 <= i < |once| ==> (Matches(once[i], d.externalReference) <==> Matches(rows[i], d.externalReference));
      assert !TxidClash(once, d);
      assert Reconcile(once, d, now) == PaidRows(once, d, now);
    } else if IsCancellation(d.status) {
      assert Reconcile(once, d, now) == CancelledRows(once, d);
    }
  }

  /** Reconciliation keeps the table's unique constraints and its id
      counter. */
  lemma ReconcileKeepsValid(rows: seq<Charge>, nextId: nat, d: PaymentDetails, now: int)
    requires ChargeRowsValid(rows, nextId)
    ensures ChargeRowsValid(Reconcile(rows, d, now), nextId)
  {
    var r := Reconcile(rows, d, now);
    if IsApproval(d.status) && !TxidClash(rows, d) {
      forall i, j | 0 <= i < j < |r|
        ensures r[i].id != r[j].id && r[i].orderId != r[j].orderId
        ensures r[i].txid.Some? ==> r[i].txid != r[j].txid
      {
        var mi, mj := Matches(rows[i], d.externalReference), Matches(rows[j], d.externalReference);
        assert !(mi && mj);
        if mi && !mj {
          assert rows[j].txid != Some(d.id);
        } else if mj && !mi {
          assert rows[i].txid != Some(d.id);
        }
      }
    }
  }

  /** The effect of one notification on the charge table. */
  function ReconcileEvent(rows: seq<Charge>, ev: WebhookEvent, fetch: Value -> FetchResult, now: int): (r: seq<Charge>)
    ensures !ShouldReconcile(ev) ==> r == rows
    ensures ShouldReconcile(ev) && fetch(ev.paymentId.value).FetchFailed? ==> r == rows
    ensures ShouldReconcile(ev) && fetch(ev.paymentId.value).Fetched? ==>
      r == Reconcile(rows, fetch(ev.paymentId.value).details, now)
  {
    if !ShouldReconcile(ev) then rows
    else
      match fetch(ev.paymentId.value)
      case FetchFailed(_) => rows
      case Fetched(d) => Reconcile(rows, d, now)
  }

  /** A notification delivered twice (same provider answer, same time)
      leaves the charges as one delivery does. */
  lemma ReplayedEventIdempotent(rows: seq<Charge>, ev: WebhookEvent, fetch: Value -> FetchResult, now: int)
    ensures ReconcileEvent(ReconcileEvent(rows, ev, fetch, now), ev, fetch, now) == ReconcileEvent(rows, ev, fetch, now)
  {
    if ShouldReconcile(ev) && fetch(ev.paymentId.value).Fetched? {
      ReconcileIdempotent(rows, fetch(ev.paymentId.value).details, now);
    }
  }

  /** The `webhooks` table. */
  class WebhookLog {
    var rows: seq<WebhookRow>
    var nextId: nat

    /** The serial id counter is ahead of every audit row. */
    ghost predicate Valid()
      reads this
    {
      forall i :: 0 <= i < |rows| ==> rows[i].id < nextId
    }

    constructor ()
      ensures Valid() && rows == [] && nextId == 1
    {
      rows := [];
      nextId := 1;
    }
  }

  /** The processing after the acknowledgement: a reconcilable
      notification has its payment fetched and the charges updated as its
      status dictates; a failed fetch or a refused update is logged and
      leaves the charges as they were. `now` is the database clock read by
      `NOW()`. */
  method ProcessNotification(charges: ChargeTable, ev: WebhookEvent, fetch: Value -> FetchResult, now: int)
    returns (steps: seq<Step>)
    requires charges.Valid()
    modifies charges
    ensures charges.rows == ReconcileEvent(old(charges.rows), ev, fetch, now)
    ensures charges.nextId == old(charges.nextId) && charges.Valid()
    ensures !ShouldReconcile(ev) ==> steps == []
    ensures ShouldReconcile(ev) && fetch(ev.paymentId.value).FetchFailed? ==>
      steps == [PaymentFetched(ev.paymentId.value), ErrorLogged]
    ensures ShouldReconcile(ev) && fetch(ev.paymentId.value).Fetched? ==>
      var d := fetch(ev.paymentId.value).details;
      && |steps| >= 1 && steps[0] == PaymentFetched(ev.paymentId.value)
      && (IsApproval(d.status) && TxidClash(old(charges.rows), d) ==> steps[1..] == [ErrorLogged])
      && (IsApproval(d.status) && !TxidClash(old(charges.rows), d) ==> steps[1..] == [ChargesUpdated(Paid)])
      && (IsCancellation(d.status) ==> steps[1..] == [ChargesUpdated(Cancelled)])
      && (!IsApproval(d.status) && !IsCancellation(d.status) ==> steps[1..] == [])
  {
    steps := [];
    if ev.eventType == Some("payment") && Truthy(ev.paymentId) {
      var paymentId := ev.paymentId.value;
      var answer := fetch(paymentId);
      steps := [PaymentFetched(paymentId)];
      match answer
      case FetchFailed(_) =>
        steps := steps + [ErrorLogged];
      case Fetched(d) =>
        ReconcileKeepsValid(charges.rows, charges.nextId, d, now);
        if d.status == "approved" || d.status == "authorized" {
          if TxidClash(charges.rows, d) {
            steps := steps + [ErrorLogged];
          } else {
            charges.rows := PaidRows(charges.rows, d, now);
            steps := steps + [ChargesUpdated(Paid)];
          }
        } else if d.status == "cancelled" || d.status == "rejected" {
          charges.rows := CancelledRows(charges.rows, d);
          steps := steps + [ChargesUpdated(Cancelled)];
        }
    }
  }

  /** The handler. It stores the notification, acknowledges it with 200,
      and only then processes it. */
  method ReceiveMercadoPago(
    log: WebhookLog, charges: ChargeTable, ev: WebhookEvent, fetch: Value -> FetchResult, now: int)
    returns (trace: seq<Step>)
    requires log.Valid() && charges.Valid()
    modifies log, charges
    ensures log.Valid()
    ensures log.rows == old(log.rows) + [AuditRow(old(log.nextId), ev)]
    ensures log.nextId == old(log.nextId) + 1
    ensures charges.rows == ReconcileEvent(old(charges.rows), ev, fetch, now)
    ensures charges.nextId == old(charges.nextId) && charges.Valid()
    ensures |trace| >= 2 && trace[0] == AuditStored(old(log.nextId)) && trace[1] == Acknowledged(200)
    ensures forall i :: 2 <= i < |trace| ==> !trace[i].Acknowledged? && !trace[i].AuditStored?
    ensures !ShouldReconcile(ev) ==> |trace| == 2
    ensures ShouldReconcile(ev) && fetch(ev.paymentId.value).FetchFailed? ==>
      trace[2..] == [PaymentFetched(ev.paymentId.value), ErrorLogged]
    ensures ShouldReconcile(ev) && fetch(ev.paymentId.value).Fetched? ==>
      var d := fetch(ev.paymentId.value).details;
      && |trace| >= 3 && trace[2] == PaymentFetched(ev.paymentId.value)
      && (IsApproval(d.status) && TxidClash(old(charges.rows), d) ==> trace[3..] == [ErrorLogged])
      && (IsApproval(d.status) && !TxidClash(old(charges.rows), d) ==> trace[3..] == [ChargesUpdated(Paid)])
      && (IsCancellation(d.status) ==> trace[3..] == [ChargesUpdated(Cancelled)])
      && (!IsApproval(d.status) && !IsCancellation(d.status) ==> trace[3..] == [])
  {
    var rowId := log.nextId;
    log.rows := log.rows + [AuditRow(rowId, ev)];
    log.nextId := log.nextId + 1;
    trace := [AuditStored(rowId)];

    trace := trace + [Acknowledged(200)];

    var steps := ProcessNotification(charges, ev, fetch, now);
    trace := trace + steps;
  }
}
