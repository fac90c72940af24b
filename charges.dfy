/** The `charges` table and the two handlers of `/api/charges` that touch
    single rows: creating a PIX charge through the payment provider
    (`POST /`) and reading one charge back (`GET /:id`). The provider, the
    clock and the random source are parameters. */
module Charges {
  import opened Common

  /** A JSON document stored verbatim (a provider response, payer data). */
  datatype Blob = Blob(json: string)

  /** A row of `charges`. `expirationAt` and `paidAt` are milliseconds
      since the epoch; `amount` is kept as the request sent it. */
  datatype Charge = Charge(
    id: nat,
    orderId: string,
    txid: Option<string>,
    e2eId: Option<string>,
    status: string,
    amount: Value,
    description: string,
    qrUrl: string,
    copiaECola: string,
    expirationAt: int,
    paidAt: Option<int>,
    payerInfo: Option<Blob>,
    providerRaw: Option<Blob>)

  const Awaiting := "aguardando"
  const QrPrefix := "data:image/png;base64,"
  const OrderPrefix := "ORDER-"
  const DefaultExpireMinutes := 30
  const MissingFieldsMessage := "Valor e descrição são obrigatórios."
  const CreateFailedMessage := "Erro ao criar cobrança PIX"
  const NotFoundMessage := "Cobrança não encontrada."
  const InternalErrorMessage := "Erro interno do servidor."

  /** The range of the 32-bit `integer` type behind a `SERIAL` column. */
  predicate InInt32(x: int)
  {
    -0x8000_0000 <= x < 0x8000_0000
  }

  /** The unique constraints of the table (on `order_id` and on a non-null
      `txid`) and the serial `id` counter, which is ahead of every row. */
  predicate ChargeRowsValid(rows: seq<Charge>, nextId: nat)
  {
    && (forall i :: 0 <= i < |rows| ==> rows[i].id < nextId)
    && (forall i, j :: 0 <= i < j < |rows| ==>
          && rows[i].id != rows[j].id
          && rows[i].orderId != rows[j].orderId
          && (rows[i].txid.Some? ==> rows[i].txid != rows[j].txid))
  }

  // ---------------------------------------------------------------------
  // Order identifiers

  /** `Math.floor(Math.random() * 1000)` for a draw `random` in [0, 1),
      with the product taken exactly rather than rounded to a double. */
  function RandomSuffix(random: real): (n: nat)
    requires 0.0 <= random < 1.0
    ensures n < 1000
  {
    (random * 1000.0).Floor
  }

  /** `ORDER-<ms>-<n>`, the identifier made up when the client sends none. */
  function GenerateOrderId(clockMs: nat, random: real): string
    requires 0.0 <= random < 1.0
  {
    OrderPrefix + NatToString(clockMs) + "-" + NatToString(RandomSuffix(random))
  }

  /** Reads `ORDER-<digits>-<digits>` back into its clock and suffix values. */
  function ParseGeneratedOrderId(s: string): Option<(nat, nat)>
  {
    if !(OrderPrefix <= s) then None
    else
      var t := s[|OrderPrefix|..];
      var ms := LeadingDigits(t);
      if ms == [] || |ms| == |t| || t[|ms|] != '-' then None
      else
        var u := t[|ms| + 1..];
        if u == [] || LeadingDigits(u) != u then None
        else Some((DigitsValue(ms), DigitsValue(u)))
  }

  /** A generated identifier carries the clock reading and a suffix below
      1000, and both can be read back from it. */
  lemma GeneratedOrderIdParses(clockMs: nat, random: real)
    requires 0.0 <= random < 1.0
    ensures ParseGeneratedOrderId(GenerateOrderId(clockMs, random)) == Some((clockMs, RandomSuffix(random)))
    ensures RandomSuffix(random) < 1000
  {
    var a, b := NatToString(clockMs), NatToString(RandomSuffix(random));
    var s := GenerateOrderId(clockMs, random);
    assert s == OrderPrefix + (a + ("-" + b));
    var t := s[|OrderPrefix|..];
    assert t == a + ("-" + b);
    LeadingDigitsOfNumber(a, "-" + b);
    assert t[|a|] == '-';
    assert t[|a| + 1..] == b;
    assert b + [] == b;
    LeadingDigitsOfNumber(b, []);
    DigitsValueOfNatToString(clockMs);
    DigitsValueOfNatToString(RandomSuffix(random));
  }

  /** Two generated identifiers coincide only for the same clock reading and
      the same suffix (the collision the handler accepts). */
  lemma GeneratedOrderIdInjective(ms1: nat, r1: real, ms2: nat, r2: real)
    requires 0.0 <= r1 < 1.0 && 0.0 <= r2 < 1.0
    requires GenerateOrderId(ms1, r1) == GenerateOrderId(ms2, r2)
    ensures ms1 == ms2 && RandomSuffix(r1) == RandomSuffix(r2)
  {
    GeneratedOrderIdParses(ms1, r1);
    GeneratedOrderIdParses(ms2, r2);
  }

  /** `clientOrderId || generateOrderId()`: a non-empty client identifier is
      kept as is, otherwise one is generated from the clock and the draw. */
  function OrderIdFor(clientOrderId: Option<string>, clockMs: nat, random: real): (id: string)
    requires 0.0 <= random < 1.0
    ensures Present(clientOrderId) ==> id == clientOrderId.value
    ensures !Present(clientOrderId) ==> ParseGeneratedOrderId(id) == Some((clockMs, RandomSuffix(random)))
  {
    if Present(clientOrderId) then clientOrderId.value
    else
      GeneratedOrderIdParses(clockMs, random);
      GenerateOrderId(clockMs, random)
  }

  // ---------------------------------------------------------------------
  // Charge creation

  /** The body of `POST /api/charges`. `expireInMinutes` is `None` when the
      field is absent, and then defaults to 30. */
  datatype CreateRequest = CreateRequest(
    amount: Option<Value>, description: Option<string>, orderId: Option<string>, expireInMinutes: Option<int>)

  /** The values the handler reads from its surroundings: `Date.now()` when
      it generates an order id, `Math.random()`, `Date.now()` again when it
      computes the expiration, and the configured webhook URL. */
  datatype CreateEnv = CreateEnv(orderClockMs: nat, random: real, expiryClockMs: nat, notificationUrl: Option<string>)

  /** The payment the provider is asked to create. */
  datatype PaymentRequest = PaymentRequest(
    transactionAmount: Value,
    description: string,
    paymentMethodId: string,
    externalReference: string,
    notificationUrl: Option<string>,
    dateOfExpirationMs: int)

  /** The part of the provider's answer the handler reads. */
  datatype PixData = PixData(
    qrCodeBase64: string, qrCode: string, transactionId: Option<string>, financialInstitutionId: Option<string>)

  datatype ProviderResult = Accepted(pix: PixData, raw: Blob) | Refused(message: string)

  datatype CreateFailure = ProviderError(message: string) | AmountRejected | DuplicateKey

  /** How the `DECIMAL(10, 2)` column takes the amount as sent: text that is
      not a number is refused when the statement's parameters are bound,
      before the serial id is drawn; a number with more than eight digits
      before the point is refused while the row is built, after it. */
  datatype AmountColumn = AmountFits | AmountMalformed | AmountOverflow

  /** The client-facing projection of a new charge. */
  datatype ChargeCreated = ChargeCreated(
    id: nat, status: string, qrUrl: string, copiaECola: string, txid: Option<string>,
    expirationAt: int, orderId: string, amount: Value, description: string)

  datatype CreateResponse =
    | Created(body: ChargeCreated)
    | CreateBadRequest(message: string)
    | CreateServerError(message: string, cause: CreateFailure)
  {
    function StatusCode(): nat
    {
      match this
      case Created(_) => 201
      case CreateBadRequest(_) => 400
      case CreateServerError(_, _) => 500
    }
  }

  /** The expiration sent to the provider, in milliseconds. */
  function ExpirationMs(nowMs: nat, expireInMinutes: Option<int>): (ms: int)
    ensures expireInMinutes.None? ==> ms == nowMs + 1_800_000
    ensures expireInMinutes.Some? ==> ms - nowMs == expireInMinutes.value * 60_000
  {
    var minutes := if expireInMinutes.Some? then expireInMinutes.value else DefaultExpireMinutes;
    nowMs + minutes * 60 * 1000
  }

  /** The insert of a new row fails on a duplicate `order_id` or a duplicate
      non-null `txid`. */
  predicate InsertConflict(rows: seq<Charge>, orderId: string, txid: Option<string>)
  {
    exists i :: 0 <= i < |rows| && (rows[i].orderId == orderId || (txid.Some? && rows[i].txid == txid))
  }

  /** Adding a row that passes the insert's checks keeps the constraints. */
  lemma InsertKeepsValid(rows: seq<Charge>, nextId: nat, row: Charge)
    requires ChargeRowsValid(rows, nextId)
    requires row.id == nextId && !InsertConflict(rows, row.orderId, row.txid)
    ensures ChargeRowsValid(rows + [row], nextId + 1)
  {
    var rows' := rows + [row];
    forall i, j | 0 <= i < j < |rows'|
      ensures && rows'[i].id != rows'[j].id
              && rows'[i].orderId != rows'[j].orderId
              && (rows'[i].txid.Some? ==> rows'[i].txid != rows'[j].txid)
    {
      if j == |rows| {
        assert rows'[i] == rows[i];
        assert rows[i].orderId != row.orderId;
        assert rows[i].txid.Some? && row.txid.Some? ==> rows[i].txid != row.txid;
      }
    }
  }

  // ---------------------------------------------------------------------
  // Reading one charge

  function FindById(rows: seq<Charge>, id: int): (r: Option<Charge>)
    ensures r.None? <==> forall i :: 0 <= i < |rows| ==> rows[i].id != id
    ensures r.Some? ==> r.value in rows && r.value.id == id
    decreases |rows|
  {
    if rows == [] then None
    else if rows[0].id == id then Some(rows[0])
    else FindById(rows[1..], id)
  }

  datatype GetResponse = Found(charge: Charge) | NotFound(message: string) | GetServerError(message: string)
  {
    function StatusCode(): nat
    {
      match this
      case Found(_) => 200
      case NotFound(_) => 404
      case GetServerError(_) => 500
    }
  }

  /** `GET /api/charges/:id`: an id the `integer` column cannot hold makes
      the query raise, which the handler answers with 500; otherwise 404
      exactly when no row has that id, and the row itself when one does. */
  function GetCharge(rows: seq<Charge>, id: int): (r: GetResponse)
    ensures r.GetServerError? <==> !InInt32(id)
    ensures r.GetServerError? ==> r.message == InternalErrorMessage && r.StatusCode() == 500
    ensures r.NotFound? <==> InInt32(id) && forall i :: 0 <= i < |rows| ==> rows[i].id != id
    ensures r.NotFound? ==> r.message == NotFoundMessage && r.StatusCode() == 404
    ensures r.Found? ==> r.charge in rows && r.charge.id == id && r.StatusCode() == 200
  {
    if !InInt32(id) then GetServerError(InternalErrorMessage)
    else
      match FindById(rows, id)
      case None => NotFound(NotFoundMessage)
      case Some(c) => Found(c)
  }

  // ---------------------------------------------------------------------
  // The table

  class ChargeTable {
    var rows: seq<Charge>
    var nextId: nat

    ghost predicate Valid()
      reads this
    {
      ChargeRowsValid(rows, nextId)
    }

    constructor ()
      ensures Valid() && rows == [] && nextId == 1
    {
      rows := [];
      nextId := 1;
    }

    /** `POST /api/charges`. Validates the body, settles the order id, asks
        the provider for a PIX payment whose external reference is that
        order id, and stores the answer as a row awaiting payment. `sent` is
        the request the provider received, if any. */
    method Create(
      req: CreateRequest, env: CreateEnv, provider: PaymentRequest -> ProviderResult,
      amountColumn: Value -> AmountColumn)
      returns (resp: CreateResponse, sent: Option<PaymentRequest>)
      requires Valid()
      requires 0.0 <= env.random < 1.0
      modifies this
      ensures Valid()
      // missing amount or description: 400, no provider call, nothing stored
      ensures !Truthy(req.amount) || !Present(req.description) ==>
        && resp == CreateBadRequest(MissingFieldsMessage) && resp.StatusCode() == 400 && sent == None
        && rows == old(rows) && nextId == old(nextId)
      // otherwise exactly one provider call, with the settled order id as
      // external reference and the expiration computed from the clock
      ensures Truthy(req.amount) && Present(req.description) ==>
        && sent.Some?
        && sent.value.externalReference == OrderIdFor(req.orderId, env.orderClockMs, env.random)
        && sent.value.dateOfExpirationMs == ExpirationMs(env.expiryClockMs, req.expireInMinutes)
        && sent.value.paymentMethodId == "pix"
        && sent.value.transactionAmount == req.amount.value
        && sent.value.description == req.description.value
        && sent.value.notificationUrl == env.notificationUrl
      // provider failure: 500 with its message, nothing stored
      ensures sent.Some? && provider(sent.value).Refused? ==>
        && resp == CreateServerError(CreateFailedMessage, ProviderError(provider(sent.value).message))
        && resp.StatusCode() == 500
        && rows == old(rows) && nextId == old(nextId)
      // an amount the column refuses: 500, nothing stored, the serial id
      // spent only when the refusal comes after it was drawn
      ensures sent.Some? && provider(sent.value).Accepted? && amountColumn(sent.value.transactionAmount) != AmountFits ==>
        && resp == CreateServerError(CreateFailedMessage, AmountRejected) && resp.StatusCode() == 500
        && rows == old(rows)
        && nextId == (if amountColumn(sent.value.transactionAmount) == AmountOverflow then old(nextId) + 1 else old(nextId))
      // duplicate key: 500, nothing stored, the serial id is spent
      ensures sent.Some? && provider(sent.value).Accepted? && amountColumn(sent.value.transactionAmount) == AmountFits ==>
        && nextId == old(nextId) + 1
        && (InsertConflict(old(rows), sent.value.externalReference, provider(sent.value).pix.transactionId) <==>
              resp == CreateServerError(CreateFailedMessage, DuplicateKey))
        && (resp.CreateServerError? ==> rows == old(rows) && resp.StatusCode() == 500)
      // a request the provider accepts and the table can take is created
      ensures sent.Some? && provider(sent.value).Accepted? && amountColumn(sent.value.transactionAmount) == AmountFits
        && !InsertConflict(old(rows), sent.value.externalReference, provider(sent.value).pix.transactionId)
        ==> resp.Created? && resp.StatusCode() == 201
      ensures resp.CreateBadRequest? ==> !Truthy(req.amount) || !Present(req.description)
      // success: one new row awaiting payment, answered with its projection
      ensures resp.Created? ==>
        && sent.Some? && provider(sent.value).Accepted? && amountColumn(req.amount.value) == AmountFits
        && |rows| == |old(rows)| + 1 && rows[..|old(rows)|] == old(rows)
        && var pix := provider(sent.value).pix;
        && var row := rows[|rows| - 1];
        && row.id == old(nextId)
        && row.orderId == sent.value.externalReference
        && row.status == Awaiting
        && row.qrUrl == QrPrefix + pix.qrCodeBase64
        && row.copiaECola == pix.qrCode
        && row.txid == pix.transactionId
        && row.e2eId == pix.financialInstitutionId
        && row.expirationAt == sent.value.dateOfExpirationMs
        && row.amount == req.amount.value && row.description == req.description.value
        && row.paidAt == None && row.payerInfo == None
        && row.providerRaw == Some(provider(sent.value).raw)
        && resp.body == ChargeCreated(row.id, row.status, row.qrUrl, row.copiaECola, row.txid,
                                      row.expirationAt, row.orderId, row.amount, row.description)
    {
      if !Truthy(req.amount) || !Present(req.description) {
        return CreateBadRequest(MissingFieldsMessage), None;
      }
      var orderId := OrderIdFor(req.orderId, env.orderClockMs, env.random);
      var externalReference := orderId;
      var request := PaymentRequest(
        req.amount.value, req.description.value, "pix", externalReference,
        env.notificationUrl, ExpirationMs(env.expiryClockMs, req.expireInMinutes));
      sent := Some(request);

      match provider(request)
      case Refused(message) =>
        resp := CreateServerError(CreateFailedMessage, ProviderError(message));
      case Accepted(pix, raw) =>
        var column := amountColumn(req.amount.value);
        if column == AmountMalformed {
          resp := CreateServerError(CreateFailedMessage, AmountRejected);
          return;
        }
        var id := nextId;
        nextId := nextId + 1;
        if column == AmountOverflow {
          resp := CreateServerError(CreateFailedMessage, AmountRejected);
          return;
        }
        if InsertConflict(rows, orderId, pix.transactionId) {
          resp := CreateServerError(CreateFailedMessage, DuplicateKey);
          return;
        }
        var row := Charge(
          id, orderId, pix.transactionId, pix.financialInstitutionId, Awaiting,
          req.amount.value, req.description.value, QrPrefix + pix.qrCodeBase64, pix.qrCode,
          request.dateOfExpirationMs, None, None, Some(raw));
        InsertKeepsValid(rows, id, row);
        rows := rows + [row];
        resp := Created(ChargeCreated(
          row.id, row.status, QrPrefix + pix.qrCodeBase64, pix.qrCode, pix.transactionId,
          row.expirationAt, row.orderId, row.amount, row.description));
    }
  }
}
