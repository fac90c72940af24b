# PIX charges backend: a Dafny model of its route logic

The backend creates PIX charges through Mercado Pago, lists and reads them,
reconciles them with the provider's webhook notifications, and registers
and logs in its operators. This project models the logic of its three route
files. The database tables are sequences or maps held by classes. The
payment provider, the clock, the random source and the token signer are
parameters or plain records.

- `common.dfy` (`Common`) holds the shared pieces. These are optional
  body fields, JavaScript truthiness, and the decimal rendering that
  template strings produce, with its read-back.
- `charges.dfy` (`Charges`) models the `charges` table and its unique
  constraints, order-id generation, `POST /api/charges` and
  `GET /api/charges/:id`.
- `charge_query.dfy` (`ChargeQuery`) models the SQL text and parameter
  list that `GET /api/charges` builds. A scanner reads the `$n`
  placeholders back out of the text, independently of the builder. The
  builder's proofs hold for any SQL text pieces that meet three
  conditions: no piece contains `$`; every piece that opens a clause or
  precedes a placeholder, and the ordering tail, start with a space; and
  the piece closing the search clause is non-empty and does not start
  with a digit. The handler's own pieces
  (`Listing`) are shown to meet them.
- `webhooks.dfy` (`Webhooks`) models `POST /api/webhooks/mercadopago`.
  That covers the audit row, the acknowledgement, the reconciliation
  guard, the mapping from provider status to charge status, and the update
  of the matching charges.
- `auth.dfy` (`Auth`) models `POST /api/auth/register` and
  `POST /api/auth/login` over the `users` table, which is keyed by its
  unique email.

The charge and user handlers that change tables are methods of the table
classes. The webhook handler is a module-level method that takes the audit
log and the charge table as arguments. Each of these methods is specified
by the new state it leaves and the answer it gives. The pure parts are
functions, and lemmas prove their properties.

A duplicate `order_id` on charge creation reaches the handler's catch-all
(backend/src/routes/charges.js:72-75), so the answer is 500
`Erro ao criar cobrança PIX`, not a conflict status. The model also keeps
two further consequences of the table definitions. First, a SERIAL id is
drawn even by an insert that then fails on a unique constraint. Second,
the unique `txid` column (backend/src/db/migrate.js:36) can refuse the
webhook's approval update as a whole. The handler swallows that error and
the charges stay as they were.

## Model

| member | source | states |
|---|---|---|
| Charges.RandomSuffix | backend/src/routes/charges.js:13 | the random suffix of a generated order id is below 1000 |
| Charges.GeneratedOrderIdParses | backend/src/routes/charges.js:13 | a generated id has the form `ORDER-<ms>-<n>`: parsing it gives back the clock reading and the suffix |
| Charges.GeneratedOrderIdInjective | backend/src/routes/charges.js:13 | two generated ids coincide only for the same clock reading and the same suffix |
| Charges.OrderIdFor | backend/src/routes/charges.js:23 | a non-empty client order id is used as is; otherwise the id is a generated `ORDER-<ms>-<n>` carrying the clock reading and a suffix below 1000 |
| Charges.ExpirationMs | backend/src/routes/charges.js:33 | the expiration is the clock plus `expireInMinutes * 60000` ms, and 30 minutes (1 800 000 ms) when the field is absent |
| Charges.InsertKeepsValid | backend/src/db/migrate.js:34-36 | appending a row with the next serial id and no `order_id` or `txid` clash keeps the unique constraints and the id counter |
| Charges.FindById | backend/src/routes/charges.js:82 | the lookup finds nothing exactly when no row has the id; what it finds is a row of the table with that id |
| Charges.GetCharge | backend/src/routes/charges.js:82-89 | 500 with `Erro interno do servidor.` exactly when the id is outside the 32-bit range of the `SERIAL` `id` column (backend/src/db/migrate.js:34), where the query raises; otherwise 404 with `Cobrança não encontrada.` exactly when no row has the id, and 200 with a row of the table with that id |
| Charges.ChargeTable.Create | backend/src/routes/charges.js:16-76 | missing amount or description gives 400 with no provider call and no insert; otherwise one provider request carrying the order id as external reference, the computed expiration and method `pix`; a provider failure gives 500 with nothing stored; an amount the `DECIMAL(10, 2)` column refuses (backend/src/db/migrate.js:39) gives 500 with nothing stored, the serial id spent only for an overflow and not for malformed text; a duplicate key gives 500 with nothing stored but the serial id spent; a valid request the provider accepts, whose amount the column takes and with no `order_id` or `txid` clash, is created (201), and a 400 occurs only for a missing field; success appends exactly one row with status `aguardando`, `qr_url` = `data:image/png;base64,` + the QR image, `copia_e_cola` = the QR code, and answers with that row's projection; the table's constraints are kept |
| ChargeQuery.QueryParams | backend/src/routes/charges.js:100-115 | there is one parameter per present filter |
| ChargeQuery.UsesRange | backend/src/routes/charges.js:100-115 | clauses numbered from `start` mention exactly the numbers `start .. start + count - 1`, in non-decreasing order |
| ChargeQuery.ListQueryShape | backend/src/routes/charges.js:96-117 | with no filter the query is exactly `SELECT * FROM charges WHERE 1=1 ORDER BY created_at DESC` with no parameters; every query ends with ` ORDER BY created_at DESC` |
| ChargeQuery.ListQueryPlaceholders | backend/src/routes/charges.js:100-115 | the placeholders read out of the text are the clause numbers in the order status, from, to, q; they are exactly `$1 .. $n` for the `n` parameters; a present `q` binds `%q%` as the last parameter and its clause reads the last number twice |
| ChargeQuery.BuildQuery | backend/src/routes/charges.js:96-117 | the step-by-step builder (each present filter appends its clause and parameter and takes the next placeholder number; the search clause reuses its number) produces exactly the query text and parameter list whose properties the two lemmas above state |
| ChargeQuery.BuildListQuery | backend/src/routes/charges.js:94-117 | the handler's builder, over the listing's own SQL text, produces that query text and parameter list |
| Webhooks.Reconcile | backend/src/routes/webhooks.js:37-55 | `approved`/`authorized` marks every charge of the external reference `pago` and stamps `paid_at`, `e2e_id`, `txid`, `payer_info` and `provider_raw`, whatever its previous status; `cancelled`/`rejected` sets `cancelado` and `provider_raw` and nothing else; any other status, no matching charge, or a refused approval update leaves the table unchanged; other orders' charges are never touched |
| Webhooks.ReconcileIdempotent | backend/src/routes/webhooks.js:37-53 | reconciling the same payment details twice at the same time gives the table that reconciling once gives |
| Webhooks.ReconcileKeepsValid | backend/src/routes/webhooks.js:37-53 | reconciliation keeps the charge table's unique constraints and id counter |
| Webhooks.ReconcileEvent | backend/src/routes/webhooks.js:23-55 | charges change only for a `payment` notification with a truthy payment id whose details could be fetched, and then as the fetched status dictates |
| Webhooks.ReplayedEventIdempotent | backend/src/routes/webhooks.js:23-55 | a notification delivered twice, with the same provider answer and time, leaves the charges as one delivery does |
| Webhooks.ProcessNotification | backend/src/routes/webhooks.js:23-55 | the charges become the event's reconciliation and keep their constraints; a non-reconcilable event takes no step; otherwise the payment is fetched first, then a failed fetch or a refused approval update is logged, an approval or cancellation records the update, and any other status does nothing more |
| Webhooks.ReceiveMercadoPago | backend/src/routes/webhooks.js:7-63 | every notification appends one audit row (provider `Mercado Pago`, the event type, headers and body, `processed` false, `retries` 0) and is acknowledged with 200 after that append and never again; the audit ids stay below the counter; the charges become the event's reconciliation and keep their constraints; after the acknowledgement the trace is exactly the processing steps: nothing for a non-reconcilable event, otherwise the fetch, then the logged error, the recorded update or nothing, as the fetched status and the `txid` constraint decide |
| Auth.RoleOrDefault | backend/src/routes/auth.js:21 | the stored role is the supplied role, or `operator` when none is given |
| Auth.Login | backend/src/routes/auth.js:35-66 | login succeeds exactly when a user has the email and the password equals the stored one; the claims are that user's id, email and role with an expiry one hour after issue; an unknown email and a wrong password both give the same 400 `Credenciais inválidas.` |
| Auth.UserTable.Register | backend/src/routes/auth.js:10-31 | a missing name, email or password gives 400 and changes nothing; a taken email gives 409 `Email já registrado.` and leaves the users unchanged; otherwise the user is stored under its email with the role or `operator`, the answer holds id, name, email and role but no password, and a login with the same email and password then succeeds with that role |

## Left out

- Database execution: connection failures and the resulting 500 answers are not modelled. This includes a failed audit insert, after which the webhook handler sends no answer at all, and a failed register insert other than a duplicate email. SQL matching (`ILIKE`, timestamp comparison) is not modelled either.
- Column limits (`VARCHAR(255)`, `VARCHAR(50)`) and the `created_at`, `updated_at` and `currency` defaults are not modelled. The `updated_at` column is not part of the model at all: the `BEFORE UPDATE` trigger `update_charges_updated_at` (backend/src/db/migrate.js:105-114) also rewrites it on both webhook updates, so the "nothing else" of `Webhooks.Reconcile` speaks of the modelled columns only.
- Amounts are opaque values. `parseFloat` and `DECIMAL(10, 2)` rounding are floating-point behaviour and are not modelled. Whether the column takes an amount is a parameter of `Charges.ChargeTable.Create`, not computed from the value.
- Charges.RandomSuffix: the draw is an exact real; the rounding of `Math.random() * 1000` in floating point is not modelled. For a few draws the double product rounds up to the next integer: the double written `0.29` lies just below 0.29, its exact product with 1000 floors to 289, but the rounded product is 290, which is what the source gives. The bound below 1000 holds either way.
- Dates are integers of milliseconds. `new Date(...)`, `toISOString` and date parsing of the `from`/`to` filters are not modelled. A `Timestamp` parameter keeps its source text.
- Charges.ExpirationMs: only an absent or integer `expireInMinutes` is modelled. A `null` value (which JavaScript turns into 0 minutes), strings and fractional minutes are not. Nor is an expiration outside the JavaScript `Date` range (about ±8.64e15 ms, reached for instance with `expireInMinutes: 200000000000`): there `toISOString()` raises before the provider is called and the handler answers 500, while the model still sends the request.
- Charges.GetCharge: a non-numeric `:id`, which makes the database raise an error and the handler answer 500, is not modelled. The id is an integer; one outside the 32-bit range is modelled and gives that 500.
- The serial counters (`nextId` of `ChargeTable`, `WebhookLog` and `UserTable`) are unbounded, while a `SERIAL` column stops at 2147483647, after which inserts fail.
- Charges.ChargeTable.Create: a provider answer without `point_of_interaction` raises in the handler and gives the same 500 as a provider refusal. The model folds it into `Refused`.
- Charges.ChargeTable.Create: a refused amount is answered with 500 after the provider has already created the payment; the model records the answer but not the orphaned provider payment.
- ChargeQuery: a query-string key given several times (an array value) is not modelled. Each filter is an optional string.
- The Mercado Pago SDK (`payments.create`, `payments.get`, `configure`) is a function parameter. Its behaviour is not visible.
- JWT signing is not modelled. The token is its claims record, with issue and expiry times in seconds, and the secret is not modelled.
- Passwords are stored and compared as plain text, as the code does.
- The webhook handler answers and then keeps working asynchronously. The model represents this as an ordered trace of steps (store, acknowledge, fetch, update or log), not as concurrency.
- Charges.ChargeTable.Create: `description` and the client `orderId` are optional strings. A JSON number or boolean in these fields is not modelled, although the handler tests them only by truthiness (backend/src/routes/charges.js:19, 23). For example, `orderId: 5` would be used as the order id, while `orderId: 0` is falsy and gets a generated one.
- Auth.UserTable.Register and Auth.Login: `name`, `email` and `password` are optional strings. A JSON number or boolean in these fields is not modelled, although the handlers test them only by truthiness and compare them with `===` (backend/src/routes/auth.js:12, 39, 48).
- Auth.UserTable.Register: a non-string `role` value is not modelled. The role is an optional string with JavaScript truthiness.
- Server wiring, CORS, the authentication middleware, logging and the admin front end are not part of this model.
