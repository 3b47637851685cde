# Checkout client payment lifecycle, modelled in Dafny

This project models the payment lifecycle of a small checkout service that takes payments
through the Dintero hosted checkout. The model covers:

- **payment service**: creates a payment row and its checkout session in one database transaction, marks the row FAILED when the session step throws, reads payments back, and reconciles a payment's status with the provider's latest session event;
- **status mapper**: translates provider status strings to local payment statuses;
- **provider client**: caches a client-credentials access token with a safety margin of 300 seconds, and shapes the session and session-status requests;
- **order mapper**: projects a payment row to its API response, with an optional session link;
- **request validation**: the rules for the create-payment body, covering a safe integer amount of at least 1, a currency from the ISO 4217 table, and a trimmed non-empty receipt;
- **provider configuration**: checks the required environment variables and fills every other setting with its default.

Everything outside the process is a parameter:

- the provider's replies (a body or an error message);
- the clock readings;
- the id and creation time the database assigns to a new row;
- the set of statements at which the database throws (`faults: set<Step>`).

The `orders.payments` table is a map from id to payment, and `PaymentStore.Database` is a class.

- The table holds the committed rows.
- An open transaction is a buffer of pending writes, applied by COMMIT and dropped by ROLLBACK.
- Outside a transaction, each write is applied at once.
- A statement that throws changes nothing, with one exception: a COMMIT that throws ends the transaction without applying it.
- ROLLBACK outside a transaction does nothing.

`PaymentService.CreatePayment` and `PaymentService.UpdatePaymentStatus` are methods of the service module that take a `Database` and change its state through the class's methods. Each is proved equal to a reference function (`CreateSpec`, `ReconcileSpec`) whose properties are proved for every combination of replies and faults.

Files:

- `wrappers.dfy`: Option and Result
- `runtime.dfy`: the environment and JavaScript truthiness of optional strings
- `payment.dfy`: the payment row, statuses, statement names and errors
- `status_mapper.dfy`
- `dintero_config.dfy`
- `dintero_types.dfy`
- `dintero_client.dfy`
- `order_mapper.dfy`
- `payment_validation.dfy`
- `payment_store.dfy`
- `payment_service.dfy`

Behaviour the code has that a reader of its comments might not expect:

- **Failing session COMMIT.** The compensation handler (app/example/src/services/paymentService.ts:40-47) also catches a failure of the session COMMIT (line 37). At that point the failed COMMIT has already ended the transaction and discarded the inserted row. The handler's UPDATE then finds no row, so no FAILED row survives. In the model, where only the statements named in `faults` throw, the FAILED row survives, and the outer ROLLBACK cannot undo it, only when the provider call or the session UPDATE throws. `PaymentService.CreateSpec` states both cases. On a real Postgres server a failed session UPDATE would also abort the transaction, so the compensating UPDATE would throw too and no row would survive; that aborted-transaction state is listed under "## Left out".
- **Extra status.** The local status enum (app/example/src/models/payment.ts:1-8) has no REFUNDED, but the status mapper returns it (app/example/src/mappers/statusMapper.ts:18). `Payments.PaymentStatus` includes it.

## Model

| member | source | states |
|---|---|---|
| Payments.StatusNameInjective | app/example/src/models/payment.ts:1-8 | distinct statuses have distinct string values, so a stored status string identifies one status |
| StatusMapper.MapDinteroStatus | app/example/src/mappers/statusMapper.ts:4-25 | the mapping is total and never yields INITIATED. For each local status it states exactly which provider strings produce it: AUTHORIZED from AUTHORIZED; CAPTURED from PARTIALLY_CAPTURED or CAPTURED; CANCELLED from AUTHORIZATION_VOIDED; REFUNDED from PARTIALLY_REFUNDED or REFUNDED; FAILED from REJECTED or FAILED; PENDING from every other string |
| StatusMapper.WaitingStatesArePending | app/example/src/mappers/statusMapper.ts:6-8 | INITIALIZED, ON_HOLD, the "PENDING" fallback and the empty string all map to PENDING |
| Runtime.EnvOr | app/example/src/integrations/dintero/config.ts:14 | a non-empty variable wins, and an unset or empty one yields the fallback |
| DinteroConfig.Missing | app/example/src/integrations/dintero/config.ts:2-3 | a name is missing iff it is required and unset or empty. There are never more missing names than required names, and all are missing iff none is set |
| DinteroConfig.MissingRequired | app/example/src/integrations/dintero/config.ts:2-3 | for the two required variables, the missing list is the ID before the SECRET, each present iff unset or empty |
| DinteroConfig.JoinPair | app/example/src/integrations/dintero/config.ts:7 | a single name joins to itself, and two names join with the separator between them |
| DinteroConfig.ValidateDinteroConfig | app/example/src/integrations/dintero/config.ts:1-10 | no error iff both credentials are set. Otherwise the message is the fixed prefix followed by the missing names joined by ", ", for each of the three cases |
| DinteroConfig.Account | app/example/src/integrations/dintero/config.ts:14 | the account is DINTERO_ACCOUNT when set and non-empty, otherwise T11223674 |
| DinteroConfig.ConfigOf | app/example/src/integrations/dintero/config.ts:16-28 | each of the seven fields is its variable when set and non-empty, whatever the other variables hold, and otherwise its default: the auth URL and audience built from the account, the two session URLs, "default" for the profile id, and the empty string for the credentials |
| DinteroConfig.LoadConfig | app/example/src/integrations/dintero/config.ts:1-28 | loading fails iff validation fails, with its message. On success the value is the configuration record above, its credentials are the non-empty environment values, and every setting is non-empty |
| DinteroConfig.DefaultsWhenUnset | app/example/src/integrations/dintero/config.ts:14-27 | with only the two credentials set, the account is T11223674, and the auth URL and audience interpolate it. The session URL ends in sessions-profile, the status URL ends in sessions, and the profile id is "default" |
| DinteroConfig.AccountDerivedUrls | app/example/src/integrations/dintero/config.ts:14-27 | the default auth URL and audience interpolate DINTERO_ACCOUNT when it is set |
| DinteroConfig.OverridesWin | app/example/src/integrations/dintero/config.ts:17-27 | an explicit non-empty variable wins over the default derived from the account |
| DinteroClient.ExpiryAt | app/example/src/integrations/dintero/client.ts:51 | the stored expiry is 300 s before the provider's expiry. A grant of at most 300 s is already stale when received, and a longer one is not |
| DinteroClient.Client.constructor | app/example/src/integrations/dintero/client.ts:15-22 | a new client holds no token and no expiry |
| DinteroClient.Client.GetAccessToken | app/example/src/integrations/dintero/client.ts:24-54 | on a cache hit, it returns the stored token with no call. On a miss, it posts exactly one client-credentials grant, stores the new token with its margin-adjusted expiry, and returns that token. A failed grant leaves the cache unchanged |
| DinteroClient.Client.CreateSession | app/example/src/integrations/dintero/client.ts:56-75 | posts the caller's request to the session URL, with the profile id replaced by the configured one and a "Bearer " + token header. The reply is returned unchanged. A failed grant sends nothing further |
| DinteroClient.Client.GetSessionStatus | app/example/src/integrations/dintero/client.ts:77-93 | gets the status URL + "/" + session id with the bearer header, and returns the reply unchanged |
| DinteroClient.FreshnessAfterGrant | app/example/src/integrations/dintero/client.ts:25-29 | after a grant, the cache hits iff the token is non-empty, the expiry is non-zero and now is strictly before it. It misses at the expiry itself, and always misses for a grant of at most 300 s |
| OrderMapper.ToResponse | app/example/src/mappers/orderMapper.ts:16-39 | id, created_at, amount, currency and receipt are copied, and status is the status's string value. links is present iff includeLinks and session_url is non-empty, and is then the single session_link to session_url |
| OrderMapper.IncludeLinksDefaultsToFalse | app/example/src/mappers/orderMapper.ts:16-19 | omitting includeLinks gives the response without links |
| OrderMapper.SessionIdNeverExposed | app/example/src/mappers/orderMapper.ts:20-27 | the response does not depend on the session id |
| OrderMapper.ToListResponse | app/example/src/mappers/orderMapper.ts:41-45 | the list keeps length and order, each entry is the response without links, and an empty list maps to an empty list |
| OrderMapper.ListResponseAppend | app/example/src/mappers/orderMapper.ts:41-45 | mapping a concatenation is the concatenation of the mapped lists |
| PaymentValidation.TrimStart | app/example/src/validation/paymentValidation.ts:35-36 | the result is a suffix of the input that does not start with white space, and everything dropped is white space |
| PaymentValidation.TrimEnd | app/example/src/validation/paymentValidation.ts:35-36 | the result is a prefix of the input that does not end with white space, and everything dropped is white space |
| PaymentValidation.Trim | app/example/src/validation/paymentValidation.ts:35-36 | the result is a slice of the input that drops only white space and has none at either end. It is empty iff the input is all white space |
| PaymentValidation.TrimFixesTrimmed | app/example/src/validation/paymentValidation.ts:35-36 | a string with no white space at its ends is unchanged by trimming |
| PaymentValidation.TrimIdempotent | app/example/src/validation/paymentValidation.ts:35-36 | trimming twice equals trimming once |
| PaymentValidation.CheckAmount | app/example/src/validation/paymentValidation.ts:29 | amount passes iff it is a number that is an integer from 1 up to Number.MAX_SAFE_INTEGER. A number beyond ±MAX_SAFE_INTEGER breaks the safe-number rule, which the number type checks before integer and minimum. Within the safe range, a non-integer breaks the integer rule and an integer below 1 breaks the minimum rule. Any other present value breaks the number type rule. The required rule is broken iff the amount is missing |
| PaymentValidation.CheckCurrency | app/example/src/validation/paymentValidation.ts:31-33 | currency passes iff it is a string from the ISO 4217 table. It breaks the required rule iff it is missing, and the listed-values rule iff it is present but not a listed string. The listed values are checked before the string type, so this includes non-strings |
| PaymentValidation.CheckReceipt | app/example/src/validation/paymentValidation.ts:35-38 | receipt passes iff it is a string with a non-white-space character, so it is non-empty once trimmed. It breaks the empty rule iff it is a string of white space only (the empty string included), the string type rule iff it is present but not a string, and the required rule iff it is missing |
| PaymentValidation.UnknownKeyErrors | app/example/src/validation/paymentValidation.ts:28-39 | every key outside the schema gives one not-allowed error, in order |
| PaymentValidation.Errors | app/example/src/validation/paymentValidation.ts:41-46 | all errors are collected. Every error names a failing field, every failing field or unknown key has an error, and there is one error per failing field plus one per unknown key. Each error carries the rule its field's check found broken, and not-allowed for an unknown key. Errors come in schema order: amount, currency, receipt, then unknown keys |
| PaymentValidation.OneErrorPerField | app/example/src/validation/paymentValidation.ts:41-46 | for a body a JSON object can be (no key twice, no declared key among the others), no two errors name the same field and no declared key is reported as unknown |
| PaymentValidation.ValidateCreatePayment | app/example/src/validation/paymentValidation.ts:41-46 | valid iff every rule holds and there is no other key. The value then has the integer amount (a safe integer of at least 1), the currency and the trimmed, non-empty receipt. Otherwise the non-empty list of all errors |
| PaymentValidation.ValidateRoundTrip | app/example/src/validation/paymentValidation.ts:41-46 | a valid request passes with its values unchanged apart from the trimmed receipt, and the validated value validates to itself again |
| PaymentValidation.ExampleCurrencies | app/example/src/validation/paymentValidation.ts:9-26 | USD, EUR, GBP, JPY, NOK, SEK and DKK are in the table |
| PaymentStore.Database.Connect | app/example/src/services/paymentService.ts:9 | a connection is taken unless the pool throws |
| PaymentStore.Database.Release | app/example/src/services/paymentService.ts:52 | a connection is given back |
| PaymentStore.Database.Begin | app/example/src/services/paymentService.ts:11 | opens a transaction unless it throws, and leaves the rows unchanged |
| PaymentStore.Database.Insert | app/example/src/services/paymentService.ts:13-16 | adds the row unless it throws or its id is taken. Inside a transaction the row stays pending |
| PaymentStore.Database.Update | app/example/src/services/paymentService.ts:32-35 | changes the row with the id, if any, and returns it. When it throws, nothing changes |
| PaymentStore.Database.Commit | app/example/src/services/paymentService.ts:37 | applies the pending writes, or when it throws ends the transaction without them |
| PaymentStore.Database.Rollback | app/example/src/services/paymentService.ts:49 | drops the pending writes and changes nothing outside a transaction |
| PaymentService.ReturnUrl | app/example/src/services/paymentService.ts:22 | the URL is exactly BASE_URL, or http://localhost:3000 when unset or empty, followed by /orders/{id}/payment-redirect: it starts with the base, ends with the suffix, and is as long as the two together |
| PaymentService.CreateSpec | app/example/src/services/paymentService.ts:8-54 | see the list after this table |
| PaymentService.AttachAndCommit | app/example/src/services/paymentService.ts:19-39 | the session step throws the provider error, the UPDATE error or the COMMIT error, in that order. On success the committed table gains the row with the provider's session |
| PaymentService.MarkFailedAndCommit | app/example/src/services/paymentService.ts:40-46 | the handler's UPDATE or COMMIT error, if any. Otherwise the row is FAILED and the transaction is closed |
| PaymentService.CreateInTransaction | app/example/src/services/paymentService.ts:10-47 | the transaction block agrees with CreateSpec in what it throws or returns, in the committed table and in the request sent |
| PaymentService.CreatePayment | app/example/src/services/paymentService.ts:8-54 | agrees with CreateSpec in result, table and request. It leaves no transaction open, and releases the connection exactly once whenever one was taken |
| PaymentService.FindById | app/example/src/services/paymentService.ts:56-62 | the committed row with the id, or none iff there is no such row. A failing SELECT gives its error |
| PaymentService.FindAll | app/example/src/services/paymentService.ts:64-67 | every committed row exactly once: as many rows as the table holds, each one a row of the table, and no id twice |
| PaymentService.LatestStatusName | app/example/src/services/paymentService.ts:82-83 | the name of the last event. It is "PENDING" when the list is absent or empty or the name is empty, and is never empty |
| PaymentService.OnlyLastEventCounts | app/example/src/services/paymentService.ts:82-83 | earlier events never change the result, and a last event with a name decides it |
| PaymentService.ReconcileSpec | app/example/src/services/paymentService.ts:69-92 | see the list after this table |
| PaymentService.ReconcileIdempotent | app/example/src/services/paymentService.ts:82-91 | reconciling again against the same reply returns the same row and changes nothing |
| PaymentService.UpdatePaymentStatus | app/example/src/services/paymentService.ts:69-92 | agrees with ReconcileSpec in result, table and provider query, and leaves no transaction open |

`PaymentService.CreateSpec` states:

- exactly one row can appear, under the new id, and no existing row changes;
- the new row carries the input amount, currency and receipt;
- the result is success iff the provider opens a session and BEGIN, INSERT, the session UPDATE and COMMIT all succeed;
- the row returned is the committed one: PENDING, with the provider's session id and URL;
- a row kept after a failure is FAILED and has no session;
- a provider or session-UPDATE failure leaves a committed FAILED row and rethrows the original error;
- whenever the compensating UPDATE and COMMIT succeed, the original error is rethrown: the provider's, else the session UPDATE's, else the session COMMIT's;
- an error from the compensating UPDATE or COMMIT replaces the original error, and then no row persists;
- a failing session COMMIT leaves no row;
- a failure of the connection, BEGIN or INSERT, or a taken id, writes nothing and sends no request, and the error is that of the first statement that throws (a taken id throws at the INSERT);
- the request carries the row's amount, currency and receipt as merchant reference, an empty profile id, and the return URL `ReturnUrl` builds for the new id.

`PaymentService.ReconcileSpec` states:

- an unknown id gives "Order not found", and a row without a session gives "No payment session found for this order";
- a provider error or any other error writes nothing;
- a throwing SELECT propagates its own error, and so does a throwing status UPDATE after a successful provider reply;
- the provider is asked about the row's own session exactly when the row exists and has one;
- success rewrites only that row's status, to the mapped latest event, which is never INITIATED;
- rows keep their fixed fields.

## Left out

- PaymentValidation.CheckAmount: numbers are finite reals, so a JSON number too large for a double, which parses to ±Infinity and is refused by the number type as infinite, appears in the model as a large finite number and is refused as unsafe instead.
- The HTTP layer: routes, controller, error handler, logging and server start-up. They are wiring around the core.
- The validation middleware's formatting of error paths, and the pool construction and its environment check. They are connection and HTTP plumbing.
- SQL text, `NOW()` and the database-generated id. The id and creation time are parameters; `createdAt` is an opaque natural number.
- Postgres's aborted-transaction state, in which every statement after an error fails. The model instead fails exactly the statements named in `faults`.
- A failing ROLLBACK. The model's ROLLBACK never throws.
- Concurrency: parallel requests, other connections writing between statements, and races on the shared token cache.
- The network client: the 30-second timeout and HTTP transport failures other than an error reply. Basic-auth credentials are modelled as the `id:secret` string before base64 encoding.
- The provider's own status checks: the provider's replies are inputs.
- The service's calls to the provider are not routed through `DinteroClient.Client`. They take the outcome of `createSession` and `getSessionStatus` as a parameter, and the client's own contracts state how that outcome is obtained.
- PaymentValidation.ValidateCreatePayment: does not model the validation library's error messages, its conversion of numeric strings to numbers, or its other value types. An amount is a number, a string or another value.
- PaymentValidation.Errors: reports one error per failing field, the first the library reports for it, rather than every one it lists for that field. A present currency that is not a listed string, when it is also not a string or is empty, is reported by the library both as not one of the listed values and as a type or empty-string error; the model keeps only the listed-values error (`PaymentValidation.CheckCurrency`).
- PaymentValidation.CheckCurrency: beyond the examples in `PaymentValidation.ExampleCurrencies`, the model does not state for individual strings whether they are in the table, nor that every code in it has three letters.
- Bodies that are not objects at all. The body is modelled as its three fields plus the names of any other keys.
- DinteroConfig: the throw at module load is modelled as `LoadConfig` returning the error message. The configuration is read once, from an environment map.
