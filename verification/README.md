# Launlog API: a model of its transactional core

A Dafny model of the parts of the Launlog laundry back end that keep state under concurrency: the
order and payment ledger, refresh-token families, support grants, the sign-in rate limiter, the rules
about staff, outlets and receipt templates, the reports that read the ledger, and the exact text and
number forms around them.

`dafny verify dfyconfig.toml` checks everything.

## How it is built

- `Outcome`, `Places`, `Sets`, `Text`, `Decimal` hold shared data types and facts about sets, strings and numerals.
- `Quantity`, `Pricing`, `Numbering` are quantities, line totals, invoice and outlet codes.
- `Tables` is the database the order services share. `Plans` says what each order transaction decides
  when it runs alone: the rows it writes and its answer. `Shapes` shows that there are only five kinds of
  change, and the invariants in `Ledger`, `Lifecycle`, `Numbers` (collected in `Soundness`) are proved for
  each kind; `Retries` and `Answers` say what callers are told.
- `Effects` says of every request, on rows alone, who may make it, which error everyone else gets and every column
  it writes; the plans have exactly these effects. `SessionEffects`, `SupportEffects`, `StaffEffects` and
  `TemplateEffects` do the same for the other services.
- `Store` is the same services as a class whose methods update the tables statement by statement, each
  proved to do exactly what its plan says.
- `Interleaving` runs the transactions statement by statement with row and key locks, private writes and
  commits; `Serializability` proves every such behaviour equal to a serial one and carries the invariants over.
  `Continuations` says what callers may rely on from one moment of a behaviour to any later one.
- `Reports` is the outlet report over sound tables; `ReportContents` says which orders and payments it counts.
- `Sessions` and `SessionRaces` do the same for refresh-token families, `Support`, `SupportRaces` and
  `SupportContinuations` for support grants. `Limiter`, `Staff`, `Templates` are classes with their invariants;
  `Message` is receipt text.

## Assumptions

- PostgreSQL runs at Read Committed: a statement sees what is committed plus its transaction's own writes,
  row locks last until the transaction ends, a waiting lock reads the row as it then is, and a failed
  transaction changes nothing.
- Ids come from sequences and secrets are random, so a drawn id or secret is not in use. Clock readings,
  drawn ids, and whether a password matched are parameters.
- Equal request hashes mean equal payloads. A token's hash stands for its secret.
- Rows of other tables that authorize a caller or price an order are the ones locked by the transaction
  (`Tables.Directory`).
- New orders are RECEIVED and UNPAID; service prices are not negative; quantity text is what PostgreSQL
  prints for NUMERIC(12,3).
- Nothing inserts refund rows. The branches that test for them are modelled.
- Amounts grouped for a receipt are never negative; `Message.NegativeGroupsExactly` says what would go wrong.
- Report zones have a fixed distance from UTC, as all Indonesian zones do.

## Where code and promise differ

- `docs/api.md:58` says that reusing a payment's key and payload returns the existing payment. On an order
  cancelled meanwhile it is refused: `Retries.PaymentRetryIsStable` gives the exact condition and
  `Retries.RetryAfterCancellationIsRefused` a family of inputs.
- Reactivating a staff account whose outlets are all inactive leaves active staff with nowhere to work:
  `Staff.KeepsStaffExactly`, `Staff.ReactivationStrands`.
- The limiter reads the clock before its lock. Readings that arrive out of order can let a purged key count
  anew: `Limiter.AgreesExactly` says exactly when, in terms of the limiter's own removed entries,
  `Limiter.LateReadingForgetsNothing` which readings are safe, and `Limiter.BackwardClockForgets` gives inputs.
  That equivalence is about the tables. Once a window has been forgotten, decisions for its key can err either
  way (`Limiter.ForgettingAlsoBlocks`) until the key has rested for a window (`Limiter.RestRestores`); decisions
  for keys in step stay right throughout (`Limiter.DecidesAlikeSince`).
- `docs/api.md:84` says the first template becomes the default automatically; a client can decline it:
  `Templates.StaysServedExactly` says exactly when, `Templates.DeclinedDefaultLeavesNone` gives inputs.

## Model

| member | source | states |
|---|---|---|
| Quantity.Parse | internal/service/orders.go:597-635 | accepts exactly the texts of 1-9 digits with an optional dot and 1-3 digits and nonzero value, returning 1000 times that value, at most 999999999999 |
| Quantity.MeaningIsUnique | internal/service/orders.go:597-635 | a quantity text denotes at most one number of thousandths |
| Quantity.FormatSpells | internal/service/orders.go:580-587 | formatting the three-decimal column text of m spells a well-formed numeral that denotes m |
| Quantity.RoundTrip | internal/service/orders.go:580-635 | parsing the formatted text of every storable quantity returns it, and the text has a dot exactly when it is not whole |
| Quantity.PrintedFormIsShortest | internal/service/orders.go:580-587 | the printed form is the one shortest text with its meaning |
| Pricing.PriceLines | internal/service/orders.go:239-265 | the loop returns what `Priced` says, which `PricedBillsExactly` pins: the lines in order with their sum, or the first error |
| Pricing.PricedBillsExactly | internal/service/orders.go:239-265 | the result is exactly the lines that bill the items (catalog's name, unit and price, the quantity the text denotes, whole for pieces, the product rounded) when their sum fits, and otherwise the error of the first item that cannot be billed or does not fit |
| Pricing.RoundsHalfUp | internal/service/orders.go:252-254 | a line total is the product over a thousand rounded half up |
| Pricing.MatchesColumnCheck | db/migrations/000003_orders.up.sql:101 | the total inserted satisfies the column's own rounding check |
| Pricing.OverflowExactly | internal/service/orders.go:255-261 | for valid items the early exit fires exactly when the full exact sum exceeds 2^63-1 |
| Pricing.PricedExactly | internal/service/orders.go:239-265 | a request is priced exactly when every item is valid and the exact sum fits |
| Pricing.RoundingDrift | internal/service/orders.go:252-258 | a thousand times the total differs from the exact sum by at most 500 per line |
| Pricing.OrderOfItemsIsIrrelevant | internal/service/orders.go:239-265 | permuting the items changes neither acceptance nor the total |
| Numbering.OutletCodeInjective | internal/repository/postgresql/management.sql.go:52-60 | different allocated numbers give different outlet codes |
| Numbering.InvoiceTextInjective | internal/service/orders.go:274-280 | two equal invoice texts come from the same outlet code, day and sequence number |
| Numbering.OutletCodeReads | internal/repository/postgresql/management.sql.go:52-60 | the code is the number's numeral filled with zeros to three digits and no more |
| Numbering.InvoiceTextReads | internal/service/orders.go:274-280 | the text is code, eight-digit date and sequence of at least six digits, joined by dashes |
| Text.TrimStrips | internal/service/payments.go:325 | trimming removes white space at both ends and nothing else |
| Text.ByteLengthBounds | internal/service/orders.go:443-446 | the byte length counts one per basic Latin character and at most four for any |
| Plans.PaymentAmounts | internal/service/payments.go:98-116 | applied plus change is what was tendered, applied is positive and within the balance, and change is given only in cash on a settled balance |
| Shapes.EveryPlanIsShaped | internal/service/orders.go:142-489 | a committed order transaction is one of five kinds of change: nothing, insertion, payment amendment, one lifecycle step, new outlet |
| Shapes.RefusalsChangeNothing | internal/service/orders.go:189-213 | a refusal, conflict or replay leaves every table as it was, counters and audit included |
| Shapes.EveryChangeIsAuditedOnce | internal/service/payments.go:229-231 | a transaction that changes a table adds exactly one audit row, every other one none |
| Shapes.RunExtends | internal/repository/postgresql/payments.sql.go:399-405 | over any run no order or payment disappears, what identifies it never changes, and a voided payment is never touched again |
| Effects.RecordingHasItsEffect | internal/service/payments.go:128-240 | which recordings succeed and which error every other one gets; the stored row has the request's method, reference, notes, caller and key, the time, the order's place, and the tendered amount or for cash at most the balance |
| Effects.VoidHasItsEffect | internal/service/payments.go:324-415 | likewise for a void: one row becomes voided by the caller, now, for the trimmed reason, and only its author's identical void is repeated |
| Effects.MoveHasItsEffect | internal/service/orders.go:367-420 | likewise for a status change: it succeeds exactly along the three links and writes status, completion stamp, history and audit |
| Effects.CancellationHasItsEffect | internal/service/orders.go:442-489 | likewise for a cancellation: exactly open orders holding no confirmed money |
| Effects.CreationHasItsEffect | internal/service/orders.go:142-350 | likewise for a creation: every column of the order, its items in order, its number, history and audit |
| Effects.OutletHasItsEffect | internal/repository/postgresql/management.sql.go:52-60 | likewise for a new outlet |
| Effects.EffectExactly | internal/service/orders.go:142-489 | in sound tables a request does and answers something exactly when that is its effect, so the description leaves nothing open |
| Ledger.AddingKeeps | internal/service/payments.go:200-216 | adding a confirmed payment that fits the balance, with the status it implies, keeps the ledger |
| Ledger.StrikeReturnsAmount | internal/service/payments.go:370-381 | voiding a confirmed payment lowers the confirmed total by exactly its amount |
| Ledger.RecordKeeps | internal/service/payments.go:128-240 | recording keeps the ledger and never finds it broken |
| Ledger.VoidKeeps | internal/service/payments.go:324-415 | voiding keeps the ledger and never finds it broken |
| Ledger.DropKeeps | internal/service/orders.go:442-489 | cancelling only an order stored as UNPAID keeps a cancelled order free of confirmed payments |
| Ledger.MoveKeeps | internal/service/orders.go:380-420 | a status change keeps the ledger and the completion stamp in step with the status |
| Ledger.CreateKeeps | internal/service/orders.go:142-350 | creation keeps the ledger |
| Ledger.TransactionKeepsLedger | internal/service/payments.go:189-216 | every transaction keeps 0 <= confirmed <= total, the stored status and the cancelled orders, and none reports the ledger invariant |
| Ledger.LedgerAlways | internal/service/payments.go:118-126 | the ledger holds after every run |
| Ledger.CancelledHoldsNothing | internal/service/orders.go:460-467 | a cancelled order is UNPAID and every payment it ever had is voided |
| Lifecycle.StepsDescend | internal/service/orders.go:367-378 | every allowed transition lowers the rank |
| Lifecycle.ChainIsShort | internal/service/orders.go:367-378 | a history has at most four rows, fewer while steps remain |
| Lifecycle.OnlyTheEndIsFinal | internal/service/orders.go:367-378 | only the last row of a history reaches COMPLETED or CANCELLED |
| Lifecycle.ChangeKeepsHistories | internal/repository/postgresql/orders.sql.go:122-125 | every change keeps each history a chain of allowed links from RECEIVED to the current status |
| Lifecycle.HistoriesAlways | internal/service/orders.go:380-489 | the same over every run |
| Lifecycle.StatusFollowsLinks | internal/service/orders.go:380-489 | a status stays or follows one allowed link, and reaches CANCELLED exactly through Cancel |
| Lifecycle.FinalStaysFinal | internal/service/orders.go:367-378 | COMPLETED and CANCELLED never change again, nor does the history |
| Lifecycle.StepsLowerRank | internal/service/orders.go:380-489 | every successful status change or cancellation strictly lowers the rank of its order |
| Lifecycle.RankNeverRises | internal/service/orders.go:380-489 | across any run an order's rank never rises |
| Numbers.ChangeKeepsKeys | internal/repository/postgresql/orders.sql.go:471-478 | at most one order per outlet and idempotency key |
| Numbers.ChangeKeepsLines | internal/service/orders.go:281-311 | every order's total is the sum of its stored line totals |
| Numbers.ChangeKeepsInvoices | internal/repository/postgresql/orders.sql.go:15-21 | each counter has issued exactly the numbers from one up to it, each once |
| Numbers.ChangeKeepsOutlets | internal/repository/postgresql/management.sql.go:52-60 | outlet numbers of a business are exactly one to its counter, each once |
| Numbers.NumbersAlways | internal/service/orders.go:274-311 | all four over every run |
| Numbers.InvoiceTextsDistinct | internal/service/orders.go:274-280 | no two orders of a business print the same invoice number |
| Numbers.OutletCodesDistinct | internal/repository/postgresql/management.sql.go:52-60 | no two outlets of a business have the same code text |
| Numbers.SequenceIsGapless | internal/repository/postgresql/orders.sql.go:15-21 | the numbers of an outlet and day are exactly 1..k, each on one order |
| Retries.RecordingStores | internal/service/payments.go:159-234 | a successful recording leaves its payment stored under its key and hash, and cash applied plus change is what was tendered |
| Retries.UsedKeyAnswers | internal/service/payments.go:152-184 | the answer to an already used key is decided by the stored row: cancelled order, conflict, or replay |
| Retries.PaymentRetryIsStable | internal/service/payments.go:159-184 | after any run a retry returns the same receipt and change and writes nothing, exactly when the order is not cancelled |
| Retries.RetryAfterCancellationIsRefused | internal/service/payments.go:152-154 | pay, void, cancel, retry: the retry is refused |
| Retries.PaymentConflictIsStable | internal/service/payments.go:165-168 | the key with another payload is refused after any run and writes nothing |
| Retries.VoidRetryIsStable | internal/service/payments.go:352-368 | the same caller's identical void answers with the stored payment after any run, cancelled order included |
| Retries.CreationRetryIsStable | internal/service/orders.go:189-213 | a retried creation finds its order or reports the conflict after any run, and adds nothing |
| Soundness.TransactionKeepsSound | internal/service/orders.go:142-489 | money, histories, keys, lines and numbers are kept by every transaction |
| Soundness.EveryRunIsSound | internal/service/orders.go:142-489 | from empty tables every run is sound |
| Store.Database.Record | internal/service/payments.go:128-240 | the statements of Record produce exactly the planned tables and answer |
| Store.Database.StrikePayment | internal/service/payments.go:372-411 | the total read back after the update decides, and a late failure restores every table |
| Store.Database.Void | internal/service/payments.go:324-415 | the statements of Void produce exactly the planned tables and answer |
| Store.Database.TransitionStatus | internal/service/orders.go:380-420 | likewise for a status change |
| Store.Database.Cancel | internal/service/orders.go:442-489 | likewise for a cancellation |
| Store.Database.Create | internal/service/orders.go:142-350 | likewise for a creation, with its pricing and item loops |
| Store.Database.InsertItems | internal/service/orders.go:294-306 | the loop inserts one row per line in order |
| Store.Database.AllocateInvoiceNumber | internal/repository/postgresql/orders.sql.go:15-21 | the upsert returns the next number and advances the counter by one |
| Store.Database.OpenOutlet | internal/repository/postgresql/management.sql.go:52-60 | allocating an outlet number and inserting the outlet |
| Interleaving.AdvanceSound | internal/service/payments.go:136-234 | each statement keeps everything its transaction has read true, or decides as a transaction running alone would |
| Serializability.ConfinedKeepsReads | internal/repository/postgresql/orders.sql.go:529-544 | a commit changes nothing that another transaction has read under its locks |
| Serializability.EveryInterleavingIsSerial | internal/service/orders.go:426-440 | every interleaving has the tables and answers of running the ended transactions one at a time in the order they ended |
| Serializability.EveryInterleavingIsSound | internal/service/payments.go:136-234 | from sound tables every interleaving is sound and no caller is told that the ledger is broken |
| Serializability.PaidTotalStaysCommitted | internal/service/payments.go:189-193 | the paid total a transaction has read stays the committed confirmed total until it writes |
| Answers.PaymentAnswer | internal/service/payments.go:176-240 | a payment's answer reports the status and confirmed total stored after it, for a stored payment |
| Answers.VoidAnswer | internal/service/payments.go:352-415 | a void's answer shows the payment voided by this caller for this reason and the balance without it |
| Answers.CreationAnswer | internal/service/orders.go:189-350 | a new order stores exactly the priced lines; a replay names the order holding the key |
| Answers.LifecycleAnswer | internal/service/orders.go:380-489 | a move's answer is the status stored, and a cancellation stores the caller and the trimmed reason on an unpaid order |
| Answers.EveryAnswerHolds | internal/service/orders.go:142-489 | every answer of every request, refusals and repetitions included, is true of the tables it left |
| Answers.RequestsStayInTheirBusiness | internal/repository/postgresql/orders.sql.go:529-544 | no request changes a row of another business |
| Continuations.LaterIsContinuation | internal/service/orders.go:426-440 | the tables at any later moment of an interleaving are those of the earlier moment after a serial run |
| Continuations.FinalInBehaviour | internal/service/orders.go:367-378 | an order once COMPLETED or CANCELLED in an interleaving stays so with the same history |
| Continuations.EveryAnswerGivenHolds | internal/service/payments.go:128-240 | every answer given in an interleaving is true of the tables before and after its transaction |
| Continuations.EveryEndedHasItsEffect | internal/service/payments.go:128-240 | in any interleaving each ended transaction did and answered exactly what its effect says |
| Continuations.OneKeyPaysOnce | internal/service/payments.go:159-184 | of two successful payments of an order under one key, however they interleave, the later repeats the earlier one's receipt and writes nothing |
| Continuations.RetryFailsExactlyWhenCancelled | internal/service/payments.go:152-184 | in an interleaving the retry of a successful payment fails exactly when the order was cancelled in between |
| Continuations.OneKeyCreatesOnce | internal/service/orders.go:189-213 | of two successful creations under one key, however they interleave, the later names the earlier one's order and writes nothing |
| Reports.GroupsAddUp | internal/repository/postgresql/reports.sql.go:93-100 | summing the groups is summing the rows, and each group is the sum of its rows |
| Reports.WindowIsDays | internal/repository/postgresql/reports.sql.go:31-37 | the half-open window holds exactly the instants of the requested local days |
| Reports.OrderReconcilesExactly | internal/repository/postgresql/reports.sql.go:79-92 | one order's value is collected + outstanding + cancelled exactly when it is not overpaid, or holds nothing if cancelled |
| Reports.CalendarMissesNothing | internal/repository/postgresql/reports.sql.go:38-41 | the calendar's daily rows add up to all rows of the range |
| Reports.OrdersReportReconciles | internal/repository/postgresql/reports.sql.go:144-149 | in a sound ledger value = collected + outstanding + cancelled in the summary and every day, one row per day, days adding up to the summary |
| Reports.IncomeAddsUpBothWays | internal/repository/postgresql/reports.sql.go:42-61 | the days and the payment methods each add up to the income summary |
| ReportContents.IncomeIsTakings | internal/repository/postgresql/reports.sql.go:42-61 | summary, every day and every method are the number and sum of exactly the outlet's confirmed payments taken in those local days |
| ReportContents.VoidLowersIncome | internal/service/payments.go:370-381 | a void takes exactly its payment out of the income of every cut it was taken in |
| ReportContents.RecordingRaisesIncome | internal/service/payments.go:200-216 | a first recording adds exactly its amount to today's income and its method's |
| ReportContents.OrdersReportIsCohort | internal/repository/postgresql/reports.sql.go:72-110 | summary and every day are the numbers and sums of exactly the outlet's orders received in those local days, collected being what is confirmed |
| Sessions.RequestKeepsRegistry | internal/handlers/auth.go:93-222 | every family keeps one unconsumed token and one token for the login and each refresh |
| Sessions.OneActiveSession | internal/repository/postgresql/auth.sql.go:96-106 | at most one session of a family passes the active-session check |
| Sessions.DeadIsDead | internal/repository/postgresql/auth.sql.go:170-176 | no token of a revoked family authenticates, logs out or refreshes |
| Sessions.DeadStaysDead | internal/repository/postgresql/auth.sql.go:444-447 | one request leaves a revoked family revoked with exactly the tokens it had |
| Sessions.ReplayRevokes | internal/handlers/auth.go:123-142 | presenting a consumed token leaves its family revoked, expired or not |
| Sessions.SuccessConsumes | internal/handlers/auth.go:143-177 | only a live token of an open family and active user is refreshed; it is consumed and its successor authenticates |
| Sessions.LogoutRevokes | internal/handlers/auth.go:197-221 | logout revokes the presented token's family, to which the bearer's own session belongs |
| SessionEffects.EffectExactly | internal/handlers/auth.go:93-222 | which refreshes and logouts succeed, what every request writes, and which session it answers with, leaving nothing open |
| SessionEffects.AnsweredSessionIsTheLiveOne | internal/handlers/auth.go:148-162 | the session answered is stored under the drawn secret, authenticates exactly until the drawn expiry and is the only one of its family that does |
| SessionEffects.BearerChecksExactly | internal/repository/postgresql/auth.sql.go:96-106 | the bearer check wants an unexpired, unconsumed token of an open family; logout lets a consumed one pass |
| Sessions.SessionStore.Refresh | internal/handlers/auth.go:93-177 | the handler's statements produce exactly the planned rows and answer |
| Sessions.SessionStore.Logout | internal/handlers/auth.go:179-222 | likewise for logout, whose bearer may already be consumed |
| Sessions.SessionStore.Issue | internal/service/tenant_sessions.go:38-56 | a login opens a family with one token |
| SessionRaces.EveryInterleavingIsSerial | internal/handlers/auth.go:110-221 | every interleaving of refreshes, logouts, logins and deactivations equals a serial run and keeps the families sound |
| SessionRaces.EveryEndedHasItsEffect | internal/handlers/auth.go:110-221 | in any interleaving each ended request did and answered exactly what its effect says |
| SessionRaces.AtMostOneRefreshSucceeds | internal/handlers/auth.go:116-142 | of racing refreshes of one token at most one succeeds, and any other that ends after it leaves the family revoked |
| SessionRaces.DeadInBehaviour | internal/handlers/auth.go:110-177 | in any behaviour a revoked family stays revoked with exactly the token rows it had |
| SessionRaces.DeadLineageIsUseless | internal/repository/postgresql/auth.sql.go:392-447 | once a lineage is revoked no token of it is of use in any continuation |
| SessionRaces.DeactivationRevokesBusiness | internal/repository/postgresql/platform_tenants.sql.go:368-370 | in any behaviour a deactivation that commits leaves revoked for good every family of the business committed when its statement began |
| Support.RequestKeepsDesk | internal/service/platform_tenants.go:163-393 | requests and sessions last at most an hour, sessions copy their request and stand alone on it, an inactive business has no unrevoked request, and both audit streams match row for row |
| Support.EveryCommitIsAuditedTwice | internal/service/platform_tenants.go:58-77 | a refusal changes nothing and each success adds one platform row and one linked business row |
| Support.OperationIsCovered | internal/service/platform_tenants.go:247-336 | a committed operation had a live session and request at both checks, within an hour of the owner's request, and writes only under READ_WRITE against the named version |
| Support.StampsAreKept | internal/repository/postgresql/platform_tenants.sql.go:550-552 | end and revocation stamps are written once |
| Support.ClosedForever | internal/repository/postgresql/platform_tenants.sql.go:828-830 | after any serial run no operation commits under a session once ended, revoked or logged out |
| Support.VersionIsSpentOnce | internal/repository/postgresql/platform_tenants.sql.go:901-903 | after a write against a version every later write naming it is refused |
| SupportEffects.EffectExactly | internal/service/platform_tenants.go:163-393 | who is admitted to each request, which error everyone else gets and every column written (granted scope, copied terms, stamps, description, audit rows), leaving nothing open |
| SupportEffects.LookExactly | internal/repository/postgresql/platform_tenants.sql.go:579-581 | an operation's select finds exactly the row named, in its own business and not deleted, with its version |
| SupportEffects.ClosingAnswerCloses | internal/repository/postgresql/platform_tenants.sql.go:550-552 | ending a session, revoking its request, signing its operator out or deactivating its business leaves it closed |
| Support.SupportService.Activation | internal/service/platform_tenants.go:163-188 | the statements produce exactly the planned rows and answer; deactivation revokes every open request |
| Support.SupportService.RequestSupport | internal/service/platform_tenants.go:200-230 | likewise for a request |
| Support.SupportService.StartSupport | internal/service/platform_tenants.go:231-246 | likewise for a session, at most one per request |
| Support.SupportService.SupportOperation | internal/service/platform_tenants.go:247-336 | likewise for an operation, its select reading the rows it finds, undone when the final check fails |
| Support.SupportService.EndSupport | internal/service/platform_tenants.go:339-393 | likewise for ending a session, expired or not |
| Support.SupportService.RevokeRequest | internal/service/platform_tenants.go:339-393 | likewise for revoking a request |
| SupportRaces.CommitsAreGuarded | internal/repository/postgresql/platform_tenants.sql.go:802-830 | a commit changes only rows it locked for update and adds rows only under the locks that guard them |
| SupportRaces.EveryInterleavingIsSerial | internal/service/platform_tenants.go:80-101 | every interleaving of support requests equals a serial run and stays sound |
| SupportRaces.CommittingOperationIsCovered | internal/repository/postgresql/platform_tenants.sql.go:890-892 | at the moment an operation commits, the committed rows still cover it |
| SupportContinuations.LaterIsContinuation | internal/service/platform_tenants.go:80-101 | the rows at any later moment of an interleaving are those of the earlier moment after a serial run |
| SupportContinuations.ClosedInBehaviour | internal/repository/postgresql/platform_tenants.sql.go:828-830 | in any interleaving a session once ended, revoked or logged out stays closed, no operation under it is about to commit and none commits later |
| SupportContinuations.NoOperationAfterClosingAnswer | internal/repository/postgresql/platform_tenants.sql.go:828-830 | once such a request has been answered, no operation under the session commits, however requests interleave |
| SupportContinuations.EveryEndedHasItsEffect | internal/service/platform_tenants.go:163-393 | in any interleaving each ended request did and answered exactly what its effect says |
| SupportContinuations.OneWritePerVersion | internal/repository/postgresql/platform_tenants.sql.go:901-903 | however writes interleave, at most one commits for each version of a perfume |
| SupportContinuations.OperationsSaw | internal/service/platform_tenants.go:257-319 | what a committed operation's select returned was committed while its session and request were usable |
| Limiter.AuthLimiter.Middleware | internal/middleware/auth_limits.go:31-67 | one request does exactly what the specification says and keeps the table bounded |
| Limiter.AuthLimiter.PurgeExpired | internal/middleware/auth_limits.go:41-47 | the loop removes exactly the expired entries |
| Limiter.DecidesExactly | internal/middleware/auth_limits.go:36-62 | refused for capacity exactly when the key has no open window and as many keys as fit have one, otherwise admitted exactly below the limit |
| Limiter.OthersExactly | internal/middleware/auth_limits.go:36-52 | another key's entry goes exactly when a full table makes room and its window is over, and never changes |
| Limiter.CountsExactly | internal/middleware/auth_limits.go:53-61 | the key's entry counts the request, in its open window or one that opens now |
| Limiter.CapacityAlways | internal/middleware/auth_limits.go:41-52 | whatever the clocks, the table stays within capacity and counts within limit + 1 |
| Limiter.AgreesExactly | internal/middleware/auth_limits.go:36-62 | over any requests and clocks, the table agrees with the never-purging counter after every prefix exactly when no counted request reopens a window the limiter removed while still open |
| Limiter.FirstForgottenDiffers | internal/middleware/auth_limits.go:36-62 | the first request that reopens such a window is decided differently exactly when the window was used up |
| Limiter.LeavesStepExactly | internal/middleware/auth_limits.go:36-62 | a key the limiter and the counter agree on is lost exactly when its own request reopens such a window |
| Limiter.DecidesAlikeSince | internal/middleware/auth_limits.go:36-62 | whatever came before, a key they agree on is decided alike as long as no request of its own does |
| Limiter.RestRestores | internal/middleware/auth_limits.go:36-62 | however far apart they are, a counted request a whole window after all earlier ones of its key is decided alike and restores agreement |
| Limiter.LateReadingForgetsNothing | internal/middleware/auth_limits.go:34-47 | a request whose reading is not below that of any earlier purge reopens no such window, whatever came before |
| Limiter.OrderedRemembers | internal/middleware/auth_limits.go:34-47 | with readings that never run backward none is ever reopened |
| Limiter.DecidesLikeReference | internal/middleware/auth_limits.go:36-62 | as long as none is reopened, or the limit is zero, every counted request is decided like the never-purging counter |
| Limiter.BackwardClockForgets | internal/middleware/auth_limits.go:34-47 | readings out of order let a purged key through that the counter would block |
| Limiter.ForgettingAlsoBlocks | internal/middleware/auth_limits.go:34-47 | the same run continued: the limiter blocks a request the counter would admit |
| Limiter.EntryAdmitsLimit | internal/middleware/auth_limits.go:53-61 | whatever the clocks, each entry admits exactly its count up to the limit, never more than the limit |
| Limiter.AtMostTwiceTheLimit | internal/middleware/auth_limits.go:31-67 | no span of one window admits more than twice the limit for one key |
| Staff.UniqueIDs | internal/handlers/management.go:598-608 | the loop keeps the positive ids in order of first appearance |
| Staff.UniqueKeepsExactly | internal/handlers/management.go:598-608 | nothing is dropped exactly when all ids are positive and distinct |
| Staff.CountsMeanAllActive | internal/handlers/management.go:521-534 | validation passes exactly when the ids are distinct and every one is an active outlet of the business |
| Staff.OnlyOwnersChange | internal/handlers/management.go:535-547 | changes need an active admin of the business and touch no other business |
| Staff.KeepsStaffExactly | internal/handlers/management.go:203-379 | every operation keeps active staff at an active outlet and businesses with an admin, except exactly reactivating an account without one |
| Staff.StaffAlways | internal/repository/postgresql/management.sql.go:69-79 | the same over every run that avoids that case |
| Staff.EmailsStayDistinct | db/migrations/000001_ownership_and_access.up.sql:43-44 | no two accounts share an e-mail address, and a taken one changes nothing |
| StaffEffects.EffectExactly | internal/handlers/management.go:169-440 | which staff and outlet requests succeed, which error every other one gets and every row written, leaving nothing open |
| Staff.ReactivationStrands | internal/handlers/management.go:317-379 | a three-step run that leaves active staff without an active outlet |
| Staff.Management.CreateStaff | internal/handlers/management.go:270-315 | the handler's statements produce exactly the specified state and answer, and keep active staff employable, businesses administered and addresses distinct |
| Staff.Management.UpdateStaff | internal/handlers/management.go:317-379 | likewise, except exactly when an owner reactivates an account without an active outlet |
| Staff.Management.ReplaceStaffOutlets | internal/handlers/management.go:381-440 | likewise, with its assignment loop |
| Staff.Management.UpdateOutlet | internal/handlers/management.go:169-223 | likewise |
| Templates.RequestKeepsTable | internal/handlers/receipts.go:295-476 | at most one active default per outlet, no deleted default, and distinct names within an outlet |
| Templates.TableAlways | internal/repository/postgresql/receipts.sql.go:15-19 | the same over every run |
| TemplateEffects.EffectExactly | internal/handlers/receipts.go:295-476 | which template changes succeed, which error every other one gets and every row written, leaving nothing open |
| Templates.OtherOutletsUntouched | internal/repository/postgresql/receipts.sql.go:421-436 | a change needs what the outlet lock joins (active business and outlet, active caller in the claimed role, admin or assigned), and other outlets' templates stay exactly as they are |
| Templates.OmittedDefaultServes | internal/handlers/receipts.go:311-320 | creating without naming a default leaves one, the new template exactly when there was none |
| Templates.DeletingDefaultPromotesLowest | internal/repository/postgresql/receipts.sql.go:457-468 | deleting the default makes exactly the remaining template with the lowest id the default |
| Templates.StaysServedExactly | internal/handlers/receipts.go:306-328 | an outlet with templates keeps a default exactly unless the change declines it |
| Templates.DeclinedDefaultLeavesNone | internal/handlers/receipts.go:306-322 | a first template sent as not the default leaves the outlet with a template and no default |
| Templates.ReceiptTemplates.CreateTemplate | internal/handlers/receipts.go:295-370 | the statements produce exactly the specified rows and answer |
| Templates.ReceiptTemplates.UpdateTemplate | internal/handlers/receipts.go:295-370 | likewise |
| Templates.ReceiptTemplates.DeleteTemplate | internal/handlers/receipts.go:424-476 | likewise |
| Message.AcceptsExactlyClean | internal/handlers/receipts.go:28-48 | a template is accepted exactly when it spells literals and supported placeholders with no doubled brace left over |
| Message.SpellScans | internal/handlers/receipts.go:28-48 | scanning reads back the list a clean template was spelled from |
| Message.RenderSubstitutes | internal/handlers/receipts.go:50-55 | rendering is the literals with the values substituted in order |
| Message.ValueLandsWhole | internal/handlers/receipts.go:50-55 | a value, empty when there is none, appears whole between its surroundings and is never scanned again |
| Message.LiteralsAreKept | internal/handlers/receipts.go:50-55 | literal text is rendered as it stands |
| Message.PlaceholdersLeaveNothing | internal/handlers/receipts.go:41-46 | what is checked for stray braces is the text with its placeholders taken out |
| Message.Rupiah | internal/handlers/receipts.go:57-63 | the loop puts a dot before every third character from the right |
| Message.RupiahGroups | internal/handlers/receipts.go:57-63 | for nonnegative amounts the dots removed leave the decimal, and every group after the first has three digits |
| Message.NegativeGroupsExactly | internal/handlers/receipts.go:57-63 | a negative amount is grouped right exactly when its digits do not fill whole groups |

## Left out

- HTTP routing, JSON decoding, status codes, headers, configuration and Swagger: input and output only.
- Password hashing, token signing and secret generation: secrets are opaque and distinct.
- Audit row contents, addresses and user agents: a row is its action, business, target and link.
- Customer, service, perfume and expense maintenance, lists, search, pagination and the dashboard: single-row
  operations.
- Customer, cancellation, expense and profit-loss reports: the same grouping as the two modelled.
- Platform sign-in: the same protocol as tenant sessions; support grants see only whether its family is revoked.
- Zone database lookups, e-mail parsing and case folding of names: library behaviour.
- A login that commits while its business is being deactivated: it does not lock the business, so only
  families the revoking statement finds are claimed revoked.
- An assignment withdrawn between the order lock and the assignment lock is answered as forbidden by the code;
  here the rows that authorize a caller do not change during its transaction. The outlet and user rows an order
  transaction also locks are not modelled as locks, which only admits more interleavings.
- Deadlocks and time-outs: a transaction may abort at any statement, which changes nothing.
- Support.SupportService.SupportOperation: the contents a support session reads are not modelled, only which rows
  there are and their versions; outlets and perfumes are not added while support work runs.
- Staff.Management.CreateStaff: the format of an e-mail address and a name and the password policy are not modelled.
- SessionRaces.EveryInterleavingIsSerial: token rows are read under their family's lock, so the token row's own
  lock is not modelled.
- Limiter.AuthLimiter.Middleware: the mutex makes requests one at a time, so no finer steps are modelled.
- Templates.ReceiptTemplates.CreateTemplate: texts and paper width are carried by the row but not modelled.
