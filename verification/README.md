# Frixel Connect: a verified model

Frixel Connect sells WiFi access for internet providers: customers pay through M-Pesa, payments become vouchers,
vouchers become RADIUS credentials, resellers sell from prepaid wallets, routers are deployed over REST, and the
platform bills its own tenants. This project models those money-and-access state machines in Dafny and proves what
their code keeps in every run. `dafny verify dfyconfig.toml` checks all of it.

Where the original works by changing tables, dictionaries or module variables, the model has a class whose methods do
the same statement by statement and are proved equal to a specification function. Where several actors interleave, the
single statements are steps of a state machine, and the theorems are about every run of it.

| files | what they model |
|---|---|
| `WalletLedger`, `WalletConcurrency`, `WalletTheorems`, `ResellerSale`, `C2bWebhook` | the running-balance ledger under a row lock, any number of top-ups and sales at once, M-Pesa redelivery |
| `PaymentTables`, `PaymentPipeline`, `PaymentTheorems`, `PaymentWorkers`, `Reconciliation` | payment to voucher: initiation, webhook, poller, reconciliation cron, retrying job |
| `RadiusCredentials`, `VoucherService`, `VoucherOverlap`, `VoucherSpoilage` | vouchers and their RADIUS rows, with operations that can stop after any SQL statement, one at a time and overlapping |
| `RefreshTokens`, `RefreshOverlap`, `BrowserTab`, `BrowserSession`, `BrowserReload` | token families on the server, one call at a time and overlapping, the single-flight refresh in a tab, the two together with message loss, and reloads in the middle of a refresh |
| `RateLimit` | the sliding-window limiter over an expiring sorted set |
| `RouterTables`, `RouterSetup`, `RouterDeployments`, `RouterRequests`, `RouterRetries`, `RouterResults`, `RouterClient` | hotspot and PPPoE deployment as scripts of idempotent table edits, the retrying request, deployments whose answers get lost, and the client that sends them |
| `Subscriptions`, `PlatformBilling`, `TenantExtensions` | the two billing clocks, and the months that platform payments buy when webhook and poller overlap |
| `SuperAdminTotp`, `SuperAdminOverlap`, `SuperAdminLockout`, `SuperAdminLateCalls` | password, pre-auth token and TOTP lock-out: one call as one step, and overlapping calls statement by statement |
| `PeerAddresses`, `PartialUpdate`, `VatSplit` | WireGuard addresses, three partial `UPDATE` builders, the VAT split |

## Assumptions

- The database keeps its own constraints: unique wallet references and a serial `sequence_id`
  (`migrations/010_*`), unique receipts (`migrations/003_*`), one voucher per payment and unique codes
  (`migrations/004_*`), five-minute pre-auth tokens (`migrations/018_*`). A failing statement in a transaction rolls
  all of it back; outside a transaction the statements before it stay.
- UUIDs, voucher codes, tokens and token families are fresh when drawn; hashes are injective, so a token stands for
  its hash. A checkout id names one payment.
- Daraja's outcome for a checkout id never changes once it is final. Its callbacks may be lost, late or repeated.
- There is one clock per model and it never runs backwards. Redis drops a key only after its deadline has passed.
- A statement that raises had no effect; a message that is lost reached nobody. A request to a router is the exception:
  its answer may be lost after the router has executed it (`RouterRetries`).
- Every access token names a tenant, so the guard of `frontend/src/lib/api.ts:129` lets the new tokens be stored
  (`BrowserReload.WithoutTenantKeepsTheOldToken` is what happens to one that does not).
- In `SuperAdminTotp` the calls of an account do not overlap: a call is one step. `SuperAdminOverlap` drops this; a call
  with no other open does what the one-step model says (`SuperAdminLockout.AloneIsTheCall`).
- In `RadiusCredentials` and `VoucherService` the operations run one at a time, stopping after any statement;
  `VoucherOverlap` drops this.
- Vouchers that are pending are found in the table when a run starts: the statements modelled insert only active ones,
  and none makes a voucher pending, but the retry of `app/modules/vouchers/service.py:438` works on those there are.
- In `RefreshTokens` and `BrowserSession` token calls on the server are one at a time, stopping after any statement;
  `RefreshOverlap` drops this. In `PlatformBilling` a payment's outcome arrives as one step; `TenantExtensions` drops it.
- The PPPoE billing cron starts every day and ends before the next start, though a router that cannot be reached may
  break it off. Renewals may fall anywhere in it.
- "Plus one month" is some length from 28 to 31 days that the event carries.

## Where the code and its own descriptions disagree

- `app/modules/subscriptions/service.py:186` looks up `timedelta` on the class `datetime` and raises, so a renewal
  fails exactly when it comes before the period's end, a wrong suspension apart
  (`Subscriptions.RenewalRaisesExactlyWhen`). The run theorems use the addition it means.
- The PPPoE billing cron writes a row by its id, long after it has read it. A customer who pays in between is suspended
  in spite of it (`Subscriptions.WronglySuspendsExactlyWhen`, with a run in `Subscriptions.SuspendsThePaidUp`), and
  paying again then cuts off what was left.
- That cron also breaks off when the router of a suspended customer cannot be reached, and the rows behind it wait for
  the next day (`Subscriptions.LateExactlyWhen`).
- Three wrong codes lock a pre-auth token only while calls on it do not overlap: of overlapping calls every one can get
  a code checked (`SuperAdminLockout.CodesBoundedByOverlap`, with four in `SuperAdminLockout.FourWrongCodes`), and two
  right ones both yield an access token (`SuperAdminLockout.TwoAccessTokens`). Exactly which open calls can still do so
  is in `SuperAdminLateCalls.ChecksAgainExactlyWhen` and `SuperAdminLateCalls.IssuesAgainExactlyWhen`. A setup that has
  read its row writes the secret even if the account is verified by then
  (`SuperAdminLockout.SecretCanChangeExactlyWhen`).
- The request loop sends an `add` again when its answer is lost, so a finished deployment can leave two tagged RADIUS
  clients, or a duplicate that no later deployment removes (`RouterRetries.OneClientIfAnswered`,
  `RouterRetries.OneEntryExactlyWhen`).
- A retry of a voucher makes it active without looking at its status again, so it undoes a revocation that came in
  between (`VoucherOverlap.ReactivatesExactlyWhen`, with a run in `VoucherSpoilage.RevokedAndActiveAgain`), and
  overlapping retries or revocations can leave an active voucher without its credentials
  (`VoucherSpoilage.OpenOnesSpoilExactlyWhen`, with a run in `VoucherSpoilage.ActiveWithoutPassword`).
- An expiry that breaks off after marking its vouchers leaves logins that no later expiry removes
  (`VoucherService.ExpiryProgress`, `VoucherService.LeftoversStay`).
- Nothing keeps two rotations of one refresh token apart. Both succeed if both read it before either revokes it, and the
  family then has two live tokens (`RefreshOverlap.SplitsExactlyWhen`, `RefreshOverlap.TwoLiveTokens`); the reuse branch
  does not stop a rotation under way, which brings the revoked family back (`RefreshOverlap.RevivesExactlyWhen`,
  `RefreshOverlap.ReusedAndLiveAgain`).
- The webhook and the poller move a tenant's billing date without looking whether their `UPDATE` of the payment hit a
  pending row, so one payment can buy two months (`TenantExtensions.TwoMonthsForOne`).
- A reload while a refresh is awaited can end the session as if its token had been stolen
  (`BrowserReload.ReloadReusesExactlyWhen`).
- The message of `app/worker.py:517` says the subscription has expired and that 24 hours of grace begin. It goes out
  before the end of the period; the customer has 24 hours past the end only if the end falls on a tick
  (`Subscriptions.GraceIsFullExactlyWhen`).
- `frontend/src/lib/api.ts:107-118` sets `isRefreshing` and returns without resetting it when there is no stored token;
  on the login page nothing reloads the tab, and later refreshes wait for ever (`BrowserSession.WedgedExactlyWhen`).
- The voucher job provisions RADIUS rows outside a transaction before it inserts the voucher, so a repeated job leaves
  a login that no voucher owns (`VoucherService.CredentialsWithoutVoucher`).
- `RateLimiter.key` joins its parts with colons without escaping them; two callers can share a bucket
  (`RateLimit.SharedBucket`).
- The tenant billing cron suspends with an `UPDATE` that does not look at the row again, so a payment confirmed since
  the cron fetched it is overridden (`PlatformBilling.WronglySuspendsExactlyWhen`,
  `PlatformBilling.CanGoWrongExactlyWhen`). It also counts whole days and so suspends up to a day after the dashboard
  says overdue (`PlatformBilling.RulesDifferExactlyWhen`).
- Nothing keeps two onboardings that overlap from one address (`PeerAddresses.OverlapCollides`).
- The PPPoE deployment adds its NAT rule without looking (`RouterDeployments.PppoeAccumulates`).
- `packages.duration_days`, which the subscription code reads, is renamed by `migrations/013_*`; the model takes the
  number of days as given.

## Model

| member | source | states |
|---|---|---|
| `WalletLedger.Newest` | app/modules/wallets/service.py:19-41 | the row found is the reseller's with the greatest serial number, and none is found only if there is none |
| `WalletLedger.BalanceIsNewest` | app/modules/wallets/service.py:19-41 | the balance is that of the reseller's row with the greatest serial number, and zero exactly without rows |
| `WalletLedger.WalletTable.InsertRow` | app/modules/wallets/service.py:91-106 | a row that does not fit the column or repeats a reference is refused and only the serial number is spent; otherwise it is appended |
| `WalletLedger.WalletTable.TopupWallet` | app/modules/wallets/service.py:66-107 | an unknown reseller is refused, an amount or balance beyond ten digits or a used reference too, and only these; otherwise the balance rises by exactly the amount and no other reseller's moves |
| `WalletLedger.WalletTable.DebitWallet` | app/modules/wallets/service.py:110-156 | insufficient exactly when the amount is greater than the balance, so a debit of the whole balance is accepted; then, with an unused reference and numbers that fit, the balance falls by exactly the amount and no other reseller's moves |
| `WalletConcurrency.InvKept` | app/modules/wallets/service.py:66-156 | locks, serial numbers, references and pending balances stay consistent under every step of every transaction |
| `WalletTheorems.InterleavingsSerialise` | app/modules/wallets/service.py:66-156 | every interleaving commits, line for line, the ledger of the committed requests run one at a time in commit order, none refused |
| `WalletTheorems.RunningBalance` | app/modules/wallets/service.py:66-156 | in every run each row's balance is that of the reseller's rows before it plus or minus its amount, and commit order is serial order |
| `WalletTheorems.NeverNegative` | app/modules/wallets/service.py:128-138 | with non-negative top-ups no committed balance is ever negative |
| `WalletTheorems.MoneyConserved` | app/modules/vouchers/router.py:197-222 | per reseller, top-ups over distinct references equal the balance plus the payments made from the wallet |
| `WalletTheorems.SalesPaired` | app/modules/vouchers/router.py:197-222 | the committed debits correspond one to one with payments, vouchers and credential sets, all distinct |
| `WalletTheorems.AloneIsTheServiceCall` | app/modules/wallets/service.py:66-156 | an undisturbed transaction gets past lock and INSERT exactly when the call succeeds, with the call's row |
| `WalletTheorems.AloneCommits` | app/modules/vouchers/router.py:197-222 | an undisturbed top-up commits at once, a sale exactly after payment and voucher, each leaving its row and no lock |
| `ResellerSale.SaleIsItsSteps` | app/modules/vouchers/router.py:197-222 | the seven steps of a lone sale can run and leave exactly one debit, payment, voucher and credential set |
| `ResellerSale.Desk.GenerateResellerVoucher` | app/modules/vouchers/router.py:163-222 | which error each refusal gives, the tables then as they were but for a serial number that a duplicate reference has spent; a completed sale lowers the balance by the price and adds its four rows, column by column |
| `C2bWebhook.ProcessC2bWebhook` | app/modules/webhooks/service.py:205-272 | 0 exactly for a known reference; the balance of the reseller rises by the amount exactly for a complete callback whose id is not credited, and nothing else moves |
| `C2bWebhook.RedeliveryAbsorbed` | app/modules/webhooks/service.py:250-272 | once a transaction id is credited, no later delivery of it changes the ledger |
| `C2bWebhook.FirstDeliveryCredits` | app/modules/webhooks/service.py:236-261 | a complete confirmation not yet credited raises the balance by its amount, unless a number does not fit |
| `PaymentPipeline.StepGood` | app/modules/webhooks/service.py:46-200 | every actor's every step writes only what Daraja's outcome calls for and leaves only sound tasks behind |
| `PaymentPipeline.InvKept` | app/worker.py:27-151 | the whole-system invariant survives every step, and a step never moves a payment, changes a final status or replaces a checkout id |
| `PaymentTheorems.FollowsDaraja` | app/worker.py:169-270 | in every interleaving a payment with a checkout id is pending or at Daraja's outcome, and no other payment has that id |
| `PaymentTheorems.StatusIsFinal` | app/modules/webhooks/service.py:68-75 | from any reachable state on, a status that is not pending never changes |
| `PaymentTheorems.JobsNameConfirmedPayments` | app/modules/vouchers/service.py:113-189 | every queued, running or issuing job names a confirmed payment of its tenant; a failed try is retried exactly before the fourth, and then its delay is in the table |
| `PaymentTheorems.VouchersArePaid` | app/modules/vouchers/service.py:113-189 | every voucher belongs to a confirmed payment and package of its own tenant, though the fetched status is never looked at |
| `PaymentTheorems.StuckChanges` | app/worker.py:117-144 | a payment becomes stuck only by being confirmed and stops being stuck only by a successful voucher INSERT |
| `PaymentTheorems.VouchersGrow` | app/modules/vouchers/service.py:166-189 | no run loses or alters a voucher of the pipeline |
| `PaymentWorkers.Database.InitiateStkPush` | app/modules/payments/service.py:26-122 | what row a started payment leaves for each answer, and that a refused one leaves none |
| `PaymentWorkers.InitiateIsItsSteps` | app/modules/hotspot/service.py:59-142 | initiating is the state machine's insert and answer steps back to back |
| `PaymentWorkers.Database.GetStuckPayments` | app/modules/payments/service.py:235-259 | exactly the tenant's confirmed payments older than two minutes without a voucher, each once, newest first |
| `PaymentWorkers.Database.ProcessDarajaWebhook` | app/modules/webhooks/service.py:22-202 | an unknown checkout id changes nothing; for a pending row result 0 with a receipt no other row has leaves it confirmed with that receipt and its first job queued, a held or missing receipt changes nothing, any other code leaves it failed and the queue alone; every other row and column stays |
| `PaymentWorkers.Database.FetchPending` | app/worker.py:169-192 | the rows fetched are exactly the pollable payments, each once, with their own tenant and checkout id |
| `PaymentWorkers.Database.PollRow` | app/worker.py:195-268 | a row still pending becomes confirmed and its first job is queued exactly on a paid answer with a receipt no other row has, failed on a refusing one; otherwise, and in all other rows, nothing changes |
| `PaymentWorkers.Database.PollPendingDarajaPaymentsCron` | app/worker.py:154-273 | exactly the pollable rows are worked off in order; one whose receipt nobody holds or shares ends as it was answered, confirmed with its job queued, failed or left alone, and no other row changes |
| `PaymentWorkers.Database.ReconcilePaymentsCron` | app/worker.py:104-151 | one job is queued for each reconcilable payment, with its tenant, and nothing else |
| `PaymentWorkers.Database.GenerateVoucherTask` | app/worker.py:27-101 | the vouchers and the outcome of one try, whatever its number: issued, retry after its delay, or given up from the fourth on |
| `PaymentWorkers.WebhookIsItsSteps` | app/modules/webhooks/service.py:46-200 | the webhook handler is the state machine's read and write steps back to back |
| `PaymentWorkers.PollIsItsSteps` | app/worker.py:195-268 | a polled row is the state machine's query and write steps back to back |
| `PaymentWorkers.DrainIssues` | app/worker.py:117-144 | draining a queue of jobs issues a voucher for each sellable payment and loses none |
| `PaymentWorkers.ReconciliationPromise` | README.md:182 | with nothing else happening, after a tick whose jobs all succeed no payment confirmed and older than two minutes lacks a voucher |
| `Reconciliation.ReconcileIsItsSteps` | app/worker.py:104-144 | the cron's fetched row becomes a queued first try in the state machine's two steps |
| `Reconciliation.JobIsItsSteps` | app/worker.py:27-101 | one try of the job is the state machine's start, read and insert steps back to back, with the same retries |
| `Reconciliation.JobDownIsItsStep` | app/worker.py:83-101 | a try that meets a failing database is the error step, retried exactly before the fourth |
| `Reconciliation.FetchedIsNotForgotten` | app/worker.py:117-144 | in every interleaving after the cron has fetched a payment, unless its jobs die or fail for good, it has a voucher or a job on its way |
| `Reconciliation.SurrendersOnlyAtTheLast` | app/worker.py:83-101 | a job for a payment ends without a voucher only by dying or by failing at a try not before the fourth |
| `Reconciliation.InsertedForGood` | app/modules/vouchers/service.py:166-189 | in any state of any run after a payment's job has inserted, or been refused as a duplicate, the payment has a voucher of its tenant and package and is not stuck |
| `RadiusCredentials.ProvisionCompletes` | app/modules/vouchers/service.py:30-92 | whatever rows were there, a finished provisioning leaves the credential set, and no other user's rows change |
| `RadiusCredentials.CompleteExactly` | app/modules/vouchers/service.py:57-92 | the credential set, row by row: one Cleartext-Password equal to the code, the rate in Mbps, the timeout of 60 seconds a minute, and 1048576 bytes a megabyte iff the quota is there and not zero |
| `RadiusCredentials.RowsExactly` | app/modules/vouchers/service.py:30-92 | those are all the rows of the two tables with this user and tenant |
| `RadiusCredentials.StopKeeps` | app/modules/vouchers/service.py:30-470 | at every statement boundary of every operation each active voucher has exactly its credential set |
| `VoucherService.ActiveVouchersComplete` | app/modules/vouchers/service.py:30-189 | in every run of operations one at a time that stop anywhere each active voucher has exactly one check row, its own code as the password, and exactly the reply rows of its plan, numbers written out |
| `VoucherService.NeverReactivated` | app/modules/vouchers/service.py:349-470 | one at a time, no expired or revoked voucher becomes active again in any run |
| `VoucherService.TenantsIsolated` | app/modules/vouchers/service.py:40-60 | an operation of one tenant stopped anywhere leaves other tenants' vouchers and rows alone; expiry and activation are of no tenant |
| `VoucherService.RevocationProgress` | app/modules/vouchers/service.py:349-370 | which statement of a revocation removes which rows, both directions |
| `VoucherService.ExpiryCompletes` | app/worker.py:371-398 | a completed expiry leaves no due voucher active and no credential row of any of them |
| `VoucherService.ExpiryProgress` | app/worker.py:364-398 | after k statements of an expiry which vouchers are marked, and whose password and reply rows are gone and whose are as before |
| `VoucherService.LeftoversStay` | app/worker.py:364-398 | the rows that an expired or revoked voucher has left are removed by no later operation but a revocation of it |
| `VoucherService.LifeEnds` | app/worker.py:350-398 | a voucher generated, activated and run out of time is expired by the next tick, with no credential row left |
| `VoucherService.CredentialsWithoutVoucher` | app/modules/vouchers/service.py:166-189 | when a password row exists and when its voucher does: they differ exactly before the last statement and for a payment that had a voucher |
| `VoucherOverlap.ReactivatesExactlyWhen` | app/modules/vouchers/service.py:349-470 | in every interleaving, from any tables with complete active vouchers and any pending ones, an expired or revoked voucher can become active again exactly while a retry that found it pending is open |
| `VoucherOverlap.CompleteWithoutOverlap` | app/modules/vouchers/service.py:30-470 | in every interleaving from such tables each active voucher has exactly those rows as long as no retry overlaps another retry or a revocation of its voucher |
| `VoucherOverlap.SpoilsExactlyWhen` | app/modules/vouchers/service.py:417-470 | after a run from such tables without that overlap, an operation that begins can lead to an active voucher without its credential set exactly when it is a retry whose voucher an open retry or revocation handles, or a revocation of one that an open retry does |
| `VoucherSpoilage.OpenOnesSpoilExactlyWhen` | app/modules/vouchers/service.py:30-470 | in any reachable state, however operations have overlapped, the open ones can end with a voucher active and without its credential set exactly when it is so already, its retry finds other rows than it left, its retry has company that still writes its rows, or it is active and an operation that will not mark it first still writes them |
| `VoucherSpoilage.RevokedAndActiveAgain` | app/modules/vouchers/service.py:417-470 | a run in which a revoked voucher becomes active again |
| `VoucherSpoilage.PasswordDeleted` | app/modules/vouchers/service.py:349-470 | from any pending voucher, a run that ends with it active and its password row deleted |
| `VoucherSpoilage.ActiveWithoutPassword` | app/modules/vouchers/service.py:349-470 | such a run from tables with one pending voucher |
| `VoucherOverlap.AloneIsTheOperation` | app/modules/vouchers/service.py:30-470 | the first statements of an operation with none in between do what the one-at-a-time model says |
| `VoucherService.Service.ProvisionRadiusCredentials` | app/modules/vouchers/service.py:30-92 | afterwards the user has exactly its password, rate, timeout and quota rows with their numbers, and every other user's rows are as before |
| `VoucherService.Service.GenerateVoucher` | app/modules/vouchers/service.py:95-222 | unknown payment, duplicate payment or the code, and exactly when; on success the active voucher is there and the code logs in: its password row is the code itself, its reply rows are the plan's; a guest's password is then the code |
| `VoucherService.Service.AdminRevokeVoucher` | app/modules/vouchers/service.py:331-414 | not found exactly for a missing or foreign voucher; otherwise that voucher is revoked, its rows are gone, and all other vouchers and rows are as before |
| `VoucherService.Service.AdminRetryVoucher` | app/modules/vouchers/service.py:417-470 | runs exactly for a pending voucher of the tenant, which is then active with exactly the rows of its plan and its code as the password; all else is as before |
| `VoucherService.Service.ExpireVouchers` | app/worker.py:371-398 | exactly the active vouchers past their expiry become expired and lose their rows; all other vouchers and rows are as before |
| `VoucherService.Service.ActivateVoucher` | app/worker.py:350-362 | the expiry is the first session's start plus the package's minutes, set once |
| `RefreshTokens.AtMostOneLive` | app/modules/auth/service.py:200-282 | in every run of calls stopping anywhere a family has at most one unrevoked token |
| `RefreshTokens.ReuseIsFinal` | app/modules/auth/service.py:239-253 | after the reuse branch no later call accepts any token of the family, old or new |
| `RefreshTokens.RotationHandsOver` | app/modules/auth/service.py:264-282 | a finished rotation leaves the successor as the family's only live token |
| `RefreshTokens.IssuedOnlyForTheLiving` | app/modules/auth/service.py:217-282 | in every run of calls stopping anywhere a new token comes from a sign-in or from a token then unrevoked, not past its expiry, of an active user of a tenant in good standing, and has its user and family |
| `RefreshOverlap.OneLiveWithoutOverlap` | app/modules/auth/service.py:217-282 | in every interleaving a family has at most one live token as long as no two calls are judged accepted for one token before either revokes it |
| `RefreshOverlap.SplitsExactlyWhen` | app/modules/auth/service.py:226-271 | a call judged accepted can lead to two live tokens exactly when another call judged accepted holds its token at that instant |
| `RefreshOverlap.RevivesExactlyWhen` | app/modules/auth/service.py:247-271 | in every interleaving, a family with no live token can have one again exactly while a rotation judged accepted before is open |
| `RefreshOverlap.ReuseKills` | app/modules/auth/service.py:247-253 | the statement of the reuse branch leaves no live token in the family |
| `RefreshOverlap.TwoLiveTokens` | app/modules/auth/service.py:226-271 | a run in which a family has two live tokens |
| `RefreshOverlap.ReusedAndLiveAgain` | app/modules/auth/service.py:243-271 | a run in which a family revoked for reuse gets a live token again |
| `RefreshTokens.AuthService.GenerateRefreshToken` | app/modules/auth/service.py:200-214 | the table gains one live token of a new family |
| `RefreshTokens.AuthService.RotateRefreshToken` | app/modules/auth/service.py:217-283 | the condition of each of the six verdicts on the columns, accepted exactly for a known, unexpired, unrevoked token of an active user of a tenant in good standing; then it is revoked and its successor lives thirty days, reuse revokes the family, and any other verdict leaves the table as it was |
| `RefreshTokens.AuthService.RevokeAll` | app/modules/users/service.py:476-477 | exactly the user's tokens are revoked |
| `BrowserTab.Interceptor.ProcessQueue` | frontend/src/lib/api.ts:64-73 | every queued promise is settled once, in order, and the queue is empty |
| `BrowserTab.Interceptor.OnUnauthorized` | frontend/src/lib/api.ts:95-118 | the tab after a 401, and which token is presented, if any |
| `BrowserTab.Interceptor.OnRefreshed` | frontend/src/lib/api.ts:126-140 | the new token stored under its tenant if the access token names one, every queued promise resolved in order, the flag reset |
| `BrowserTab.Interceptor.OnRefreshError` | frontend/src/lib/api.ts:141-150 | the tab after a failed refresh: tokens cleared, queue rejected, flag reset |
| `BrowserSession.NeverPresentsRevoked` | frontend/src/lib/api.ts:95-150 | whatever is lost, late or half done, the server never sees a revoked token from the tab |
| `BrowserSession.StoredTokenIsTheLiveOne` | frontend/src/lib/auth.ts:15-64 | between refreshes each stored token is the one live token of its family, stored under its user's tenant |
| `BrowserSession.OneRefreshAtATime` | frontend/src/lib/api.ts:96-124 | a refresh starts only when none is awaited, and presents the stored live token |
| `BrowserSession.QueueSettledOnce` | frontend/src/lib/api.ts:58-73 | no promise is settled twice, and each is settled exactly by the answer to its refresh |
| `BrowserSession.WedgedExactlyWhen` | frontend/src/lib/api.ts:107-118 | at every step of every run the flag comes to stay set with nothing awaited exactly when a first 401 on the login page finds no stored token |
| `BrowserSession.WedgedForEver` | frontend/src/lib/api.ts:95-118 | from then on no promise is settled until the page is loaded again |
| `BrowserReload.ReloadReusesExactlyWhen` | frontend/src/lib/api.ts:120-131 | in every reachable state, a reload while the stored token's refresh is awaited can lead to reuse exactly when the server has revoked the token or the request is still on its way |
| `BrowserReload.ReloadMidRefreshReuses` | frontend/src/lib/api.ts:120-131 | a run to a state whose reload can lead to reuse |
| `BrowserReload.WithoutTenantKeepsTheOldToken` | frontend/src/lib/api.ts:126-132 | new tokens whose access token names no tenant leave the revoked refresh token stored |
| `RateLimit.BucketIsTheWindow` | app/core/rate_limit.py:54-80 | the pruned, expiring set is exactly the full call history within the window |
| `RateLimit.AdmittedIff` | app/core/rate_limit.py:54-80 | a call is admitted exactly when its window holds at most the limit of instants |
| `RateLimit.AdmittedMeans` | app/core/rate_limit.py:54-80 | the last call of a history is admitted exactly when at most the limit of instants lie in the window that ends with it |
| `RateLimit.EveryCallCounted` | app/core/rate_limit.py:66-70 | every call is counted exactly when no two calls of the window share an instant |
| `RateLimit.NoWindowOverflows` | app/core/rate_limit.py:54-80 | no interval of the window's length admits more than the limit, wherever it starts |
| `RateLimit.SilenceReopens` | app/core/rate_limit.py:54-80 | after a window of silence the next call is admitted |
| `RateLimit.SharedBucket` | app/core/rate_limit.py:44-52 | which two callers share a bucket: the same one, or one without tenant whose address spells the other's tenant and address |
| `RateLimit.RateLimiter.Check` | app/core/rate_limit.py:54-80 | the call joins the history of its key, written out, and is admitted exactly when the window that ends with it holds at most the limit |
| `RouterTables.FixIdempotent` | app/integrations/mikrotik.py:576-594 | editing a table twice is editing it once |
| `RouterTables.FixCount` | app/integrations/mikrotik.py:576-594 | an edit leaves one matching entry if there was none and never adds another |
| `RouterSetup.RequestKeepsEnd` | app/integrations/mikrotik.py:555-812 | no single request of a converging deployment changes where a whole deployment would end |
| `RouterSetup.Converges` | app/integrations/mikrotik.py:555-812 | any number of attempts broken off anywhere, then a finished one, end as the finished one alone |
| `RouterSetup.Accumulates` | app/integrations/mikrotik.py:816-915 | a script ending in a blind add converges but for one more copy per attempt that got that far |
| `RouterDeployments.HotspotQualifies` | app/integrations/mikrotik.py:555-812 | the concrete hotspot script meets the conditions of convergence, with or without a walled garden |
| `RouterDeployments.HotspotConverges` | app/integrations/mikrotik.py:555-812 | from any router state, broken-off hotspot deployments and then a whole one give the configuration of the whole one |
| `RouterDeployments.HotspotDeployed` | app/integrations/mikrotik.py:726-767 | a whole deployment, each request executed once, leaves exactly one tagged RADIUS client, foreign clients unchanged, and no new duplicates in any menu |
| `RouterRetries.NothingLost` | app/integrations/mikrotik.py:555-812 | if no answer is lost it is the deployment of the theorems above |
| `RouterRetries.OneClientExactlyWhen` | app/integrations/mikrotik.py:726-767 | with lost answers a finished deployment leaves as many tagged clients as its add was executed, so one exactly if once; the next clean deployment restores one |
| `RouterRetries.AttemptCompletes` | app/integrations/mikrotik.py:187-224 | a deployment run request by request that goes through is the script with each add executed as often as its tries were |
| `RouterRetries.OneClientIfAnswered` | app/integrations/mikrotik.py:726-767 | it leaves one tagged client for each execution of the adding request, so exactly one iff no earlier try of it was executed with its answer lost |
| `RouterRetries.CleanAfterAny` | app/integrations/mikrotik.py:726-767 | after any deployments that lost answers and broke off at any request, one in which all answers arrive leaves the foreign clients and exactly one of ours |
| `RouterRetries.TriedAnswered` | app/integrations/mikrotik.py:555-812 | if every request succeeds and is executed once, the run request by request is the deployment |
| `RouterRetries.OneEntryExactlyWhen` | app/integrations/mikrotik.py:576-594 | an entry an edit found missing is there once for each execution of its add, and stays so through every later deployment |
| `RouterResults.HotspotIsReady` | app/integrations/mikrotik.py:512-812 | a hotspot deployment that goes through leaves in each of eight menus the first wanted entry patched or a new one with every field as written there, the RADIUS client with its address and secret once for each execution, and the identity, CoA port and login page |
| `RouterResults.HotspotSpares` | app/integrations/mikrotik.py:726-739 | a hotspot deployment, broken off or not, leaves every foreign RADIUS client as often as it was |
| `RouterResults.PppoeIsReady` | app/integrations/mikrotik.py:816-915 | the same of a PPPoE deployment: pool, profile, server and the NAT rule field by field |
| `RouterDeployments.PppoeAccumulates` | app/integrations/mikrotik.py:816-915 | PPPoE deployments converge but for the NAT rule, one more for each deployment that ran to its end |
| `RouterRequests.Request` | app/integrations/mikrotik.py:166-224 | the first answered try decides, 401 raises at once, failure exactly when every try failed, backoff sums to powers of two |
| `RouterRequests.RequestByDefault` | app/integrations/mikrotik.py:65-67 | at most four tries and seven seconds of waiting |
| `RouterRequests.OnceExactlyWhen` | app/integrations/mikrotik.py:187-224 | an answered request was executed exactly once iff no earlier try was executed with its answer lost |
| `RouterClient.Client.Send` | app/integrations/mikrotik.py:166-224 | a writing request leaves the effect of its executions, an add once for each, anything else once, and is accepted exactly if its last try is answered with success |
| `RouterClient.Client.AddOrPatch` | app/integrations/mikrotik.py:576-594 | nothing happens unless the GET succeeds; without a match the new entry is appended once for each execution, otherwise the first match is patched if there is anything to patch; no other menu or setting changes |
| `RouterClient.Client.RemoveTaggedClients` | app/integrations/mikrotik.py:726-739 | if it goes through no tagged client is left; however it ends, each foreign client is there as often as before and nothing else changes |
| `RouterClient.Client.SetupHotspotServer` | app/integrations/mikrotik.py:512-812 | the router ends as the specified run of the script, broken off at the first request that fails; if none does it is ready in the sense of `RouterResults.HotspotIsReady`, and foreign RADIUS clients are spared in any case |
| `RouterClient.Client.SetupPppoeServer` | app/integrations/mikrotik.py:816-915 | the same for PPPoE and `RouterResults.PppoeIsReady` |
| `Subscriptions.SuspendedExactlyWhen` | app/worker.py:502-534 | in every run without a renewal between a row's reading and its writing, the status after a tick that wrote its row is a function of the period's end and that tick, so no suspension is early or late |
| `Subscriptions.LateExactlyWhen` | app/worker.py:487-534 | in every run whatever, a suspension is late exactly when the last tick broke off before a row it had read as over that has not been renewed since, and the next tick that gets to it makes up for it |
| `Subscriptions.LeftInGrace` | app/worker.py:519-534 | a run that leaves an ended subscription in grace after a tick that broke off |
| `Subscriptions.WronglySuspendsExactlyWhen` | app/worker.py:519-522 | a suspending write hits an unexpired subscription exactly when it was renewed since it was read |
| `Subscriptions.WronglyGracesExactlyWhen` | app/worker.py:515-517 | the cron puts into grace a subscription not in its last day exactly when it was renewed since it was read |
| `Subscriptions.SuspendsThePaidUp` | app/worker.py:487-534 | a run that suspends a customer with more than 29 paid days left, most of which paying again cuts off |
| `Subscriptions.GraceIsOneInterval` | app/worker.py:515-522 | without such a renewal, grace lasts exactly one tick interval and is never skipped |
| `Subscriptions.GraceIsFullExactlyWhen` | app/worker.py:515-522 | the first suspending tick after the end, at most a day later, and exactly a day later iff the end falls on a tick |
| `Subscriptions.OnceAPeriod` | app/worker.py:506-513 | in every run, raced or not, no message is sent twice in one paid period |
| `Subscriptions.SentAtTheTick` | app/worker.py:502-534 | which message an undisturbed tick sends: three days, one day and in grace at those days left, stopped after the end, and no other |
| `Subscriptions.PaidTimeGranted` | app/modules/subscriptions/service.py:178-189 | the end is the start plus all paid durations plus the time between periods, less what renewals after a wrong suspension cut off |
| `Subscriptions.RenewalRaisesExactlyWhen` | app/modules/subscriptions/service.py:184-190 | as written, a renewal raises exactly before the period's end unless the row is wrongly suspended, and is the intended one otherwise |
| `Subscriptions.Database.PppoeBillingCron` | app/worker.py:472-534 | each fetched row gets the status and the customer the message that its days left call for, reminders included, and the suspended lose their secrets, up to the first suspended customer whose router cannot be reached |
| `Subscriptions.UndisturbedAges` | app/worker.py:502-534 | if nothing else writes meanwhile, each fetched row is aged by its days left |
| `Subscriptions.Database.ProcessRenewalPayment` | app/modules/subscriptions/service.py:153-233 | the row written, or the error with nothing written, for a missing package, an existing row and a new one; the secret turned on again, or an error after the write if the router cannot be reached |
| `PlatformBilling.PushesOnlyAfterFailures` | app/worker.py:600-629 | every push within a day before a push of the cron's has failed, but for the owner's requests made after the count |
| `PlatformBilling.CronPushesADayApart` | app/worker.py:600-629 | two pushes of the cron's that have not failed are at least a day apart |
| `PlatformBilling.DueIsAskedOrSuspended` | app/worker.py:586-626 | an active tenant found due is suspended from the eighth day on, and before that asked to pay exactly when no push of the last day is pending or confirmed |
| `PlatformBilling.SuspendsOnlyOverdue` | app/worker.py:591-598 | a suspending cron fetched a row overdue by the dashboard's rule, and it still is unless a payment was confirmed since |
| `PlatformBilling.RulesDifferExactlyWhen` | app/modules/tenants/service.py:189-201 | the cron's rule implies the dashboard's, and they differ exactly during the eighth day |
| `PlatformBilling.BillingExactly` | app/modules/tenants/service.py:189-201 | when the dashboard says paid, in grace and overdue, to the microsecond |
| `PlatformBilling.WronglySuspendsExactlyWhen` | app/worker.py:594-598 | a suspension hits a tenant that is not overdue exactly when the months paid since the fetch carry the fetched billing date into the last seven days; the current date is that sum in every run |
| `PlatformBilling.CanGoWrongExactlyWhen` | app/worker.py:591-598 | before the decision and without new requests, it can still go wrong exactly when the pending requests, 31 days each, can carry the date far enough |
| `PlatformBilling.WronglySuspendsOnce` | app/worker.py:594-598 | a run that ends in such a suspension |
| `PlatformBilling.Account.TenantBillingCron` | app/worker.py:586-626 | an undisturbed turn suspends an active tenant eight days overdue, asks a due one to pay exactly when no push of the last day is pending or confirmed, and otherwise leaves everything |
| `PlatformBilling.Account.CountRecent` | app/worker.py:600-608 | the count is zero exactly when no pending or confirmed push is younger than a day |
| `PlatformBilling.Account.InitiatePlatformBillingPayment` | app/modules/tenants/service.py:204-253 | an undisturbed request is its insert and answer steps |
| `TenantExtensions.MonthsBoundedByOverlap` | app/worker.py:218-238 | in every interleaving of webhooks and pollers a payment buys at most as many months as calls were open on it at some one instant |
| `TenantExtensions.MonthEachExactlyWhen` | app/modules/webhooks/service.py:97-125 | the billing date has moved by at least a month a confirmed payment, and by exactly that iff no payment was used twice |
| `TenantExtensions.MonthEachWithoutOverlap` | app/modules/webhooks/service.py:97-125 | if calls on a payment never overlap, by exactly a month a confirmed payment |
| `TenantExtensions.ExtendsAgainExactlyWhen` | app/worker.py:218-238 | a confirmed payment can still move the date exactly while a call that found it pending is open |
| `TenantExtensions.TwoMonthsForOne` | app/worker.py:218-238 | a run in which one payment buys two months |
| `TenantExtensions.Ledger.ProcessDarajaWebhook` | app/modules/webhooks/service.py:54-200 | the platform branch of the webhook is its read and write steps back to back, and nothing for an unknown, settled, receiptless or colliding confirmation |
| `TenantExtensions.Ledger.PollPlatformPayment` | app/worker.py:200-268 | the platform branch of the poller's turn on a row is its read and write steps back to back |
| `SuperAdminTotp.ThreeWrongCodesAtMost` | app/modules/super_admin/service.py:328-400 | while calls do not overlap, in every timed run a token has at most three wrong codes checked and is right at most once |
| `SuperAdminTotp.IssuedExactlyWhen` | app/modules/super_admin/service.py:309-450 | an access token is issued exactly by a right code for an accepted token, which is then spent |
| `SuperAdminTotp.TokenOfItsBuyer` | app/modules/super_admin/service.py:108-190 | in every run the account on a pre-auth token is the one whose password bought it |
| `SuperAdminTotp.IssuedToItsBuyer` | app/modules/super_admin/service.py:402-450 | in every run an access token is for the account whose password bought its pre-auth token, which is verified then, and no other account changes |
| `SuperAdminTotp.LockedForEver` | app/modules/super_admin/service.py:372-391 | while calls do not overlap, after the third wrong code the token is never accepted again |
| `SuperAdminTotp.VerifiedSecretStays` | app/modules/super_admin/service.py:271-295 | while calls do not overlap, once an account is verified no run changes its secret |
| `SuperAdminLockout.CodesBoundedByOverlap` | app/modules/super_admin/service.py:328-437 | in every interleaving there is an instant such that the access tokens are at most the calls open on the token then, and the wrong codes at most two more than those, plus the calls on it that broke off after a wrong code |
| `SuperAdminLockout.ShutAddsOnlyOpen` | app/modules/super_admin/service.py:372-391 | once a token is spent or expired no call enters on it, and only those open can still get a code checked |
| `SuperAdminLockout.ThreeWrongWithoutOverlap` | app/modules/super_admin/service.py:328-400 | if calls on the token never overlap, at most three wrong codes and one more for each call on it that broke off after its wrong code |
| `SuperAdminLockout.OneAccessWithoutOverlap` | app/modules/super_admin/service.py:402-437 | if calls on the token never overlap, at most one access token, wherever calls break off |
| `SuperAdminLateCalls.ChecksAgainExactlyWhen` | app/modules/super_admin/service.py:328-374 | from any reachable state one more wrong code can be checked exactly while a call past the counter has a secret, or a call is validated or can be and the counter lets it pass, has a deadline, or is about to get one or to be deleted |
| `SuperAdminLateCalls.IssuesAgainExactlyWhen` | app/modules/super_admin/service.py:328-437 | from any reachable state one more access token can be issued exactly while one more code can be compared or a call whose code was right is open |
| `SuperAdminLateCalls.ShutIssuesAgainExactlyWhen` | app/modules/super_admin/service.py:328-437 | for a spent or expired token the condition names only calls open on it and the counter they will read |
| `SuperAdminLockout.FourWrongCodes` | app/modules/super_admin/service.py:328-374 | a run in which four wrong codes are checked for one token |
| `SuperAdminLockout.TwoAccessTokens` | app/modules/super_admin/service.py:402-437 | a run in which one pre-auth token yields two access tokens |
| `SuperAdminLockout.IssuedToTheOwner` | app/modules/super_admin/service.py:402-450 | however calls overlap, an access token is for the account of its pre-auth token |
| `SuperAdminLockout.AloneIsTheCall` | app/modules/super_admin/service.py:328-437 | a call's steps with no other call open do what the one-step model says |
| `SuperAdminLockout.SecretCanChangeExactlyWhen` | app/modules/super_admin/service.py:271-295 | with overlap, a verified account's secret can still change exactly while a setup that read the row before is open |
| `SuperAdminTotp.Service.AuthenticatePassword` | app/modules/super_admin/service.py:108-190 | a token is inserted exactly for a right password of an active account, and setup is required exactly if not verified |
| `SuperAdminTotp.Service.ValidatePreAuthToken` | app/modules/super_admin/service.py:193-246 | accepts exactly a known, unused, unexpired token of an active account |
| `SuperAdminTotp.Service.SetupTotp` | app/modules/super_admin/service.py:249-306 | refused exactly for a token not accepted, conflict exactly for a verified account; otherwise the secret is stored and nothing else changes |
| `SuperAdminTotp.Service.VerifyTotp` | app/modules/super_admin/service.py:309-452 | each outcome by its columns: issued exactly by a right readable code for an accepted token, for the account on that token, which is then verified with the token spent; a wrong code counts, the third spends the token; no other account or token changes |
| `PeerAddresses.LeastFree` | app/integrations/wireguard.py:61-76 | the result is the least free address, and there is none exactly when all are held |
| `PeerAddresses.AssignPeerIp` | app/integrations/wireguard.py:61-76 | the loop finds the least free address, or fails when there is none |
| `PeerAddresses.Pigeonhole` | app/integrations/wireguard.py:61-76 | none is free exactly when 253 addresses of the range are held |
| `PeerAddresses.AddressesDistinct` | app/modules/routers/router.py:146-161 | with onboardings one at a time, each inserting or giving up before the next reads, live routers hold distinct addresses of the range and allocation fails exactly at 253 holders |
| `PeerAddresses.AlwaysInRange` | app/modules/routers/router.py:512-556 | in any run, overlapping or not, every address is in the range |
| `PeerAddresses.OverlapCollides` | app/modules/routers/router.py:512-556 | from any state, two reads with no insert between them give two routers one address |
| `PeerAddresses.InsertKeepsDistinctExactlyWhen` | app/modules/routers/router.py:150-161 | an insert keeps the addresses distinct exactly when what was drawn is not held by then |
| `PeerAddresses.DeleteFrees` | app/modules/routers/service.py:154-180 | a deleted router's address is free at once and bounds the next allocation |
| `PeerAddresses.RouterTable.OnboardingInit` | app/modules/routers/router.py:135-161 | the row inserted or the error, and that distinct addresses stay distinct |
| `PeerAddresses.RouterTable.DeleteRouter` | app/modules/routers/service.py:154-180 | exactly the tenant's row goes; a missing one or another tenant's is reported and stays |
| `PartialUpdate.UpdatePackage` | app/modules/packages/service.py:139-176 | nothing is sent exactly if nothing was supplied; else the statement meets the one specification on every table |
| `PartialUpdate.UpdateRouter` | app/modules/routers/service.py:117-150 | the same specification with the keys bound first and no time stamp |
| `PartialUpdate.AdminUpdateUser` | app/modules/users/service.py:275-373 | not found, taken e-mail and taken phone in that order; otherwise a statement that sets each allowlisted column to the value given, the password to its hash, touches nothing else, and is not sent exactly if no key is on the list |
| `PartialUpdate.TakenExactly` | app/modules/users/service.py:291-311 | an e-mail or phone is taken exactly if the body gives a value, not null, that another user of the tenant has and this one has not |
| `PartialUpdate.AcceptedKeepsUnshared` | app/modules/users/service.py:291-311 | an update that the checks let pass leaves no two users of the tenant with one e-mail or one phone |
| `PartialUpdate.BuildUserUpdate` | app/modules/users/service.py:340-373 | the loop over the allowlist builds a statement of the one specification |
| `PartialUpdate.ChosenExactly` | app/modules/packages/service.py:145-158 | a supplied column gets its own value and any other keeps what it had |
| `PartialUpdate.UpdatesUnique` | app/modules/packages/service.py:139-176 | the specification determines the table, so statements that meet it are interchangeable |
| `VatSplit.SplitVat` | app/integrations/etims.py:132-150 | supply and tax add up to the amount, each within half a cent of its share |
| `VatSplit.NearestEven` | app/integrations/etims.py:148-153 | rounding takes the nearest cent, and of two as near the even one |
| `VatSplit.SharesAddUpExactlyWhen` | app/integrations/etims.py:148-153 | two complementary shares rounded apart add up exactly when there is no tie or the total is even |

## Left out

- HTTP, Redis, Postgres, RADIUS, WireGuard and SMS transports, PDF and QR output: table operations, parameters or
  oracles stand for them.
- Cryptography: bcrypt, Fernet, JWT signing, SHA-256 and TOTP codes are abstract; whether a code is right is an input.
- The React user interface beyond the refresh interceptor, the RouterOS scripts and the seed scripts.
- Tenant-scoped list and get queries, role checks and request validators.
- `calculate_proration`, `create_speed_profiles`, the router heartbeat loop and the in-process pollers: easy or legacy.
- Two tabs sharing local storage and bulk revocation while a tab is open: the code does not exclude them, and the session
  theorems take their absence as a hypothesis. Reloads in the middle of a refresh are in `BrowserReload` only.
- Packages are fixed for a run of the payment pipeline, so the free trial's package exists beforehand; the
  once-a-day limit of trials is not modelled.
- The second draw of a voucher code is not rechecked by the code; codes are taken to be fresh.
- A wallet sale's payment keeps the whole voucher id as its reference; the code cuts it to twenty characters.
- Money is in exact cents; the VAT split is in exact arithmetic, not in floating point.
- Admin changes of a subscription's status.
- `RouterDeployments.HotspotConverges`: repeats one configuration; deploying a different one between attempts is not
  modelled. It takes every request as executed once; lost answers are in `RouterRetries`. Convergence of every menu
  under them is false (`RouterRetries.OneEntryExactlyWhen`); of the RADIUS clients it is proved.
- `PaymentWorkers.Database.ProcessDarajaWebhook`: its `platform_payments` branch is
  `TenantExtensions.Ledger.ProcessDarajaWebhook`.
- `PaymentWorkers.Database.PollPendingDarajaPaymentsCron`: its platform payments are in `TenantExtensions`.
- `PlatformBilling.Account.TenantBillingCron`: the metering warning and the price table are not modelled.
- `VoucherService.TenantsIsolated`: expiry and activation work across tenants by design and are not covered by it.
- `VoucherService.Service.ActivateVoucher`: one row of the statement that updates all vouchers with sessions.
- `SuperAdminTotp.ThreeWrongCodesAtMost`: calls that overlap are excluded; for them it is false, and
  `SuperAdminLockout` has the bound.
- `SuperAdminTotp.LockedForEver`: likewise; `SuperAdminLateCalls` has the exact condition.
- `SuperAdminTotp.VerifiedSecretStays`: likewise; `SuperAdminLockout.SecretCanChangeExactlyWhen` has it.
- `VoucherService.NeverReactivated`: likewise for overlapping operations; `VoucherOverlap.ReactivatesExactlyWhen` has it.
- `VoucherService.ActiveVouchersComplete`: likewise; `VoucherSpoilage.OpenOnesSpoilExactlyWhen` has it.
- `VoucherSpoilage.OpenOnesSpoilExactlyWhen`: is about what is open; a pending voucher and two operations that have not
  begun can always spoil (`VoucherSpoilage.PasswordDeleted`).
- `PaymentWorkers.ReconciliationPromise`: nothing else happens meanwhile; `Reconciliation` has the interleaved runs.
- `VatSplit.SplitVat`: exact cents where the code rounds binary floating point.
