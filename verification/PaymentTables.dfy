/**
 The `payments`, `packages` and `vouchers` tables, and the single SQL statements that the
 webhook, the poller, the crons and the voucher job run on them.
 */
module PaymentTables {
  import opened Common

  datatype Status = Pending | Confirmed | Failed

  /** `mpesa_checkout_id`: absent, issued by Daraja, or made up for a wallet sale. */
  datatype Checkout = NoCheckout | Daraja(id: nat) | WalletRef(sale: nat)

  /** `mpesa_receipt_number`: from M-Pesa, from the poller, or made up for a trial or a wallet sale. */
  datatype Receipt = Mpesa(n: nat) | Polled(suffix: nat) | Trial(t: nat) | Wallet(w: nat)

  datatype Payment = Payment(
    tenant: nat, package: nat, checkout: Checkout, status: Status, receipt: Option<Receipt>, createdAt: int)

  datatype Voucher = Voucher(tenant: nat, package: nat, code: nat)

  type Payments = map<nat, Payment>

  /** `payment_id` is UNIQUE in `vouchers`, so the table is keyed by it. */
  type Vouchers = map<nat, Voucher>

  datatype SqlError = UniqueViolation

  /** The queued call `generate_voucher_task(payment, tenant)` at its `tries`-th try. */
  datatype Job = Job(payment: nat, tenant: nat, tries: nat)

  const MAX_TRIES := 4
  const DELAYS := [5, 15, 45]
  const RECONCILE_AGE := 120
  const POLL_LIMIT := 7200

  predicate Owned(payments: Payments, id: nat, tenant: nat) {
    id in payments && payments[id].tenant == tenant
  }

  predicate ReceiptTaken(payments: Payments, id: nat, receipt: Receipt) {
    exists other :: other in payments && other != id && payments[other].receipt == Some(receipt)
  }

  function SetStatus(payments: Payments, id: nat, status: Status): Payments
    requires id in payments
  {
    payments[id := payments[id].(status := status)]
  }

  function SetConfirmed(payments: Payments, id: nat, receipt: Receipt): Payments
    requires id in payments
  {
    payments[id := payments[id].(status := Confirmed, receipt := Some(receipt))]
  }

  /** The webhook's confirmation: `WHERE id = $2 AND tenant_id = $3`, whatever the status. */
  function ConfirmOwned(payments: Payments, id: nat, tenant: nat, receipt: Receipt): Result<Payments, SqlError> {
    if !Owned(payments, id, tenant) then Ok(payments)
    else if ReceiptTaken(payments, id, receipt) then Err(UniqueViolation)
    else Ok(SetConfirmed(payments, id, receipt))
  }

  /** The poller's confirmation: `WHERE id = $2 AND status = 'pending'`. */
  function ConfirmPending(payments: Payments, id: nat, receipt: Receipt): Result<Payments, SqlError> {
    if id !in payments || payments[id].status != Pending then Ok(payments)
    else if ReceiptTaken(payments, id, receipt) then Err(UniqueViolation)
    else Ok(SetConfirmed(payments, id, receipt))
  }

  /** The webhook's rejection, whatever the status. */
  function FailOwned(payments: Payments, id: nat, tenant: nat): Payments {
    if Owned(payments, id, tenant) then SetStatus(payments, id, Failed) else payments
  }

  /** The poller's rejection, of a pending row only. */
  function FailPending(payments: Payments, id: nat): Payments {
    if id in payments && payments[id].status == Pending then SetStatus(payments, id, Failed) else payments
  }

  predicate CodeTaken(vouchers: Vouchers, code: nat) {
    exists id :: id in vouchers && vouchers[id].code == code
  }

  function InsertVoucher(vouchers: Vouchers, id: nat, tenant: nat, package: nat, code: nat)
    : Result<Vouchers, SqlError> {
    if id in vouchers || CodeTaken(vouchers, code) then Err(UniqueViolation)
    else Ok(vouchers[id := Voucher(tenant, package, code)])
  }

  /** A confirmed payment that has no voucher of its tenant. */
  predicate Stuck(payments: Payments, vouchers: Vouchers, id: nat) {
    && id in payments && payments[id].status == Confirmed
    && !(id in vouchers && vouchers[id].tenant == payments[id].tenant)
  }

  /** What the poller selects. */
  predicate Pollable(payments: Payments, id: nat, now: int) {
    && id in payments && payments[id].status == Pending && payments[id].checkout != NoCheckout
    && now - POLL_LIMIT < payments[id].createdAt < now - RECONCILE_AGE
  }

  /** What the reconciliation cron selects. */
  predicate Reconcilable(payments: Payments, vouchers: Vouchers, id: nat, now: int) {
    Stuck(payments, vouchers, id) && payments[id].createdAt < now - RECONCILE_AGE
  }

  /** What the voucher job's SELECT finds: the payment of this tenant and its package of this tenant. */
  predicate Sellable(payments: Payments, packages: map<nat, nat>, id: nat, tenant: nat) {
    && Owned(payments, id, tenant)
    && payments[id].package in packages && packages[payments[id].package] == tenant
  }
}
