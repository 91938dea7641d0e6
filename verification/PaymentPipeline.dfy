/**
 Payment to voucher, with every actor's reads and writes as separate steps: payment initiation,
 webhook deliveries (lost, late, repeated), poller rows, the reconciliation cron, the admin's
 retry, voucher jobs, free trials and wallet sales. Any actor can stop between two steps.
 */
module PaymentPipeline {
  import opened Common
  import opened PaymentTables

  datatype Outcome = Accepted | Declined

  /**
   Daraja: the outcome of a checkout id, once final, never changes. `tail` is the end of the id that the poller's
   receipt keeps.
   */
  datatype Env = Env(outcome: nat -> Outcome, tail: nat -> nat)

  /** What an actor still has to do. */
  datatype Task =
    | PushStk(id: nat)
    | HookWrite(id: nat, tenant: nat, ok: bool, sent: Option<Receipt>)
    | PollRow(id: nat, tenant: nat, checkout: nat)
    | PollWrite(id: nat, tenant: nat, checkout: nat, ok: bool)
    | Enqueue(id: nat, tenant: nat)
    | Queued(job: Job)
    | Running(job: Job)
    | Issuing(job: Job, package: nat)

  datatype State = State(
    packages: map<nat, nat>,       // package to tenant
    payments: Payments,
    vouchers: Vouchers,
    tasks: multiset<Task>,
    now: int)

  /** The customer's request: the row is inserted before Daraja is called, the checkout id set after. */
  datatype BuyerStep =
    | Initiate(id: nat, tenant: nat, package: nat)
    | PushAnswered(id: nat, answer: Option<nat>)
    | PushFailed(id: nat)

  datatype HookStep =
    | HookRead(id: nat, checkout: nat, sent: Option<Receipt>)
    | HookApply(task: Task)

  /** The poller; `PollFetch` is one row of its SELECT, so rows may grow stale. */
  datatype PollStep =
    | PollFetch(id: nat)
    | PollAsk(task: Task, final: bool)
    | PollApply(task: Task)

  /**
   Who puts jobs on the queue; `ReconcileFetch` is one row of the cron's SELECT. A job whose worker died is delivered
   again, which counts as another try.
   */
  datatype QueueStep =
    | ReconcileFetch(id: nat)
    | AdminRetry(id: nat, tenant: nat)
    | Push(task: Task)
    | Redeliver(job: Job)

  datatype JobStep =
    | JobStart(job: Job)
    | JobRead(job: Job)
    | JobInsert(job: Job, package: nat, code: nat)
    | JobError(task: Task)

  /** Payments that are born confirmed; the wallet sale is the commit of its transaction. */
  datatype SaleStep =
    | FreeTrial(id: nat, tenant: nat, package: nat, receipt: Receipt)
    | WalletSale(id: nat, tenant: nat, package: nat, sale: nat, receipt: Receipt, code: nat)

  datatype Step =
    | Wait(seconds: nat)
    | Stop(task: Task)             // an actor dies, or a message is lost
    | Buyer(buyer: BuyerStep)
    | Hook(hook: HookStep)
    | Poll(poll: PollStep)
    | Queue(queue: QueueStep)
    | Work(work: JobStep)
    | Sell(sell: SaleStep)

  function Init(packages: map<nat, nat>, now: int): State {
    State(packages, map[], map[], multiset{}, now)
  }

  predicate IsJobTask(task: Task) {
    task.Running? || task.Issuing?
  }

  predicate PackageOf(s: State, package: nat, tenant: nat) {
    package in s.packages && s.packages[package] == tenant
  }

  predicate CheckoutUsed(payments: Payments, checkout: Checkout) {
    exists id :: id in payments && payments[id].checkout == checkout
  }

  predicate CanBuy(s: State, step: BuyerStep) {
    match step
    case Initiate(id, tenant, package) => id !in s.payments && PackageOf(s, package, tenant)
    case PushAnswered(id, answer) =>
      PushStk(id) in s.tasks && id in s.payments && (answer.Some? ==> !CheckoutUsed(s.payments, Daraja(answer.value)))
    case PushFailed(id) => PushStk(id) in s.tasks && id in s.payments
  }

  predicate CanHook(s: State, step: HookStep) {
    match step
    case HookRead(id, checkout, _) => id in s.payments && s.payments[id].checkout == Daraja(checkout)
    case HookApply(task) => task in s.tasks && task.HookWrite?
  }

  predicate CanPoll(s: State, step: PollStep) {
    match step
    case PollFetch(id) => Pollable(s.payments, id, s.now) && s.payments[id].checkout.Daraja?
    case PollAsk(task, _) => task in s.tasks && task.PollRow?
    case PollApply(task) => task in s.tasks && task.PollWrite?
  }

  predicate CanQueue(s: State, step: QueueStep) {
    match step
    case ReconcileFetch(id) => Reconcilable(s.payments, s.vouchers, id, s.now)
    case AdminRetry(id, tenant) => Owned(s.payments, id, tenant) && Stuck(s.payments, s.vouchers, id)
    case Push(task) => task in s.tasks && task.Enqueue?
    case Redeliver(job) => Running(job) in s.tasks
  }

  predicate CanWork(s: State, step: JobStep) {
    match step
    case JobStart(job) => Queued(job) in s.tasks
    case JobRead(job) => Running(job) in s.tasks
    case JobInsert(job, package, _) => Issuing(job, package) in s.tasks
    case JobError(task) => task in s.tasks && IsJobTask(task)
  }

  predicate CanSell(s: State, step: SaleStep) {
    match step
    case FreeTrial(id, tenant, package, receipt) =>
      id !in s.payments && PackageOf(s, package, tenant) && receipt.Trial? && !ReceiptTaken(s.payments, id, receipt)
    case WalletSale(id, tenant, package, _, receipt, code) =>
      && id !in s.payments && PackageOf(s, package, tenant) && receipt.Wallet? && !ReceiptTaken(s.payments, id, receipt)
      && id !in s.vouchers && !CodeTaken(s.vouchers, code)
  }

  predicate Enabled(s: State, step: Step) {
    match step
    case Wait(_) => true
    case Stop(task) => task in s.tasks
    case Buyer(buyer) => CanBuy(s, buyer)
    case Hook(hook) => CanHook(s, hook)
    case Poll(poll) => CanPoll(s, poll)
    case Queue(queue) => CanQueue(s, queue)
    case Work(work) => CanWork(s, work)
    case Sell(sell) => CanSell(s, sell)
  }

  /** What a step leaves in the tables, the work it takes on and the work it leaves behind. */
  datatype Effect = Effect(payments: Payments, vouchers: Vouchers, done: Option<Task>, next: Option<Task>)

  /** A step that changes no table. */
  function Quietly(s: State, done: Option<Task>, next: Option<Task>): Effect {
    Effect(s.payments, s.vouchers, done, next)
  }

  function Paying(s: State, payments: Payments, done: Option<Task>, next: Option<Task>): Effect {
    Effect(payments, s.vouchers, done, next)
  }

  /** A failed try: run again after `DELAYS[tries - 1]` seconds, or give up after the last. */
  function Retry(job: Job): Option<Task> {
    if job.tries < MAX_TRIES then Some(Queued(job.(tries := job.tries + 1))) else None
  }

  /** `process_daraja_webhook` after its SELECT. */
  function HookDecide(env: Env, s: State, id: nat, checkout: nat, sent: Option<Receipt>): Option<Task>
    requires id in s.payments
  {
    var ok := env.outcome(checkout) == Accepted;
    if s.payments[id].status != Pending then None
    else if ok && sent.None? then None
    else Some(HookWrite(id, s.payments[id].tenant, ok, sent))
  }

  function HookFinish(s: State, task: Task): Effect
    requires task.HookWrite?
  {
    if task.ok then
      if task.sent.None? then Quietly(s, Some(task), None)
      else
        match ConfirmOwned(s.payments, task.id, task.tenant, task.sent.value)
        case Ok(payments) => Paying(s, payments, Some(task), Some(Enqueue(task.id, task.tenant)))
        case Err(_) => Quietly(s, Some(task), None)
    else Paying(s, FailOwned(s.payments, task.id, task.tenant), Some(task), None)
  }

  /** The poller enqueues after a confirmed query even when its guarded UPDATE matched no row. */
  function PollFinish(env: Env, s: State, task: Task): Effect
    requires task.PollWrite?
  {
    if task.ok then
      match ConfirmPending(s.payments, task.id, Polled(env.tail(task.checkout)))
      case Ok(payments) => Paying(s, payments, Some(task), Some(Enqueue(task.id, task.tenant)))
      case Err(_) => Quietly(s, Some(task), None)
    else Paying(s, FailPending(s.payments, task.id), Some(task), None)
  }

  function Buying(s: State, step: BuyerStep): Effect
    requires CanBuy(s, step)
  {
    match step
    case Initiate(id, tenant, package) =>
      Paying(s, s.payments[id := Payment(tenant, package, NoCheckout, Pending, None, s.now)], None, Some(PushStk(id)))
    case PushAnswered(id, answer) =>
      var checkout := if answer.Some? then Daraja(answer.value) else NoCheckout;
      Paying(s, s.payments[id := s.payments[id].(checkout := checkout)], Some(PushStk(id)), None)
    case PushFailed(id) => Paying(s, SetStatus(s.payments, id, Failed), Some(PushStk(id)), None)
  }

  function Hooking(env: Env, s: State, step: HookStep): Effect
    requires CanHook(s, step)
  {
    match step
    case HookRead(id, checkout, sent) => Quietly(s, None, HookDecide(env, s, id, checkout, sent))
    case HookApply(task) => HookFinish(s, task)
  }

  function Polling(env: Env, s: State, step: PollStep): Effect
    requires CanPoll(s, step)
  {
    match step
    case PollFetch(id) => Quietly(s, None, Some(PollRow(id, s.payments[id].tenant, s.payments[id].checkout.id)))
    case PollAsk(task, final) =>
      var ok := env.outcome(task.checkout) == Accepted;
      Quietly(s, Some(task), if final then Some(PollWrite(task.id, task.tenant, task.checkout, ok)) else None)
    case PollApply(task) => PollFinish(env, s, task)
  }

  function Queueing(s: State, step: QueueStep): Effect
    requires CanQueue(s, step)
  {
    match step
    case ReconcileFetch(id) => Quietly(s, None, Some(Enqueue(id, s.payments[id].tenant)))
    case AdminRetry(id, tenant) => Quietly(s, None, Some(Enqueue(id, tenant)))
    case Push(task) => Quietly(s, Some(task), Some(Queued(Job(task.id, task.tenant, 1))))
    case Redeliver(job) => Quietly(s, None, Some(Queued(job.(tries := job.tries + 1))))
  }

  function Working(s: State, step: JobStep): Effect
    requires CanWork(s, step)
  {
    match step
    case JobStart(job) =>
      Quietly(s, Some(Queued(job)), if Owned(s.payments, job.payment, job.tenant) then Some(Running(job)) else None)
    case JobRead(job) =>
      Quietly(s, Some(Running(job)),
              if Sellable(s.payments, s.packages, job.payment, job.tenant)
              then Some(Issuing(job, s.payments[job.payment].package)) else Retry(job))
    case JobInsert(job, package, code) =>
      (match InsertVoucher(s.vouchers, job.payment, job.tenant, package, code)
       case Ok(vouchers) => Effect(s.payments, vouchers, Some(Issuing(job, package)), None)
       case Err(_) => Quietly(s, Some(Issuing(job, package)), Retry(job)))
    case JobError(task) => Quietly(s, Some(task), Retry(task.job))
  }

  function Selling(s: State, step: SaleStep): Effect
    requires CanSell(s, step)
  {
    match step
    case FreeTrial(id, tenant, package, receipt) =>
      var row := Payment(tenant, package, NoCheckout, Confirmed, Some(receipt), s.now);
      Paying(s, s.payments[id := row], None, Some(Running(Job(id, tenant, MAX_TRIES))))
    case WalletSale(id, tenant, package, sale, receipt, code) =>
      var row := Payment(tenant, package, WalletRef(sale), Confirmed, Some(receipt), s.now);
      Effect(s.payments[id := row], s.vouchers[id := Voucher(tenant, package, code)], None, None)
  }

  function Act(env: Env, s: State, step: Step): Effect
    requires Enabled(s, step)
  {
    match step
    case Wait(_) => Quietly(s, None, None)
    case Stop(task) => Quietly(s, Some(task), None)
    case Buyer(buyer) => Buying(s, buyer)
    case Hook(hook) => Hooking(env, s, hook)
    case Poll(poll) => Polling(env, s, poll)
    case Queue(queue) => Queueing(s, queue)
    case Work(work) => Working(s, work)
    case Sell(sell) => Selling(s, sell)
  }

  function AsSet(task: Option<Task>): multiset<Task> {
    if task.Some? then multiset{task.value} else multiset{}
  }

  function Apply(env: Env, s: State, step: Step): State
    requires Enabled(s, step)
  {
    var effect := Act(env, s, step);
    s.(payments := effect.payments,
       vouchers := effect.vouchers,
       tasks := s.tasks - AsSet(effect.done) + AsSet(effect.next),
       now := if step.Wait? then s.now + step.seconds else s.now)
  }

  ghost predicate Runs(env: Env, s: State, steps: seq<Step>, last: State)
    decreases |steps|
  {
    if steps == [] then s == last
    else
      var n := |steps| - 1;
      exists mid :: Runs(env, s, steps[..n], mid) && Enabled(mid, steps[n]) && Apply(env, mid, steps[n]) == last
  }

  // ---------------------------------------------------------------- the invariant

  /** The status that Daraja's answer calls for. */
  function Verdict(env: Env, checkout: nat): Status {
    if env.outcome(checkout) == Accepted then Confirmed else Failed
  }

  ghost predicate RowOk(env: Env, packages: map<nat, nat>, row: Payment) {
    && row.package in packages && packages[row.package] == row.tenant
    && (row.checkout.Daraja? ==> row.status in {Pending, Verdict(env, row.checkout.id)})
    && (row.checkout.WalletRef? ==> row.status == Confirmed)
  }

  ghost predicate CheckoutsDistinct(payments: Payments) {
    forall i, j :: i in payments && j in payments && i != j && payments[i].checkout.Daraja? ==>
      payments[i].checkout != payments[j].checkout
  }

  ghost predicate PaymentsOk(env: Env, packages: map<nat, nat>, payments: Payments) {
    (forall id :: id in payments ==> RowOk(env, packages, payments[id])) && CheckoutsDistinct(payments)
  }

  /** Every voucher belongs to a confirmed payment of its tenant and to that payment's package. */
  ghost predicate VouchersOk(payments: Payments, vouchers: Vouchers) {
    forall id :: id in vouchers ==>
      && Owned(payments, id, vouchers[id].tenant)
      && payments[id].status == Confirmed
      && payments[id].package == vouchers[id].package
  }

  ghost predicate JobOk(payments: Payments, job: Job) {
    Owned(payments, job.payment, job.tenant) && payments[job.payment].status == Confirmed && 1 <= job.tries
  }

  ghost predicate TaskOk(env: Env, payments: Payments, task: Task) {
    match task
    case PushStk(id) => id in payments && payments[id].status == Pending && payments[id].checkout == NoCheckout
    case HookWrite(id, tenant, ok, _) =>
      && Owned(payments, id, tenant) && payments[id].checkout.Daraja?
      && (ok <==> env.outcome(payments[id].checkout.id) == Accepted)
    case PollRow(id, tenant, checkout) => Owned(payments, id, tenant) && payments[id].checkout == Daraja(checkout)
    case PollWrite(id, tenant, checkout, ok) =>
      && Owned(payments, id, tenant) && payments[id].checkout == Daraja(checkout)
      && (ok <==> env.outcome(checkout) == Accepted)
    case Enqueue(id, tenant) => Owned(payments, id, tenant) && payments[id].status == Confirmed
    case Queued(job) => JobOk(payments, job)
    case Running(job) => JobOk(payments, job)
    case Issuing(job, package) => JobOk(payments, job) && payments[job.payment].package == package
  }

  ghost predicate TasksOk(env: Env, payments: Payments, tasks: multiset<Task>) {
    && (forall task :: task in tasks ==> TaskOk(env, payments, task))
    && (forall id :: tasks[PushStk(id)] <= 1)
  }

  ghost predicate Inv(env: Env, s: State) {
    && PaymentsOk(env, s.packages, s.payments)
    && VouchersOk(s.payments, s.vouchers)
    && TasksOk(env, s.payments, s.tasks)
  }

  /**
   What no step can do to a payment row: move it to another tenant or package, change a status
   that is not pending, replace a checkout id. A row still waiting for its STK push is left alone
   by everyone but the initiator.
   */
  ghost predicate Evolves(before: Payments, after: Payments, initiated: set<nat>) {
    forall id :: id in before ==>
      && id in after
      && after[id].tenant == before[id].tenant && after[id].package == before[id].package
      && after[id].createdAt == before[id].createdAt
      && (before[id].status != Pending ==> after[id].status == before[id].status)
      && (before[id].checkout != NoCheckout ==> after[id].checkout == before[id].checkout)
      && (id !in initiated && before[id].status == Pending && before[id].checkout == NoCheckout ==>
        after[id] == before[id])
  }

  /** The row whose STK push the step answers. */
  function Initiated(step: Step): set<nat> {
    if step.Buyer? && !step.buyer.Initiate? then {step.buyer.id} else {}
  }

  /** An effect that keeps every invariant. */
  ghost predicate Good(env: Env, s: State, effect: Effect, initiated: set<nat>) {
    && Evolves(s.payments, effect.payments, initiated)
    && PaymentsOk(env, s.packages, effect.payments)
    && VouchersOk(effect.payments, effect.vouchers)
    && (effect.done.Some? ==> effect.done.value in s.tasks)
    && (effect.next.Some? ==> TaskOk(env, effect.payments, effect.next.value))
    && (effect.next.Some? && effect.next.value.PushStk? ==> effect.next.value.id !in s.payments)
    && (forall id :: id in initiated ==> effect.done == Some(PushStk(id)))
  }

  lemma VouchersEvolve(before: Payments, after: Payments, initiated: set<nat>, vouchers: Vouchers)
    requires Evolves(before, after, initiated) && VouchersOk(before, vouchers)
    ensures VouchersOk(after, vouchers)
  {
  }

  lemma RowChanged(env: Env, packages: map<nat, nat>, payments: Payments, id: nat, row: Payment)
    requires PaymentsOk(env, packages, payments) && RowOk(env, packages, row)
    requires row.checkout.Daraja? ==>
               (id in payments && payments[id].checkout == row.checkout)
               || !CheckoutUsed(payments, row.checkout)
    ensures PaymentsOk(env, packages, payments[id := row])
  {
  }

  lemma BuyingGood(env: Env, s: State, step: BuyerStep)
    requires Inv(env, s) && CanBuy(s, step)
    ensures Good(env, s, Buying(s, step), Initiated(Buyer(step)))
  {
    var after := Buying(s, step).payments;
    assert !step.Initiate? ==> TaskOk(env, s.payments, PushStk(step.id));
    RowChanged(env, s.packages, s.payments, step.id, after[step.id]);
    VouchersEvolve(s.payments, after, Initiated(Buyer(step)), s.vouchers);
  }

  /** An effect without writes is good if what it leaves to do is. */
  lemma QuietGood(env: Env, s: State, done: Option<Task>, next: Option<Task>)
    requires Inv(env, s) && (done.Some? ==> done.value in s.tasks)
    requires next.Some? ==> TaskOk(env, s.payments, next.value) && !next.value.PushStk?
    ensures Good(env, s, Quietly(s, done, next), {})
  {
  }

  /** A write to one row that Daraja's answer calls for. */
  lemma SettleGood(env: Env, s: State, id: nat, row: Payment, done: Task, next: Option<Task>)
    requires Inv(env, s) && id in s.payments && done in s.tasks && s.payments[id].checkout.Daraja?
    requires row == s.payments[id].(status := Verdict(env, s.payments[id].checkout.id), receipt := row.receipt)
    requires next.Some? ==> next == Some(Enqueue(id, row.tenant)) && row.status == Confirmed
    ensures Good(env, s, Paying(s, s.payments[id := row], Some(done), next), {})
  {
    RowChanged(env, s.packages, s.payments, id, row);
    VouchersEvolve(s.payments, s.payments[id := row], {}, s.vouchers);
  }

  lemma HookFinishGood(env: Env, s: State, task: Task)
    requires Inv(env, s) && task in s.tasks && task.HookWrite?
    ensures Good(env, s, HookFinish(s, task), {})
  {
    assert TaskOk(env, s.payments, task);
    if !task.ok {
      SettleGood(env, s, task.id, s.payments[task.id].(status := Failed), task, None);
    } else if task.sent.None? || ReceiptTaken(s.payments, task.id, task.sent.value) {
      QuietGood(env, s, Some(task), None);
    } else {
      SettleGood(env, s, task.id, s.payments[task.id].(status := Confirmed, receipt := task.sent), task,
                 Some(Enqueue(task.id, task.tenant)));
    }
  }

  lemma HookingGood(env: Env, s: State, step: HookStep)
    requires Inv(env, s) && CanHook(s, step)
    ensures Good(env, s, Hooking(env, s, step), {})
  {
    match step
    case HookRead(id, checkout, sent) => QuietGood(env, s, None, HookDecide(env, s, id, checkout, sent));
    case HookApply(task) => HookFinishGood(env, s, task);
  }

  lemma PollFinishGood(env: Env, s: State, task: Task)
    requires Inv(env, s) && task in s.tasks && task.PollWrite?
    ensures Good(env, s, PollFinish(env, s, task), {})
  {
    assert TaskOk(env, s.payments, task);
    var row := s.payments[task.id];
    var receipt := Polled(env.tail(task.checkout));
    if row.status != Pending {
      QuietGood(env, s, Some(task), if task.ok then Some(Enqueue(task.id, task.tenant)) else None);
    } else if !task.ok {
      SettleGood(env, s, task.id, row.(status := Failed), task, None);
    } else if ReceiptTaken(s.payments, task.id, receipt) {
      QuietGood(env, s, Some(task), None);
    } else {
      SettleGood(env, s, task.id, row.(status := Confirmed, receipt := Some(receipt)), task,
                 Some(Enqueue(task.id, task.tenant)));
    }
  }

  lemma PollingGood(env: Env, s: State, step: PollStep)
    requires Inv(env, s) && CanPoll(s, step)
    ensures Good(env, s, Polling(env, s, step), {})
  {
    match step
    case PollFetch(id) => QuietGood(env, s, None, Polling(env, s, step).next);
    case PollAsk(task, _) =>
      assert TaskOk(env, s.payments, task);
      QuietGood(env, s, Some(task), Polling(env, s, step).next);
    case PollApply(task) => PollFinishGood(env, s, task);
  }

  lemma QueueingGood(env: Env, s: State, step: QueueStep)
    requires Inv(env, s) && CanQueue(s, step)
    ensures Good(env, s, Queueing(s, step), {})
  {
    match step
    case ReconcileFetch(_) => QuietGood(env, s, None, Queueing(s, step).next);
    case AdminRetry(_, _) => QuietGood(env, s, None, Queueing(s, step).next);
    case Push(task) =>
      assert TaskOk(env, s.payments, task);
      QuietGood(env, s, Some(task), Queueing(s, step).next);
    case Redeliver(job) =>
      assert TaskOk(env, s.payments, Running(job));
      QuietGood(env, s, None, Queueing(s, step).next);
  }

  lemma RetryOk(env: Env, payments: Payments, job: Job)
    requires JobOk(payments, job)
    ensures Retry(job).Some? ==> TaskOk(env, payments, Retry(job).value)
  {
  }

  lemma IssueGood(env: Env, s: State, job: Job, package: nat, vouchers: Vouchers)
    requires Inv(env, s) && Issuing(job, package) in s.tasks
    requires exists code :: vouchers == s.vouchers[job.payment := Voucher(job.tenant, package, code)]
    ensures Good(env, s, Effect(s.payments, vouchers, Some(Issuing(job, package)), None), {})
  {
    assert TaskOk(env, s.payments, Issuing(job, package));
  }

  lemma InsertGood(env: Env, s: State, job: Job, package: nat, code: nat)
    requires Inv(env, s) && Issuing(job, package) in s.tasks
    ensures Good(env, s, Working(s, JobInsert(job, package, code)), {})
  {
    assert TaskOk(env, s.payments, Issuing(job, package));
    if job.payment in s.vouchers || CodeTaken(s.vouchers, code) {
      RetryOk(env, s.payments, job);
      QuietGood(env, s, Some(Issuing(job, package)), Retry(job));
    } else {
      IssueGood(env, s, job, package, s.vouchers[job.payment := Voucher(job.tenant, package, code)]);
    }
  }

  lemma WorkingGood(env: Env, s: State, step: JobStep)
    requires Inv(env, s) && CanWork(s, step)
    ensures Good(env, s, Working(s, step), {})
  {
    match step
    case JobStart(job) =>
      assert TaskOk(env, s.payments, Queued(job));
      QuietGood(env, s, Some(Queued(job)), Some(Running(job)));
    case JobRead(job) =>
      assert TaskOk(env, s.payments, Running(job));
      RetryOk(env, s.payments, job);
      QuietGood(env, s, Some(Running(job)), Working(s, step).next);
    case JobInsert(job, package, code) => InsertGood(env, s, job, package, code);
    case JobError(task) =>
      assert TaskOk(env, s.payments, task);
      RetryOk(env, s.payments, task.job);
      QuietGood(env, s, Some(task), Retry(task.job));
  }

  lemma SellingGood(env: Env, s: State, step: SaleStep)
    requires Inv(env, s) && CanSell(s, step)
    ensures Good(env, s, Selling(s, step), {})
  {
    var after := Selling(s, step).payments;
    RowChanged(env, s.packages, s.payments, step.id, after[step.id]);
    VouchersEvolve(s.payments, after, {}, s.vouchers);
  }

  lemma {:induction false} StepGood(env: Env, s: State, step: Step)
    requires Inv(env, s) && Enabled(s, step)
    ensures Good(env, s, Act(env, s, step), Initiated(step))
  {
    match step
    case Wait(_) => QuietGood(env, s, None, None);
    case Stop(task) => QuietGood(env, s, Some(task), None);
    case Buyer(buyer) => BuyingGood(env, s, buyer);
    case Hook(hook) => HookingGood(env, s, hook);
    case Poll(poll) => PollingGood(env, s, poll);
    case Queue(queue) => QueueingGood(env, s, queue);
    case Work(work) => WorkingGood(env, s, work);
    case Sell(sell) => SellingGood(env, s, sell);
  }

  lemma TaskStable(env: Env, before: Payments, after: Payments, initiated: set<nat>, task: Task)
    requires Evolves(before, after, initiated) && TaskOk(env, before, task)
    requires task.PushStk? ==> task.id !in initiated
    ensures TaskOk(env, after, task)
  {
  }

  lemma TasksKept(env: Env, s: State, effect: Effect, initiated: set<nat>)
    requires Inv(env, s) && Good(env, s, effect, initiated)
    ensures TasksOk(env, effect.payments, s.tasks - AsSet(effect.done) + AsSet(effect.next))
  {
    var tasks := s.tasks - AsSet(effect.done) + AsSet(effect.next);
    forall task | task in tasks ensures TaskOk(env, effect.payments, task) {
      if effect.next != Some(task) {
        assert task in s.tasks && task in s.tasks - AsSet(effect.done);
        TaskStable(env, s.payments, effect.payments, initiated, task);
      }
    }
    forall id ensures tasks[PushStk(id)] <= 1 {
      if PushStk(id) in s.tasks {
        assert TaskOk(env, s.payments, PushStk(id));
      }
    }
  }

  lemma {:induction false} InvKept(env: Env, s: State, step: Step)
    requires Inv(env, s) && Enabled(s, step)
    ensures Inv(env, Apply(env, s, step))
    ensures Evolves(s.payments, Apply(env, s, step).payments, Initiated(step))
  {
    StepGood(env, s, step);
    TasksKept(env, s, Act(env, s, step), Initiated(step));
  }
}
