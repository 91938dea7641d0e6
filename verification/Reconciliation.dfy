/** The reconciliation promise over interleaved runs: the cron's rows, the queue, and jobs that fail and are retried. */
module Reconciliation {
  import opened Common
  import opened PaymentTables
  import opened PaymentPipeline
  import PaymentTheorems
  import opened PaymentWorkers

  // ---------------------------------------------------------------- the cron and the job are their steps

  /** A reconcilable row becomes a queued job of its own tenant in two steps. */
  lemma ReconcileIsItsSteps(s: State, id: nat)
    requires Reconcilable(s.payments, s.vouchers, id, s.now)
    ensures CanQueue(s, ReconcileFetch(id))
    ensures var task := Enqueue(id, s.payments[id].tenant);
            && Queueing(s, ReconcileFetch(id)).next == Some(task)
            && var fetched := s.(tasks := s.tasks + multiset{task});
               CanQueue(fetched, Push(task))
               && Queueing(fetched, Push(task)).next == Some(Queued(Job(id, s.payments[id].tenant, 1)))
  {
  }

  /** One try of the job is its start, its read and its INSERT back to back, and fails as they do. */
  lemma JobIsItsSteps(s: State, job: Job, code: nat)
    requires Running(job) in s.tasks && Queued(job) in s.tasks && 1 <= job.tries
    ensures var (vouchers, result) := RunJob(s.packages, s.payments, s.vouchers, job, code, false);
            && (Working(s, JobStart(job)).next == (if result.Aborted? then None else Some(Running(job))))
            && (result.RetryIn? ==> Retry(job).Some? && result.delay == DELAYS[job.tries - 1])
            && (result.GaveUp? ==> Retry(job).None?)
            && (!result.Aborted? ==>
                  if !Sellable(s.payments, s.packages, job.payment, job.tenant) then
                    vouchers == s.vouchers && !result.Issued? && Working(s, JobRead(job)).next == Retry(job)
                  else
                    var package := s.payments[job.payment].package;
                    var read := s.(tasks := s.tasks + multiset{Issuing(job, package)});
                    && Working(s, JobRead(job)).next == Some(Issuing(job, package))
                    && Working(read, JobInsert(job, package, code)).vouchers == vouchers
                    && Working(read, JobInsert(job, package, code)).next ==
                      (if result.Issued? then None else Retry(job)))
  {
  }

  /** An infrastructure failure is the error step of the running job. */
  lemma JobDownIsItsStep(s: State, job: Job, code: nat)
    requires Running(job) in s.tasks && 1 <= job.tries && Owned(s.payments, job.payment, job.tenant)
    ensures var (vouchers, result) := RunJob(s.packages, s.payments, s.vouchers, job, code, true);
            && vouchers == s.vouchers && Working(s, JobError(Running(job))).next == Retry(job)
            && (result.RetryIn? <==> Retry(job).Some?)
  {
  }

  // ---------------------------------------------------------------- a job on its way

  /** The payment that a task is to get a voucher for. */
  function About(task: Task): Option<nat> {
    match task
    case Enqueue(id, _) => Some(id)
    case Queued(job) => Some(job.payment)
    case Running(job) => Some(job.payment)
    case Issuing(job, _) => Some(job.payment)
    case _ => None
  }

  ghost predicate OnItsWay(tasks: multiset<Task>, id: nat) {
    exists task :: task in tasks && About(task) == Some(id)
  }

  /** A step that ends a task for the payment with neither a next task nor a voucher. */
  ghost predicate Surrenders(env: Env, s: State, step: Step, id: nat)
    requires Enabled(s, step)
  {
    var effect := Act(env, s, step);
    && effect.done.Some? && About(effect.done.value) == Some(id)
    && effect.next.None? && id !in effect.vouchers
  }

  lemma QueueGoesOn(s: State, step: QueueStep, id: nat)
    requires CanQueue(s, step)
    ensures var effect := Queueing(s, step);
            effect.done.Some? && About(effect.done.value) == Some(id) ==>
              effect.next.Some? && About(effect.next.value) == Some(id)
  {
  }

  lemma WorkGoesOn(s: State, step: JobStep, id: nat)
    requires CanWork(s, step)
    ensures var effect := Working(s, step);
            effect.done.Some? && About(effect.done.value) == Some(id) && effect.next.Some? ==>
              About(effect.next.value) == Some(id)
  {
  }

  /** Only the queue and the jobs take tasks for a payment, and whoever dies with one. */
  lemma OthersLeaveJobs(env: Env, s: State, step: Step, id: nat)
    requires Enabled(s, step) && !step.Queue? && !step.Work? && !step.Stop?
    ensures var done := Act(env, s, step).done; done.Some? ==> About(done.value) == None
  {
  }

  lemma GoesOn(env: Env, s: State, step: Step, id: nat)
    requires Enabled(s, step)
    ensures var effect := Act(env, s, step);
            effect.done.Some? && About(effect.done.value) == Some(id) && effect.next.Some? ==>
              About(effect.next.value) == Some(id)
  {
    match step
    case Queue(queue) => QueueGoesOn(s, queue, id);
    case Work(work) => WorkGoesOn(s, work, id);
    case Stop(_) =>
    case _ => OthersLeaveJobs(env, s, step, id);
  }

  /** Swapping a task for one about the same payment, or leaving it. */
  lemma SwapKeepsWay(tasks: multiset<Task>, done: Option<Task>, next: Option<Task>, id: nat)
    requires OnItsWay(tasks, id)
    requires done.Some? && About(done.value) == Some(id) ==> next.Some? && About(next.value) == Some(id)
    ensures OnItsWay(tasks - AsSet(done) + AsSet(next), id)
  {
    var after := tasks - AsSet(done) + AsSet(next);
    var task :| task in tasks && About(task) == Some(id);
    assert if done == Some(task) then next.value in after else task in after;
  }

  lemma StepKeepsWay(env: Env, s: State, step: Step, id: nat)
    requires Enabled(s, step) && OnItsWay(s.tasks, id) && !Surrenders(env, s, step, id)
    ensures id in Apply(env, s, step).vouchers || OnItsWay(Apply(env, s, step).tasks, id)
  {
    var effect := Act(env, s, step);
    GoesOn(env, s, step, id);
    if id !in effect.vouchers {
      SwapKeepsWay(s.tasks, effect.done, effect.next, id);
    }
  }

  /** A job is surrendered only by dying, or by a try that fails and is not before the fourth. */
  lemma SurrendersOnlyAtTheLast(env: Env, s: State, step: Step, id: nat)
    requires Inv(env, s) && Enabled(s, step) && Surrenders(env, s, step, id)
    ensures step.Stop? || step.Work?
    ensures step.Work? ==>
              match step.work
              case JobStart(_) => false
              case JobRead(job) => job.payment == id && job.tries >= MAX_TRIES
              case JobInsert(job, _, _) => job.payment == id && job.tries >= MAX_TRIES
              case JobError(task) => About(task) == Some(id) && task.job.tries >= MAX_TRIES
  {
    match step
    case Queue(queue) => QueueGoesOn(s, queue, id);
    case Work(work) => WorkSurrenders(env, s, work, id);
    case Stop(_) =>
    case _ => OthersLeaveJobs(env, s, step, id);
  }

  lemma WorkSurrenders(env: Env, s: State, step: JobStep, id: nat)
    requires Inv(env, s) && CanWork(s, step)
    requires var effect := Working(s, step);
             && effect.done.Some? && About(effect.done.value) == Some(id) && effect.next.None? && id !in effect.vouchers
    ensures match step
            case JobStart(_) => false
            case JobRead(job) => job.payment == id && job.tries >= MAX_TRIES
            case JobInsert(job, _, _) => job.payment == id && job.tries >= MAX_TRIES
            case JobError(task) => About(task) == Some(id) && task.job.tries >= MAX_TRIES
  {
    assert forall job :: Queued(job) in s.tasks ==> TaskOk(env, s.payments, Queued(job));
  }

  /** Runs in which the payment's jobs are not surrendered. */
  ghost predicate RunsOn(env: Env, s: State, steps: seq<Step>, last: State, id: nat)
    decreases |steps|
  {
    if steps == [] then s == last
    else
      var n := |steps| - 1;
      exists mid ::
        && RunsOn(env, s, steps[..n], mid, id) && Enabled(mid, steps[n])
        && !Surrenders(env, mid, steps[n], id) && Apply(env, mid, steps[n]) == last
  }

  lemma {:induction false} RunKeepsWay(env: Env, s: State, steps: seq<Step>, last: State, id: nat)
    requires RunsOn(env, s, steps, last, id) && (id in s.vouchers || OnItsWay(s.tasks, id))
    ensures id in last.vouchers || OnItsWay(last.tasks, id)
    decreases |steps|
  {
    if steps != [] {
      var n := |steps| - 1;
      var mid :|
        && RunsOn(env, s, steps[..n], mid, id) && Enabled(mid, steps[n])
        && !Surrenders(env, mid, steps[n], id) && Apply(env, mid, steps[n]) == last;
      RunKeepsWay(env, s, steps[..n], mid, id);
      if id in mid.vouchers {
        PaymentTheorems.VoucherStays(env, mid, steps[n], id);
      } else {
        StepKeepsWay(env, mid, steps[n], id);
      }
    }
  }

  lemma Fetching(env: Env, s: State, id: nat)
    requires Reconcilable(s.payments, s.vouchers, id, s.now)
    ensures OnItsWay(Apply(env, s, Queue(ReconcileFetch(id))).tasks, id)
  {
    assert Enqueue(id, s.payments[id].tenant) in Apply(env, s, Queue(ReconcileFetch(id))).tasks;
  }

  /**
   The promise over runs: once the cron has fetched a payment's row, then whatever the other actors do and however often
   its job fails, as long as no job of it dies or fails at its last try, it has a voucher or a job on its way.
   */
  lemma {:induction false} FetchedIsNotForgotten(env: Env, packages: map<nat, nat>, now: int, before: seq<Step>,
      s: State, after: seq<Step>, last: State, id: nat)
    requires Runs(env, Init(packages, now), before, s) && Reconcilable(s.payments, s.vouchers, id, s.now)
    requires RunsOn(env, Apply(env, s, Queue(ReconcileFetch(id))), after, last, id)
    ensures id in last.vouchers || OnItsWay(last.tasks, id)
  {
    Fetching(env, s, id);
    RunKeepsWay(env, Apply(env, s, Queue(ReconcileFetch(id))), after, last, id);
  }

  /** The INSERT of a job went through, or was refused because the payment has a voucher. */
  ghost predicate Inserts(s: State, step: Step, id: nat) {
    && step.Work? && step.work.JobInsert? && step.work.job.payment == id && Enabled(s, step)
    && (id in s.vouchers
        || InsertVoucher(s.vouchers, id, step.work.job.tenant, step.work.package, step.work.code).Ok?)
  }

  /**
   In any state of any run after a payment's job has inserted its voucher, or has been refused as a duplicate, the
   payment has a voucher of its own tenant and package.
   */
  lemma {:induction false} InsertedForGood(env: Env, packages: map<nat, nat>, now: int, before: seq<Step>, s: State,
                                           step: Step, after: seq<Step>, last: State, id: nat)
    requires Runs(env, Init(packages, now), before, s) && Inserts(s, step, id)
    requires Runs(env, Apply(env, s, step), after, last)
    ensures id in last.vouchers && id in last.payments && last.payments[id].status == Confirmed
    ensures last.vouchers[id].tenant == last.payments[id].tenant
            && last.vouchers[id].package == last.payments[id].package
    ensures !Stuck(last.payments, last.vouchers, id)
  {
    var next := Apply(env, s, step);
    InsertInserts(env, s, step, id);
    PaymentTheorems.VouchersGrow(env, next, after, last, id);
    InvAfter(env, packages, now, before, s, step, after, last);
    VoucherIsPaid(env, last, id);
  }

  lemma InsertInserts(env: Env, s: State, step: Step, id: nat)
    requires Inserts(s, step, id)
    ensures id in Apply(env, s, step).vouchers
  {
  }

  lemma {:induction false} InvAfter(env: Env, packages: map<nat, nat>, now: int, before: seq<Step>, s: State,
      step: Step, after: seq<Step>, last: State)
    requires Runs(env, Init(packages, now), before, s) && Enabled(s, step)
    requires Runs(env, Apply(env, s, step), after, last)
    ensures Inv(env, last)
  {
    PaymentTheorems.Reachable(env, packages, now, before, s);
    InvKept(env, s, step);
    PaymentTheorems.InvAlong(env, Apply(env, s, step), after, last);
  }

  lemma VoucherIsPaid(env: Env, s: State, id: nat)
    requires Inv(env, s) && id in s.vouchers
    ensures id in s.payments && s.payments[id].status == Confirmed
    ensures s.vouchers[id].tenant == s.payments[id].tenant && s.vouchers[id].package == s.payments[id].package
    ensures !Stuck(s.payments, s.vouchers, id)
  {
  }
}
