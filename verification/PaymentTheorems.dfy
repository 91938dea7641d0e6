/** What every interleaving of the payment actors guarantees. */
module PaymentTheorems {
  import opened Common
  import opened PaymentTables
  import opened PaymentPipeline

  lemma {:induction false} InvAlong(env: Env, s: State, steps: seq<Step>, last: State)
    requires Inv(env, s) && Runs(env, s, steps, last)
    ensures Inv(env, last) && last.packages == s.packages
    decreases |steps|
  {
    if steps != [] {
      var n := |steps| - 1;
      var mid :| Runs(env, s, steps[..n], mid) && Enabled(mid, steps[n]) && Apply(env, mid, steps[n]) == last;
      InvAlong(env, s, steps[..n], mid);
      InvKept(env, mid, steps[n]);
    }
  }

  lemma {:induction false} Reachable(env: Env, packages: map<nat, nat>, now: int, steps: seq<Step>, s: State)
    requires Runs(env, Init(packages, now), steps, s)
    ensures Inv(env, s) && s.packages == packages
  {
    InvAlong(env, Init(packages, now), steps, s);
  }

  /**
   A payment that has a checkout id of Daraja's is pending or at exactly Daraja's outcome, and no other payment
   has that id.
   */
  lemma {:induction false} FollowsDaraja(env: Env, packages: map<nat, nat>, now: int, steps: seq<Step>, s: State,
      id: nat)
    requires Runs(env, Init(packages, now), steps, s)
    requires id in s.payments && s.payments[id].checkout.Daraja?
    ensures s.payments[id].status == Pending || s.payments[id].status == Verdict(env, s.payments[id].checkout.id)
    ensures forall other :: other in s.payments && s.payments[other].checkout == s.payments[id].checkout ==> other == id
  {
    Reachable(env, packages, now, steps, s);
  }

  lemma {:induction false} RowsEvolve(env: Env, s: State, steps: seq<Step>, last: State, id: nat)
    requires Inv(env, s) && Runs(env, s, steps, last) && id in s.payments
    ensures id in last.payments
    ensures last.payments[id].tenant == s.payments[id].tenant && last.payments[id].package == s.payments[id].package
    ensures s.payments[id].status != Pending ==> last.payments[id].status == s.payments[id].status
    ensures s.payments[id].checkout != NoCheckout ==> last.payments[id].checkout == s.payments[id].checkout
    decreases |steps|
  {
    if steps != [] {
      var n := |steps| - 1;
      var mid :| Runs(env, s, steps[..n], mid) && Enabled(mid, steps[n]) && Apply(env, mid, steps[n]) == last;
      RowsEvolve(env, s, steps[..n], mid, id);
      InvAlong(env, s, steps[..n], mid);
      InvKept(env, mid, steps[n]);
    }
  }

  /** Once a status leaves pending it never changes again; tenant, package and checkout id are never rewritten. */
  lemma {:induction false} StatusIsFinal(env: Env, packages: map<nat, nat>, now: int, before: seq<Step>, s: State,
      after: seq<Step>, last: State, id: nat)
    requires Runs(env, Init(packages, now), before, s) && Runs(env, s, after, last) && id in s.payments
    ensures id in last.payments
    ensures last.payments[id].tenant == s.payments[id].tenant && last.payments[id].package == s.payments[id].package
    ensures s.payments[id].status != Pending ==> last.payments[id].status == s.payments[id].status
    ensures s.payments[id].checkout != NoCheckout ==> last.payments[id].checkout == s.payments[id].checkout
  {
    Reachable(env, packages, now, before, s);
    RowsEvolve(env, s, after, last, id);
  }

  predicate JobOf(task: Task, job: Job) {
    (task.Queued? || task.Running? || task.Issuing?) && task.job == job
  }

  lemma JobTaskOk(env: Env, s: State, task: Task, job: Job)
    requires Inv(env, s) && task in s.tasks && JobOf(task, job)
    ensures JobOk(s.payments, job)
  {
    assert TaskOk(env, s.payments, task);
  }

  /**
   Although the job never looks at the status it fetches: a queued, running or issuing job names a confirmed payment
   of its own tenant. A failed try is retried exactly before the fourth, with its delay index in bounds; a job that
   was delivered more often than that is final too.
   */
  lemma {:induction false} JobsNameConfirmedPayments(env: Env, packages: map<nat, nat>, now: int, steps: seq<Step>,
                                                     s: State, task: Task, job: Job)
    requires Runs(env, Init(packages, now), steps, s) && task in s.tasks && JobOf(task, job)
    ensures Owned(s.payments, job.payment, job.tenant) && s.payments[job.payment].status == Confirmed
    ensures Retry(job).Some? <==> job.tries < MAX_TRIES
    ensures Retry(job).Some? ==> 0 <= job.tries - 1 < |DELAYS| && Retry(job).value.job.tries <= MAX_TRIES
  {
    Reachable(env, packages, now, steps, s);
    JobTaskOk(env, s, task, job);
  }

  /** A voucher belongs to a confirmed payment and to that payment's package, both of the voucher's tenant. */
  lemma {:induction false} VouchersArePaid(env: Env, packages: map<nat, nat>, now: int, steps: seq<Step>, s: State,
      id: nat)
    requires Runs(env, Init(packages, now), steps, s) && id in s.vouchers
    ensures id in s.payments && s.payments[id].status == Confirmed && s.payments[id].tenant == s.vouchers[id].tenant
    ensures s.payments[id].package == s.vouchers[id].package
    ensures s.vouchers[id].package in packages && packages[s.vouchers[id].package] == s.vouchers[id].tenant
  {
    Reachable(env, packages, now, steps, s);
  }

  // ---------------------------------------------------------------- stuck payments

  /**
   A payment becomes stuck only in the step that confirms it (or inserts it confirmed), and stops
   being stuck only in the step that inserts its voucher.
   */
  lemma {:induction false} StuckChanges(env: Env, s: State, step: Step, id: nat)
    requires Inv(env, s) && Enabled(s, step)
    ensures var s' := Apply(env, s, step);
            && (Stuck(s'.payments, s'.vouchers, id) && !Stuck(s.payments, s.vouchers, id) ==>
                  s'.payments[id].status == Confirmed && (id !in s.payments || s.payments[id].status == Pending))
            && (Stuck(s.payments, s.vouchers, id) && !Stuck(s'.payments, s'.vouchers, id) ==>
                  && step.Work? && step.work.JobInsert? && step.work.job.payment == id
                  && InsertVoucher(s.vouchers, id, step.work.job.tenant, step.work.package, step.work.code) ==
                    Ok(s'.vouchers))
  {
    InvKept(env, s, step);
    var s' := Apply(env, s, step);
    if Stuck(s.payments, s.vouchers, id) && !Stuck(s'.payments, s'.vouchers, id) {
      assert id in s'.vouchers && id !in s.vouchers;
      VoucherAppears(env, s, step, id);
    }
    if id in s.vouchers {
      VoucherStays(env, s, step, id);
    }
  }

  /** Only a job's INSERT and a wallet sale write vouchers. */
  lemma VoucherWriters(env: Env, s: State, step: Step)
    requires Enabled(s, step) && !step.Work? && !step.Sell?
    ensures Act(env, s, step).vouchers == s.vouchers
  {
  }

  lemma VoucherStays(env: Env, s: State, step: Step, id: nat)
    requires Enabled(s, step) && id in s.vouchers
    ensures id in Act(env, s, step).vouchers && Act(env, s, step).vouchers[id] == s.vouchers[id]
  {
    if !step.Work? && !step.Sell? {
      VoucherWriters(env, s, step);
    }
  }

  lemma VoucherAppears(env: Env, s: State, step: Step, id: nat)
    requires Enabled(s, step) && id in s.payments && id !in s.vouchers && id in Act(env, s, step).vouchers
    ensures step.Work? && step.work.JobInsert? && step.work.job.payment == id
    ensures InsertVoucher(s.vouchers, id, step.work.job.tenant, step.work.package, step.work.code) ==
            Ok(Act(env, s, step).vouchers)
  {
    if !step.Work? && !step.Sell? {
      VoucherWriters(env, s, step);
      assert false;
    }
  }

  lemma {:induction false} VouchersGrow(env: Env, s: State, steps: seq<Step>, last: State, id: nat)
    requires Runs(env, s, steps, last) && id in s.vouchers
    ensures id in last.vouchers && last.vouchers[id] == s.vouchers[id]
    decreases |steps|
  {
    if steps != [] {
      var n := |steps| - 1;
      var mid :| Runs(env, s, steps[..n], mid) && Enabled(mid, steps[n]) && Apply(env, mid, steps[n]) == last;
      VouchersGrow(env, s, steps[..n], mid, id);
      VoucherStays(env, mid, steps[n], id);
    }
  }
}
