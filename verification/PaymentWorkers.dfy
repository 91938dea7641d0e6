/**
 The webhook, the two crons and the voucher job as the program writes them, run without
 interruption, and what the reconciliation cron promises.
 */
module PaymentWorkers {
  import opened Common
  import opened PaymentTables
  import opened PaymentPipeline

  // ---------------------------------------------------------------- one uninterrupted call

  /** The webhook for the row that has the checkout id. */
  function Webhook(payments: Payments, id: nat, ok: bool, sent: Option<Receipt>): (Payments, Option<Job>)
    requires id in payments
  {
    var tenant := payments[id].tenant;
    if payments[id].status != Pending then (payments, None)
    else if !ok then (FailOwned(payments, id, tenant), None)
    else if sent.None? then (payments, None)
    else
      match ConfirmOwned(payments, id, tenant, sent.value)
      case Ok(after) => (after, Some(Job(id, tenant, 1)))
      case Err(_) => (payments, None)
  }

  datatype InitiateError = PackageNotFound | PackageInactive | PushRefused

  /** A new payment row once Daraja has answered: its checkout id is set (if the answer has one), or it has failed. */
  function Entered(payments: Payments, id: nat, tenant: nat, package: nat, push: Option<Option<nat>>,
      now: int): Payments {
    var row := Payment(tenant, package, NoCheckout, Pending, None, now);
    payments[id := match push
                   case None => row.(status := Failed)
                   case Some(None) => row
                   case Some(Some(checkout)) => row.(checkout := Daraja(checkout))]
  }

  datatype Row = Row(id: nat, tenant: nat, checkout: nat)

  /** One row of the poller; no answer means still processing, or a failed query. */
  function PollOne(payments: Payments, row: Row, answer: Option<bool>, tail: nat): (Payments, Option<Job>) {
    match answer
    case None => (payments, None)
    case Some(false) => (FailPending(payments, row.id), None)
    case Some(true) =>
      match ConfirmPending(payments, row.id, Polled(tail))
      case Ok(after) => (after, Some(Job(row.id, row.tenant, 1)))
      case Err(_) => (payments, None)
  }

  function Jobs(job: Option<Job>): seq<Job> {
    if job.Some? then [job.value] else []
  }

  function PollAll(payments: Payments, rows: seq<Row>, answers: map<nat, bool>, tail: nat -> nat)
    : (Payments, seq<Job>) {
    if rows == [] then (payments, [])
    else
      var n := |rows| - 1;
      var (before, jobs) := PollAll(payments, rows[..n], answers, tail);
      var answer := if rows[n].checkout in answers then Some(answers[rows[n].checkout]) else None;
      var (after, job) := PollOne(before, rows[n], answer, tail(rows[n].checkout));
      (after, jobs + Jobs(job))
  }

  /** The poller's answer for a row. */
  function AnswerFor(row: Row, answers: map<nat, bool>): Option<bool> {
    if row.checkout in answers then Some(answers[row.checkout]) else None
  }

  lemma PolledOthers(payments: Payments, rows: seq<Row>, answers: map<nat, bool>, tail: nat -> nat, id: nat)
    requires forall i :: 0 <= i < |rows| ==> rows[i].id != id
    ensures var after := PollAll(payments, rows, answers, tail).0;
            (id in after <==> id in payments) && (id in payments ==> after[id] == payments[id])
  {
    if rows != [] {
      PolledOthers(payments, rows[..|rows| - 1], answers, tail, id);
    }
  }

  /** A receipt that nobody else holds, and that no row of the pass can bring, is held by nobody else after it. */
  lemma {:induction false} PolledReceipt(payments: Payments, rows: seq<Row>, answers: map<nat, bool>, tail: nat -> nat,
      id: nat, digits: nat)
    requires !ReceiptTaken(payments, id, Polled(digits))
    requires forall i :: 0 <= i < |rows| ==> tail(rows[i].checkout) != digits
    ensures !ReceiptTaken(PollAll(payments, rows, answers, tail).0, id, Polled(digits))
  {
    if rows != [] {
      PolledReceipt(payments, rows[..|rows| - 1], answers, tail, id, digits);
    }
  }

  lemma PolledRow(payments: Payments, rows: seq<Row>, answers: map<nat, bool>, tail: nat -> nat)
    requires rows != [] && rows[|rows| - 1].id in payments && payments[rows[|rows| - 1].id].status == Pending
    requires forall j :: 0 <= j < |rows| - 1 ==>
               rows[j].id != rows[|rows| - 1].id && tail(rows[j].checkout) != tail(rows[|rows| - 1].checkout)
    requires !ReceiptTaken(payments, rows[|rows| - 1].id, Polled(tail(rows[|rows| - 1].checkout)))
    ensures var row := rows[|rows| - 1];
            var was, answer := payments[row.id], AnswerFor(row, answers);
            var (after, jobs) := PollAll(payments, rows, answers, tail);
            && row.id in after
            && after[row.id] == (if answer == None then was else if answer == Some(false) then was.(status := Failed)
                                 else was.(status := Confirmed, receipt := Some(Polled(tail(row.checkout)))))
            && (answer == Some(true) ==> Job(row.id, row.tenant, 1) in jobs)
  {
    var n := |rows| - 1;
    var row := rows[n];
    PolledOthers(payments, rows[..n], answers, tail, row.id);
    PolledReceipt(payments, rows[..n], answers, tail, row.id, tail(row.checkout));
    var (before, jobs) := PollAll(payments, rows[..n], answers, tail);
    var (after, job) := PollOne(before, row, AnswerFor(row, answers), tail(row.checkout));
    assert PollAll(payments, rows, answers, tail) == (after, jobs + Jobs(job));
    assert AnswerFor(row, answers) == Some(true) ==> Job(row.id, row.tenant, 1) in Jobs(job);
  }

  /**
   A pass of the poller over distinct rows: a pending one whose receipt nobody holds or shares ends as it was answered,
   and a confirmed one has its job.
   */
  lemma {:induction false} PollAllMeans(payments: Payments, rows: seq<Row>, answers: map<nat, bool>, tail: nat -> nat,
      i: nat)
    requires i < |rows| && rows[i].id in payments && payments[rows[i].id].status == Pending
    requires forall j, k :: 0 <= j < k < |rows| ==> rows[j].id != rows[k].id
    requires forall j :: 0 <= j < |rows| && j != i ==> tail(rows[j].checkout) != tail(rows[i].checkout)
    requires !ReceiptTaken(payments, rows[i].id, Polled(tail(rows[i].checkout)))
    ensures var row := rows[i];
            var was, answer := payments[row.id], AnswerFor(row, answers);
            var (after, jobs) := PollAll(payments, rows, answers, tail);
            && row.id in after
            && after[row.id] == (if answer == None then was else if answer == Some(false) then was.(status := Failed)
                                 else was.(status := Confirmed, receipt := Some(Polled(tail(row.checkout)))))
            && (answer == Some(true) ==> Job(row.id, row.tenant, 1) in jobs)
    decreases |rows|
  {
    var n := |rows| - 1;
    if i == n {
      PolledRow(payments, rows, answers, tail);
    } else {
      PollAllMeans(payments, rows[..n], answers, tail, i);
    }
  }

  datatype TaskResult = Aborted | Issued(code: nat) | RetryIn(delay: int) | GaveUp

  /** One try of the voucher job; `down` is an infrastructure failure before the INSERT. */
  function RunJob(packages: map<nat, nat>, payments: Payments, vouchers: Vouchers, job: Job, code: nat, down: bool)
    : (r: (Vouchers, TaskResult))
    requires 1 <= job.tries
  {
    var failed := if job.tries >= MAX_TRIES then GaveUp else RetryIn(DELAYS[job.tries - 1]);
    if !Owned(payments, job.payment, job.tenant) then (vouchers, Aborted)
    else if down || !Sellable(payments, packages, job.payment, job.tenant) then (vouchers, failed)
    else
      match InsertVoucher(vouchers, job.payment, job.tenant, payments[job.payment].package, code)
      case Ok(after) => (after, Issued(code))
      case Err(_) => (vouchers, failed)
  }

  /** A SELECT without ORDER BY: every matching id once, in some order. */
  ghost predicate Selects(rows: seq<nat>, ids: set<nat>) {
    && (forall i, j :: 0 <= i < j < |rows| ==> rows[i] != rows[j])
    && (forall id :: id in ids <==> id in rows)
  }

  method Select(ids: set<nat>) returns (rows: seq<nat>)
    ensures Selects(rows, ids)
  {
    rows := [];
    var rest := ids;
    while rest != {}
      invariant rest <= ids
      invariant forall i, j :: 0 <= i < j < |rows| ==> rows[i] != rows[j]
      invariant forall id :: id in ids <==> id in rows || id in rest
      invariant forall id :: id in rows ==> id !in rest
    {
      var id :| id in rest;
      rows := rows + [id];
      rest := rest - {id};
    }
  }

  class Database {
    const packages: map<nat, nat>
    var payments: Payments
    var vouchers: Vouchers
    var queue: seq<Job>

    constructor (packages: map<nat, nat>)
      ensures this.packages == packages && payments == map[] && vouchers == map[] && queue == []
    {
      this.packages := packages;
      payments, vouchers, queue := map[], map[], [];
    }

    /** `initiate_stk_push`, and the captive portal's like it; `push` is Daraja's answer, if it gave one. */
    method InitiateStkPush(id: nat, tenant: nat, package: nat, active: bool, push: Option<Option<nat>>, now: int)
      returns (r: Result<(), InitiateError>)
      requires id !in payments
      modifies this`payments
      ensures r == if package !in packages || packages[package] != tenant then Err(PackageNotFound)
                   else if !active then Err(PackageInactive)
                   else if push.None? then Err(PushRefused) else Ok(())
      ensures payments == if r == Err(PackageNotFound) || r == Err(PackageInactive) then old(payments)
                          else Entered(old(payments), id, tenant, package, push, now)
      ensures r == Ok(()) || r == Err(PushRefused) ==>
                payments == old(payments)[id :=
                  if push.None? then Payment(tenant, package, NoCheckout, Failed, None, now)
                  else if push.value.None? then Payment(tenant, package, NoCheckout, Pending, None, now)
                  else Payment(tenant, package, Daraja(push.value.value), Pending, None, now)]
    {
      if package !in packages || packages[package] != tenant { return Err(PackageNotFound); }
      if !active { return Err(PackageInactive); }
      var before := payments;
      payments := payments[id := Payment(tenant, package, NoCheckout, Pending, None, now)];
      match push
      case None =>
        payments := SetStatus(payments, id, Failed);
        r := Err(PushRefused);
      case Some(checkout) =>
        if checkout.Some? {
          payments := payments[id := payments[id].(checkout := Daraja(checkout.value))];
        }
        r := Ok(());
      assert payments == Entered(before, id, tenant, package, push, now);
    }

    /** The admin's list: this tenant's confirmed payments, older than two minutes, without a voucher, newest first. */
    method GetStuckPayments(tenant: nat, now: int) returns (rows: seq<nat>)
      ensures Selects(rows, set id | id in payments && payments[id].tenant == tenant
              && Reconcilable(payments, vouchers, id, now))
      ensures forall id :: id in rows <==>
                && id in payments && payments[id].tenant == tenant && payments[id].status == Confirmed
                && payments[id].createdAt < now - 120
                && !(id in vouchers && vouchers[id].tenant == tenant)
      ensures forall i :: 0 <= i < |rows| ==> rows[i] in payments
      ensures forall i, j :: 0 <= i < j < |rows| ==> payments[rows[i]].createdAt >= payments[rows[j]].createdAt
    {
      rows := NewestFirst(set id | id in payments && payments[id].tenant == tenant
        && Reconcilable(payments, vouchers, id, now));
    }

    /** `ORDER BY created_at DESC`. */
    method NewestFirst(ids: set<nat>) returns (rows: seq<nat>)
      requires ids <= payments.Keys
      ensures Selects(rows, ids) && forall i :: 0 <= i < |rows| ==> rows[i] in payments
      ensures forall i, j :: 0 <= i < j < |rows| ==> payments[rows[i]].createdAt >= payments[rows[j]].createdAt
    {
      rows := [];
      var rest := ids;
      while rest != {}
        invariant rest <= ids
        invariant forall i, j :: 0 <= i < j < |rows| ==> rows[i] != rows[j]
        invariant forall id :: id in ids <==> id in rows || id in rest
        invariant forall i :: 0 <= i < |rows| ==> rows[i] in payments && rows[i] !in rest
        invariant forall i, j :: 0 <= i < j < |rows| ==> payments[rows[i]].createdAt >= payments[rows[j]].createdAt
        invariant forall i, id :: 0 <= i < |rows| && id in rest ==>
            payments[rows[i]].createdAt >= payments[id].createdAt
      {
        ghost var newest := Newest(payments, rest);
        var id :| id in rest && forall other :: other in rest ==> payments[id].createdAt >= payments[other].createdAt;
        rows := rows + [id];
        rest := rest - {id};
      }
    }

    method ProcessDarajaWebhook(checkout: nat, resultCode: int, sent: Option<Receipt>)
      requires CheckoutsDistinct(payments)
      modifies this`payments, this`queue
      ensures (forall id :: id in old(payments) ==> old(payments)[id].checkout != Daraja(checkout)) ==>
                payments == old(payments) && queue == old(queue)
      ensures forall id :: id in old(payments) && old(payments)[id].checkout == Daraja(checkout) ==>
                var (after, job) := Webhook(old(payments), id, resultCode == 0, sent);
                payments == after && queue == old(queue) + Jobs(job)
      ensures forall id :: id in old(payments) && old(payments)[id].checkout == Daraja(checkout) ==>
                var row := old(payments)[id];
                var held := exists other ::
                  other in old(payments) && other != id && sent.Some? && old(payments)[other].receipt == sent;
                if row.status != Pending || (resultCode == 0 && (sent.None? || held)) then
                  payments == old(payments) && queue == old(queue)
                else if resultCode != 0 then
                  payments == old(payments)[id := row.(status := Failed)] && queue == old(queue)
                else
                  && payments == old(payments)[id := row.(status := Confirmed, receipt := sent)]
                  && queue == old(queue) + [Job(id, row.tenant, 1)]
    {
      var matching := set id | id in payments && payments[id].checkout == Daraja(checkout);
      assert forall id :: id in payments && payments[id].checkout == Daraja(checkout) ==> id in matching;
      if matching == {} {
        return;
      }
      var id :| id in matching;
      assert forall other :: other in matching ==> other == id;
      var tenant := payments[id].tenant;
      if payments[id].status != Pending {
        return;
      }
      if resultCode != 0 {
        payments := FailOwned(payments, id, tenant);
        return;
      }
      if sent.None? {
        return;
      }
      match ConfirmOwned(payments, id, tenant, sent.value)
      case Ok(after) =>
        payments := after;
        queue := queue + [Job(id, tenant, 1)];
      case Err(_) =>
    }

    /** The poller's SELECT, copied into a list of rows before the first query. */
    method FetchPending(now: int) returns (rows: seq<Row>)
      requires forall id :: id in payments && payments[id].checkout.WalletRef? ==> payments[id].status == Confirmed
      ensures forall i, j :: 0 <= i < j < |rows| ==> rows[i].id != rows[j].id
      ensures forall id :: Pollable(payments, id, now) <==> exists i :: 0 <= i < |rows| && rows[i].id == id
      ensures forall id :: id in payments ==>
                (payments[id].status == Pending && payments[id].checkout != NoCheckout
                 && now - 7200 < payments[id].createdAt < now - 120
                 <==> exists i :: 0 <= i < |rows| && rows[i].id == id)
      ensures forall row :: row in rows ==>
                && row.id in payments && payments[row.id].tenant == row.tenant
                && payments[row.id].checkout == Daraja(row.checkout)
    {
      var table := payments;
      var pending := set id | id in table && Pollable(table, id, now);
      var ids := Select(pending);
      assert forall i :: 0 <= i < |ids| ==> ids[i] in pending;
      rows := seq(|ids|, i requires 0 <= i < |ids| && ids[i] in pending =>
                           Row(ids[i], table[ids[i]].tenant, table[ids[i]].checkout.id));
      forall id ensures Pollable(table, id, now) <==> exists i :: 0 <= i < |rows| && rows[i].id == id {
        if Pollable(table, id, now) {
          assert id in pending && id in ids;
          var i :| 0 <= i < |ids| && ids[i] == id;
          assert rows[i].id == id;
        }
      }
      forall id | id in payments
        ensures payments[id].status == Pending && payments[id].checkout != NoCheckout
                && now - 7200 < payments[id].createdAt < now - 120
                <==> exists i :: 0 <= i < |rows| && rows[i].id == id
      {
        assert Pollable(table, id, now) <==> exists i :: 0 <= i < |rows| && rows[i].id == id;
      }
    }

    /** The poller's turn on one row; no answer means still processing, or a failed query. */
    method PollRow(row: Row, answer: Option<bool>, tail: nat)
      modifies this`payments, this`queue
      ensures var (after, job) := PollOne(old(payments), row, answer, tail);
              payments == after && queue == old(queue) + Jobs(job)
      ensures answer.None? ==> payments == old(payments) && queue == old(queue)
      ensures row.id in old(payments) && old(payments)[row.id].status == Pending ==>
                var was := old(payments)[row.id];
                var held := exists other ::
                  other in old(payments) && other != row.id && old(payments)[other].receipt == Some(Polled(tail));
                match answer
                case None => true
                case Some(false) => payments == old(payments)[row.id := was.(status := Failed)] && queue == old(queue)
                case Some(true) =>
                  if held then payments == old(payments) && queue == old(queue)
                  else
                    && payments == old(payments)[row.id := was.(status := Confirmed, receipt := Some(Polled(tail)))]
                    && queue == old(queue) + [Job(row.id, row.tenant, 1)]
      ensures row.id in old(payments) && old(payments)[row.id].status != Pending ==>
                && payments == old(payments)
                && queue == old(queue) + (if answer == Some(true) then [Job(row.id, row.tenant, 1)] else [])
    {
      if answer.Some? {
        if answer.value {
          match ConfirmPending(payments, row.id, Polled(tail))
          case Ok(after) =>
            payments := after;
            queue := queue + [Job(row.id, row.tenant, 1)];
          case Err(_) =>
        } else {
          payments := FailPending(payments, row.id);
        }
      }
    }

    /** The rows it has read are worked off one by one. */
    method PollRows(rows: seq<Row>, answers: map<nat, bool>, tail: nat -> nat)
      modifies this`payments, this`queue
      ensures var (after, jobs) := PollAll(old(payments), rows, answers, tail);
              payments == after && queue == old(queue) + jobs
    {
      var i := 0;
      ghost var jobs := [];
      while i < |rows|
        invariant 0 <= i <= |rows|
        invariant (payments, jobs) == PollAll(old(payments), rows[..i], answers, tail)
        invariant queue == old(queue) + jobs
      {
        var row := rows[i];
        assert rows[..i + 1][..i] == rows[..i] && rows[..i + 1][i] == row;
        var answer := if row.checkout in answers then Some(answers[row.checkout]) else None;
        ghost var (after', job) := PollOne(payments, row, answer, tail(row.checkout));
        assert PollAll(old(payments), rows[..i + 1], answers, tail) == (after', jobs + Jobs(job));
        PollRow(row, answer, tail(row.checkout));
        jobs := jobs + Jobs(job);
        i := i + 1;
      }
      assert rows[..|rows|] == rows;
    }

    method PollPendingDarajaPaymentsCron(now: int, answers: map<nat, bool>, tail: nat -> nat) returns (rows: seq<Row>)
      requires forall id :: id in payments && payments[id].checkout.WalletRef? ==> payments[id].status == Confirmed
      modifies this`payments, this`queue
      ensures forall id :: Pollable(old(payments), id, now) <==> exists i :: 0 <= i < |rows| && rows[i].id == id
      ensures forall id :: id in old(payments) ==>
                (old(payments)[id].status == Pending && old(payments)[id].checkout != NoCheckout
                 && now - 7200 < old(payments)[id].createdAt < now - 120
                 <==> exists i :: 0 <= i < |rows| && rows[i].id == id)
      ensures forall i, j :: 0 <= i < j < |rows| ==> rows[i].id != rows[j].id
      ensures var (after, jobs) := PollAll(old(payments), rows, answers, tail);
              payments == after && queue == old(queue) + jobs
      ensures forall id :: id in old(payments) && (forall i :: 0 <= i < |rows| ==> rows[i].id != id) ==>
                id in payments && payments[id] == old(payments)[id]
      ensures forall i ::
                (&& 0 <= i < |rows|
                 && (forall j :: 0 <= j < |rows| && j != i ==> tail(rows[j].checkout) != tail(rows[i].checkout))
                 && forall other :: other in old(payments) && other != rows[i].id ==>
                      old(payments)[other].receipt != Some(Polled(tail(rows[i].checkout))))
                ==> AsAnswered(old(payments), rows[i], answers, tail(rows[i].checkout))
    {
      rows := FetchPending(now);
      PollRows(rows, answers, tail);
      ghost var before := old(payments);
      forall id | id in before && forall i :: 0 <= i < |rows| ==> rows[i].id != id {
        PolledOthers(before, rows, answers, tail, id);
      }
      forall i: nat |
        (&& i < |rows|
         && (forall j :: 0 <= j < |rows| && j != i ==> tail(rows[j].checkout) != tail(rows[i].checkout))
         && forall other :: other in before && other != rows[i].id ==>
              before[other].receipt != Some(Polled(tail(rows[i].checkout))))
        ensures AsAnswered(before, rows[i], answers, tail(rows[i].checkout))
      {
        PollAllMeans(before, rows, answers, tail, i);
      }
    }

    /** Left alone, failed, or confirmed with its receipt and its first job queued. */
    ghost predicate AsAnswered(before: Payments, row: Row, answers: map<nat, bool>, tail: nat)
      reads this
    {
      && row.id in before && row.id in payments
      && (if row.checkout !in answers then payments[row.id] == before[row.id]
          else if !answers[row.checkout] then payments[row.id] == before[row.id].(status := Failed)
          else
            && payments[row.id] == before[row.id].(status := Confirmed, receipt := Some(Polled(tail)))
            && Job(row.id, before[row.id].tenant, 1) in queue)
    }

    method ReconcilePaymentsCron(now: int) returns (rows: seq<nat>)
      modifies this`queue
      ensures Selects(rows, set id | id in payments && Reconcilable(payments, vouchers, id, now))
      ensures forall id :: id in rows <==>
                && id in payments && payments[id].status == Confirmed && payments[id].createdAt < now - 120
                && !(id in vouchers && vouchers[id].tenant == payments[id].tenant)
      ensures |queue| == |old(queue)| + |rows| && queue[..|old(queue)|] == old(queue)
      ensures forall i :: 0 <= i < |rows| ==>
                rows[i] in payments
                && queue[|old(queue)| + i] == Job(rows[i], payments[rows[i]].tenant, 1)
    {
      var stuck := set id | id in payments && Reconcilable(payments, vouchers, id, now);
      rows := Select(stuck);
      assert forall i :: 0 <= i < |rows| ==> rows[i] in stuck;
      var i := 0;
      while i < |rows|
        invariant 0 <= i <= |rows|
        invariant |queue| == |old(queue)| + i && queue[..|old(queue)|] == old(queue)
        invariant forall j :: 0 <= j < i ==> queue[|old(queue)| + j] == Job(rows[j], payments[rows[j]].tenant, 1)
      {
        queue := queue + [Job(rows[i], payments[rows[i]].tenant, 1)];
        i := i + 1;
      }
    }

    method GenerateVoucherTask(job: Job, code: nat, down: bool) returns (r: TaskResult)
      requires 1 <= job.tries
      modifies this`vouchers
      ensures (vouchers, r) == RunJob(packages, payments, old(vouchers), job, code, down)
      ensures var owned := job.payment in payments && payments[job.payment].tenant == job.tenant;
              var package := if owned then payments[job.payment].package else 0;
              var issues := owned && !down && package in packages && packages[package] == job.tenant
                            && job.payment !in old(vouchers)
                            && forall other :: other in old(vouchers) ==> old(vouchers)[other].code != code;
              && vouchers == (if issues then old(vouchers)[job.payment := Voucher(job.tenant, package, code)]
                              else old(vouchers))
              && r == if !owned then Aborted else if issues then Issued(code) else if job.tries >= 4 then GaveUp
                      else RetryIn(if job.tries == 1 then 5 else if job.tries == 2 then 15 else 45)
    {
      var isFinalAttempt := job.tries >= MAX_TRIES;
      if !Owned(payments, job.payment, job.tenant) {
        return Aborted;
      }
      var issued := false;
      if !down && Sellable(payments, packages, job.payment, job.tenant) {
        match InsertVoucher(vouchers, job.payment, job.tenant, payments[job.payment].package, code)
        case Ok(after) =>
          vouchers := after;
          issued := true;
        case Err(_) =>
      }
      if issued {
        return Issued(code);
      }
      if isFinalAttempt {
        return GaveUp;
      }
      return RetryIn(DELAYS[job.tries - 1]);
    }
  }

  lemma {:induction false} Newest(payments: Payments, ids: set<nat>) returns (newest: nat)
    requires ids != {} && ids <= payments.Keys
    ensures newest in ids && forall other :: other in ids ==> payments[newest].createdAt >= payments[other].createdAt
    decreases |ids|
  {
    newest :| newest in ids;
    var rest := ids - {newest};
    if rest != {} {
      var other := Newest(payments, rest);
      if payments[other].createdAt > payments[newest].createdAt { newest := other; }
    }
    forall other | other in ids ensures payments[newest].createdAt >= payments[other].createdAt {
      assert other in rest || other !in rest;
    }
  }

  // ---------------------------------------------------------------- an uninterrupted call is its steps

  /** Initiating a payment is the state machine's insert and answer steps run back to back. */
  lemma InitiateIsItsSteps(s: State, id: nat, tenant: nat, package: nat, push: Option<Option<nat>>)
    requires CanBuy(s, Initiate(id, tenant, package))
    ensures var inserted := Buying(s, Initiate(id, tenant, package)).payments;
            var waiting := s.(payments := inserted, tasks := s.tasks + multiset{PushStk(id)});
            match push
            case None =>
              CanBuy(waiting, PushFailed(id))
              && Buying(waiting, PushFailed(id)).payments == Entered(s.payments, id, tenant, package, push, s.now)
            case Some(answer) =>
              (answer.Some? ==> !CheckoutUsed(s.payments, Daraja(answer.value))) ==>
                CanBuy(waiting, PushAnswered(id, answer))
                && Buying(waiting, PushAnswered(id, answer)).payments ==
                  Entered(s.payments, id, tenant, package, push, s.now)
  {
  }

  /** The webhook handler is the state machine's read and write steps run back to back. */
  lemma WebhookIsItsSteps(env: Env, s: State, id: nat, checkout: nat, sent: Option<Receipt>)
    requires id in s.payments && s.payments[id].checkout == Daraja(checkout)
    ensures var (after, job) := Webhook(s.payments, id, env.outcome(checkout) == Accepted, sent);
            match HookDecide(env, s, id, checkout, sent)
            case None => after == s.payments && job.None?
            case Some(task) =>
              && task.HookWrite?
              && HookFinish(s, task).payments == after
              && HookFinish(s, task).next == (if job.Some? then Some(Enqueue(id, s.payments[id].tenant)) else None)
  {
  }

  /** The poller's row is the state machine's query and write steps run back to back. */
  lemma PollIsItsSteps(env: Env, s: State, row: Row)
    requires Owned(s.payments, row.id, row.tenant)
    ensures var ok := env.outcome(row.checkout) == Accepted;
            var (after, job) := PollOne(s.payments, row, Some(ok), env.tail(row.checkout));
            var effect := PollFinish(env, s, PollWrite(row.id, row.tenant, row.checkout, ok));
            && effect.payments == after
            && effect.next == (if job.Some? then Some(Enqueue(row.id, row.tenant)) else None)
  {
  }

  // ---------------------------------------------------------------- the reconciliation promise

  /** The vouchers after every queued job has had a try that meets no infrastructure failure. */
  function Drain(packages: map<nat, nat>, payments: Payments, vouchers: Vouchers, jobs: seq<Job>,
      codes: seq<nat>): Vouchers
    requires |codes| == |jobs| && forall job :: job in jobs ==> 1 <= job.tries
  {
    if jobs == [] then vouchers
    else
      var n := |jobs| - 1;
      RunJob(packages, payments, Drain(packages, payments, vouchers, jobs[..n], codes[..n]), jobs[n], codes[n], false).0
  }

  /** The codes drawn are new: different from one another and from every voucher's. */
  ghost predicate FreshCodes(vouchers: Vouchers, codes: seq<nat>) {
    && (forall i, j :: 0 <= i < j < |codes| ==> codes[i] != codes[j])
    && (forall code :: code in codes ==> !CodeTaken(vouchers, code))
  }

  ghost predicate TenantsAgree(payments: Payments, vouchers: Vouchers) {
    forall id :: id in vouchers ==> Owned(payments, id, vouchers[id].tenant)
  }

  /** What draining adds: nothing is lost, every new code is one of those drawn. */
  ghost predicate Extends(vouchers: Vouchers, after: Vouchers, codes: seq<nat>) {
    && (forall id :: id in vouchers ==> id in after && after[id] == vouchers[id])
    && (forall id :: id in after && id !in vouchers ==> after[id].code in codes)
  }

  lemma FreshAfter(vouchers: Vouchers, before: Vouchers, codes: seq<nat>)
    requires codes != [] && FreshCodes(vouchers, codes) && Extends(vouchers, before, codes[..|codes| - 1])
    ensures !CodeTaken(before, codes[|codes| - 1])
  {
    var n := |codes| - 1;
    forall id | id in before ensures before[id].code != codes[n] {
      if id in vouchers {
        assert codes[n] in codes && !CodeTaken(vouchers, codes[n]);
      } else {
        assert before[id].code in codes[..n];
      }
    }
  }

  lemma JobIssues(packages: map<nat, nat>, payments: Payments, before: Vouchers, job: Job, code: nat)
    requires 1 <= job.tries && TenantsAgree(payments, before) && !CodeTaken(before, code)
    ensures var after := RunJob(packages, payments, before, job, code, false).0;
            && TenantsAgree(payments, after) && Extends(before, after, [code])
            && (Sellable(payments, packages, job.payment, job.tenant) ==> job.payment in after)
  {
  }

  lemma {:induction false} DrainIssues(packages: map<nat, nat>, payments: Payments, vouchers: Vouchers,
      jobs: seq<Job>, codes: seq<nat>)
    requires |codes| == |jobs| && forall job :: job in jobs ==> 1 <= job.tries
    requires FreshCodes(vouchers, codes) && TenantsAgree(payments, vouchers)
    ensures var after := Drain(packages, payments, vouchers, jobs, codes);
            && TenantsAgree(payments, after) && Extends(vouchers, after, codes)
            && forall i :: 0 <= i < |jobs| && Sellable(payments, packages, jobs[i].payment, jobs[i].tenant) ==>
              jobs[i].payment in after
    decreases |jobs|
  {
    if jobs != [] {
      var n := |jobs| - 1;
      DrainIssues(packages, payments, vouchers, jobs[..n], codes[..n]);
      var before := Drain(packages, payments, vouchers, jobs[..n], codes[..n]);
      FreshAfter(vouchers, before, codes);
      JobIssues(packages, payments, before, jobs[n], codes[n]);
    }
  }

  /**
   In a consistent state, once the cron has put its jobs on the queue and every queued job has run without an
   infrastructure failure and nothing else happens, no payment it saw as confirmed and older than two minutes still
   lacks a voucher: duplicates of a job, in any order, do no harm. `Reconciliation` lets everything else happen.
   */
  lemma {:induction false} ReconciliationPromise(env: Env, s: State, now: int, jobs: seq<Job>, codes: seq<nat>)
    requires Inv(env, s) && |codes| == |jobs| && FreshCodes(s.vouchers, codes)
    requires forall job :: job in jobs ==> 1 <= job.tries
    requires forall id :: Reconcilable(s.payments, s.vouchers, id, now) ==>
               exists tries :: Job(id, s.payments[id].tenant, tries) in jobs
    ensures var after := Drain(s.packages, s.payments, s.vouchers, jobs, codes);
            forall id ::
              id in s.payments && s.payments[id].status == Confirmed
              && s.payments[id].createdAt < now - RECONCILE_AGE ==>
              id in after && after[id].tenant == s.payments[id].tenant
  {
    DrainIssues(s.packages, s.payments, s.vouchers, jobs, codes);
    forall id | id in s.payments && s.payments[id].status == Confirmed && s.payments[id].createdAt < now - RECONCILE_AGE
      ensures id in Drain(s.packages, s.payments, s.vouchers, jobs, codes)
    {
      if Reconcilable(s.payments, s.vouchers, id, now) {
        var tries :| Job(id, s.payments[id].tenant, tries) in jobs;
        assert Sellable(s.payments, s.packages, id, s.payments[id].tenant);
      }
    }
  }
}
