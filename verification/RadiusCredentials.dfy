/**
 Vouchers and their RADIUS rows. An operation is a list of SQL statements outside any
 transaction and may stop after any of them; operations run one at a time.
 */
module RadiusCredentials {
  import opened Common

  datatype Attribute = CleartextPassword | RateLimit | SessionTimeout | TotalLimit

  datatype Value = Code(code: nat) | Mbps(mbps: nat) | Number(n: nat)

  datatype RadRow = RadRow(username: nat, tenant: nat, attribute: Attribute, value: Value)

  /** The package fields a voucher is provisioned with. */
  datatype Plan = Plan(mbps: nat, minutes: nat, quotaMb: Option<nat>)

  datatype Status = Active | Used | Expired | Revoked | PendingProvision

  /** A `vouchers` row; `plan` remembers the package as it was when the voucher was provisioned. */
  datatype Voucher = Voucher(payment: nat, tenant: nat, code: nat, status: Status, expiresAt: Option<int>, plan: Plan)

  datatype Db = Db(vouchers: map<nat, Voucher>, radcheck: seq<RadRow>, radreply: seq<RadRow>)

  datatype Stmt =
    | DeleteCheck(code: nat, tenant: nat)
    | DeleteReply(code: nat, tenant: nat)
    | InsertCheck(row: RadRow)
    | InsertReply(row: RadRow)
    | InsertVoucher(id: nat, voucher: Voucher)
    | MarkRevoked(id: nat, tenant: nat)
    | MarkActive(id: nat, tenant: nat, plan: Plan)
    | MarkExpired(now: int)
    | SetExpiry(id: nat, expiresAt: int)

  /** The rows of one user of one tenant, in table order. */
  function Rows(table: seq<RadRow>, code: nat, tenant: nat): seq<RadRow> {
    if table == [] then []
    else
      var n := |table| - 1;
      Rows(table[..n], code, tenant)
      + (if table[n].username == code && table[n].tenant == tenant then [table[n]] else [])
  }

  /** `DELETE ... WHERE username = code AND tenant_id = tenant`. */
  function Delete(table: seq<RadRow>, code: nat, tenant: nat): seq<RadRow> {
    if table == [] then []
    else
      var n := |table| - 1;
      Delete(table[..n], code, tenant)
      + (if table[n].username == code && table[n].tenant == tenant then [] else [table[n]])
  }

  /** `status IN ('active', 'used') AND expires_at <= NOW()`. */
  predicate Due(v: Voucher, now: int) {
    (v.status == Active || v.status == Used) && v.expiresAt.Some? && v.expiresAt.value <= now
  }

  predicate PaymentUsed(vouchers: map<nat, Voucher>, payment: nat) {
    exists id :: id in vouchers && vouchers[id].payment == payment
  }

  function Exec(db: Db, stmt: Stmt): Db {
    match stmt
    case DeleteCheck(code, tenant) => db.(radcheck := Delete(db.radcheck, code, tenant))
    case DeleteReply(code, tenant) => db.(radreply := Delete(db.radreply, code, tenant))
    case InsertCheck(row) => db.(radcheck := db.radcheck + [row])
    case InsertReply(row) => db.(radreply := db.radreply + [row])
    case InsertVoucher(id, voucher) =>
      // payment_id is UNIQUE: a second voucher for a payment is refused
      if PaymentUsed(db.vouchers, voucher.payment) then db else db.(vouchers := db.vouchers[id := voucher])
    case MarkRevoked(id, tenant) =>
      if id in db.vouchers && db.vouchers[id].tenant == tenant
      then db.(vouchers := db.vouchers[id := db.vouchers[id].(status := Revoked)]) else db
    case MarkActive(id, tenant, plan) =>
      if id in db.vouchers && db.vouchers[id].tenant == tenant
      then db.(vouchers := db.vouchers[id := db.vouchers[id].(status := Active, plan := plan)]) else db
    case MarkExpired(now) =>
      db.(vouchers := map id | id in db.vouchers ::
            if Due(db.vouchers[id], now) then db.vouchers[id].(status := Expired) else db.vouchers[id])
    case SetExpiry(id, expiresAt) =>
      if Unstarted(db.vouchers, id)
      then db.(vouchers := db.vouchers[id := db.vouchers[id].(expiresAt := Some(expiresAt))]) else db
  }

  /** A voucher's life begins with its first session and is set once. */
  predicate Unstarted(vouchers: map<nat, Voucher>, id: nat) {
    id in vouchers && vouchers[id].expiresAt.None?
  }

  function ExecAll(db: Db, stmts: seq<Stmt>): Db {
    if stmts == [] then db else Exec(ExecAll(db, stmts[..|stmts| - 1]), stmts[|stmts| - 1])
  }

  // ---------------------------------------------------------------- the operations

  function PasswordRows(code: nat, tenant: nat): seq<RadRow> {
    [RadRow(code, tenant, CleartextPassword, Code(code))]
  }

  /** `if data_quota_mb`: a quota of zero counts as none. */
  function QuotaRows(code: nat, tenant: nat, plan: Plan): seq<RadRow> {
    if plan.quotaMb.Some? && plan.quotaMb.value != 0
    then [RadRow(code, tenant, TotalLimit, Number(plan.quotaMb.value * 1024 * 1024))] else []
  }

  function ReplyRows(code: nat, tenant: nat, plan: Plan): seq<RadRow> {
    [RadRow(code, tenant, RateLimit, Mbps(plan.mbps)), RadRow(code, tenant, SessionTimeout, Number(plan.minutes * 60))]
    + QuotaRows(code, tenant, plan)
  }

  function Inserts(rows: seq<RadRow>): (stmts: seq<Stmt>)
    ensures |stmts| == |rows| && forall i :: 0 <= i < |rows| ==> stmts[i] == InsertReply(rows[i])
  {
    if rows == [] then [] else Inserts(rows[..|rows| - 1]) + [InsertReply(rows[|rows| - 1])]
  }

  /** `_provision_radius_credentials`. */
  function Provision(code: nat, tenant: nat, plan: Plan): seq<Stmt> {
    [DeleteCheck(code, tenant), DeleteReply(code, tenant), InsertCheck(PasswordRows(code, tenant)[0])]
    + Inserts(ReplyRows(code, tenant, plan))
  }

  /**
   `due` lists what `MarkExpired` returned, in some order; `Activate` is one voucher's part of the `UPDATE` that starts
   vouchers from their first session.
   */
  datatype Op =
    | Generate(id: nat, payment: nat, code: nat, tenant: nat, plan: Plan)
    | Revoke(id: nat, tenant: nat)
    | RetryProvision(id: nat, tenant: nat, plan: Plan)
    | Expire(now: int, due: seq<nat>)
    | Activate(id: nat, expiresAt: int)

  function Cleanup(vouchers: map<nat, Voucher>, due: seq<nat>): seq<Stmt>
    requires forall id :: id in due ==> id in vouchers
  {
    if due == [] then []
    else
      var v := vouchers[due[|due| - 1]];
      Cleanup(vouchers, due[..|due| - 1]) + [DeleteCheck(v.code, v.tenant), DeleteReply(v.code, v.tenant)]
  }

  predicate Enabled(db: Db, op: Op) {
    match op
    case Generate(id, _, code, _, _) =>
      id !in db.vouchers && forall other :: other in db.vouchers ==> db.vouchers[other].code != code
    case Expire(now, due) =>
      && (forall id :: id in due ==> id in db.vouchers && Due(db.vouchers[id], now))
      && (forall id :: id in db.vouchers && Due(db.vouchers[id], now) ==> id in due)
    case _ => true
  }

  /** The statements an operation runs; a refused one (404, or not pending) runs none. */
  function Script(db: Db, op: Op): seq<Stmt>
    requires Enabled(db, op)
  {
    match op
    case Generate(id, payment, code, tenant, plan) =>
      Provision(code, tenant, plan) + [InsertVoucher(id, Voucher(payment, tenant, code, Active, None, plan))]
    case Revoke(id, tenant) =>
      if id !in db.vouchers || db.vouchers[id].tenant != tenant then []
      else
        var code := db.vouchers[id].code;
        [MarkRevoked(id, tenant), DeleteCheck(code, tenant), DeleteReply(code, tenant)]
    case RetryProvision(id, tenant, plan) =>
      if id !in db.vouchers || db.vouchers[id].tenant != tenant || db.vouchers[id].status != PendingProvision then []
      else Provision(db.vouchers[id].code, tenant, plan) + [MarkActive(id, tenant, plan)]
    case Expire(now, due) => [MarkExpired(now)] + Cleanup(db.vouchers, due)
    case Activate(id, expiresAt) => [SetExpiry(id, expiresAt)]
  }

  /** The operation stopped after `k` statements. */
  function Stopped(db: Db, op: Op, k: nat): Db
    requires Enabled(db, op) && k <= |Script(db, op)|
  {
    ExecAll(db, Script(db, op)[..k])
  }

  // ---------------------------------------------------------------- the invariant

  ghost predicate CodesDistinct(vouchers: map<nat, Voucher>) {
    forall i, j :: i in vouchers && j in vouchers && i != j ==> vouchers[i].code != vouchers[j].code
  }

  /** Exactly the password row, the rate and timeout rows, and a quota row iff the plan has a quota. */
  ghost predicate Complete(db: Db, code: nat, tenant: nat, plan: Plan) {
    && Rows(db.radcheck, code, tenant) == PasswordRows(code, tenant)
    && Rows(db.radreply, code, tenant) == ReplyRows(code, tenant, plan)
  }

  /** The same written out: the password is the code itself, and the limits are the plan's. */
  lemma CompleteExactly(db: Db, code: nat, tenant: nat, plan: Plan)
    ensures Complete(db, code, tenant, plan) <==>
              && Rows(db.radcheck, code, tenant) == [RadRow(code, tenant, CleartextPassword, Code(code))]
              && Rows(db.radreply, code, tenant)
                 == [RadRow(code, tenant, RateLimit, Mbps(plan.mbps)),
                     RadRow(code, tenant, SessionTimeout, Number(60 * plan.minutes))]
                    + (if plan.quotaMb.Some? && plan.quotaMb.value != 0
                       then [RadRow(code, tenant, TotalLimit, Number(1_048_576 * plan.quotaMb.value))] else [])
  {
  }

  /** A user's rows are all those of the table that have the name and the tenant, as often as they are there. */
  lemma {:induction false} RowsExactly(table: seq<RadRow>, code: nat, tenant: nat, row: RadRow)
    ensures multiset(Rows(table, code, tenant))[row]
            == if row.username == code && row.tenant == tenant then multiset(table)[row] else 0
  {
    if table != [] {
      var n := |table| - 1;
      RowsExactly(table[..n], code, tenant, row);
      assert table == table[..n] + [table[n]];
    }
  }

  ghost predicate ActiveComplete(db: Db) {
    forall id :: id in db.vouchers && db.vouchers[id].status == Active ==>
      Complete(db, db.vouchers[id].code, db.vouchers[id].tenant, db.vouchers[id].plan)
  }

  ghost predicate Inv(db: Db) {
    CodesDistinct(db.vouchers) && ActiveComplete(db)
  }

  // ---------------------------------------------------------------- one statement

  lemma InsertedRows(table: seq<RadRow>, row: RadRow, c: nat, t: nat)
    ensures Rows(table + [row], c, t) ==
            Rows(table, c, t) + (if row.username == c && row.tenant == t then [row] else [])
  {
    assert (table + [row])[..|table|] == table;
  }

  lemma {:induction false} DeletedRows(table: seq<RadRow>, code: nat, tenant: nat, c: nat, t: nat)
    ensures Rows(Delete(table, code, tenant), c, t) == if c == code && t == tenant then [] else Rows(table, c, t)
    decreases |table|
  {
    if table != [] {
      var first, row := table[..|table| - 1], table[|table| - 1];
      var kept := Delete(first, code, tenant);
      DeletedRows(first, code, tenant, c, t);
      assert table == first + [row];
      InsertedRows(first, row, c, t);
      if row.username == code && row.tenant == tenant {
        assert Delete(table, code, tenant) == kept;
      } else {
        assert Delete(table, code, tenant) == kept + [row];
        InsertedRows(kept, row, c, t);
      }
    }
  }

  /** A statement that only writes RADIUS rows of this user. */
  predicate About(stmt: Stmt, code: nat, tenant: nat) {
    match stmt
    case DeleteCheck(c, t) => c == code && t == tenant
    case DeleteReply(c, t) => c == code && t == tenant
    case InsertCheck(row) => row.username == code && row.tenant == tenant
    case InsertReply(row) => row.username == code && row.tenant == tenant
    case _ => false
  }

  ghost predicate SameElsewhere(before: Db, after: Db, code: nat, tenant: nat) {
    && after.vouchers == before.vouchers
    && forall c: nat, t: nat :: (c, t) != (code, tenant) ==>
         Rows(after.radcheck, c, t) == Rows(before.radcheck, c, t)
           && Rows(after.radreply, c, t) == Rows(before.radreply, c, t)
  }

  lemma AboutKeepsOthers(db: Db, stmt: Stmt, code: nat, tenant: nat)
    requires About(stmt, code, tenant)
    ensures SameElsewhere(db, Exec(db, stmt), code, tenant)
  {
    var after := Exec(db, stmt);
    forall c: nat, t: nat | (c, t) != (code, tenant)
      ensures Rows(after.radcheck, c, t) == Rows(db.radcheck, c, t)
              && Rows(after.radreply, c, t) == Rows(db.radreply, c, t)
    {
      DeletedRows(db.radcheck, code, tenant, c, t);
      DeletedRows(db.radreply, code, tenant, c, t);
      if stmt.InsertCheck? || stmt.InsertReply? {
        InsertedRows(db.radcheck, stmt.row, c, t);
        InsertedRows(db.radreply, stmt.row, c, t);
      }
    }
  }

  lemma {:induction false} ScriptKeepsOthers(db: Db, stmts: seq<Stmt>, code: nat, tenant: nat)
    requires forall stmt :: stmt in stmts ==> About(stmt, code, tenant)
    ensures SameElsewhere(db, ExecAll(db, stmts), code, tenant)
  {
    if stmts != [] {
      var n := |stmts| - 1;
      ScriptKeepsOthers(db, stmts[..n], code, tenant);
      AboutKeepsOthers(ExecAll(db, stmts[..n]), stmts[n], code, tenant);
    }
  }

  /** Rewriting the rows of a user with no active voucher breaks no active voucher. */
  lemma InvElsewhere(before: Db, after: Db, code: nat, tenant: nat)
    requires Inv(before) && SameElsewhere(before, after, code, tenant)
    requires forall id :: id in before.vouchers && before.vouchers[id].status == Active ==>
             before.vouchers[id].code != code
    ensures Inv(after)
  {
  }

  // ---------------------------------------------------------------- provisioning

  lemma {:induction false} InsertReplies(db: Db, rows: seq<RadRow>, code: nat, tenant: nat)
    requires forall row :: row in rows ==> row.username == code && row.tenant == tenant
    ensures var after := ExecAll(db, Inserts(rows));
            after.radcheck == db.radcheck
            && Rows(after.radreply, code, tenant) == Rows(db.radreply, code, tenant) + rows
  {
    if rows != [] {
      var n := |rows| - 1;
      var before := ExecAll(db, Inserts(rows[..n]));
      InsertReplies(db, rows[..n], code, tenant);
      assert Inserts(rows) == Inserts(rows[..n]) + [InsertReply(rows[n])];
      ExecSnoc(db, Inserts(rows[..n]), InsertReply(rows[n]));
      InsertedRows(before.radreply, rows[n], code, tenant);
      OneMore(Rows(db.radreply, code, tenant), rows, n);
    }
  }

  lemma OneMore(table: seq<RadRow>, rows: seq<RadRow>, n: nat)
    requires n == |rows| - 1
    ensures table + rows[..n] + [rows[n]] == table + rows
  {
  }

  lemma ExecSnoc(db: Db, stmts: seq<Stmt>, stmt: Stmt)
    ensures ExecAll(db, stmts + [stmt]) == Exec(ExecAll(db, stmts), stmt)
  {
    assert (stmts + [stmt])[..|stmts|] == stmts;
  }

  lemma {:induction false} ExecAppend(db: Db, a: seq<Stmt>, b: seq<Stmt>)
    ensures ExecAll(db, a + b) == ExecAll(ExecAll(db, a), b)
    decreases |b|
  {
    if b == [] {
      assert a + b == a;
    } else {
      var first, last := b[..|b| - 1], b[|b| - 1];
      assert b == first + [last] && a + b == (a + first) + [last];
      ExecAppend(db, a, first);
      ExecSnoc(db, a + first, last);
      ExecSnoc(ExecAll(db, a), first, last);
    }
  }

  lemma ExecTwo(db: Db, a: Stmt, b: Stmt)
    ensures ExecAll(db, [a]) == Exec(db, a) && ExecAll(db, [a, b]) == Exec(Exec(db, a), b)
  {
    ExecSnoc(db, [], a);
    assert [] + [a] == [a];
    ExecSnoc(db, [a], b);
    assert [a] + [b] == [a, b];
  }

  lemma ExecThree(db: Db, a: Stmt, b: Stmt, c: Stmt)
    ensures ExecAll(db, [a, b, c]) == Exec(Exec(Exec(db, a), b), c)
  {
    ExecTwo(db, a, b);
    ExecSnoc(db, [a, b], c);
    assert [a, b] + [c] == [a, b, c];
  }

  /** After the deletes and the password only the password row is left. */
  lemma ProvisionHead(db: Db, code: nat, tenant: nat)
    ensures var head := [DeleteCheck(code, tenant), DeleteReply(code, tenant),
            InsertCheck(PasswordRows(code, tenant)[0])];
            var mid := ExecAll(db, head);
            Rows(mid.radcheck, code, tenant) == PasswordRows(code, tenant) && Rows(mid.radreply, code, tenant) == []
  {
    var password := PasswordRows(code, tenant)[0];
    ExecThree(db, DeleteCheck(code, tenant), DeleteReply(code, tenant), InsertCheck(password));
    DeletedRows(db.radcheck, code, tenant, code, tenant);
    DeletedRows(db.radreply, code, tenant, code, tenant);
    InsertedRows(Delete(db.radcheck, code, tenant), password, code, tenant);
  }

  lemma ProvisionAbout(code: nat, tenant: nat, plan: Plan)
    ensures forall stmt :: stmt in Provision(code, tenant, plan) ==> About(stmt, code, tenant)
  {
    var inserts := Inserts(ReplyRows(code, tenant, plan));
    forall stmt | stmt in inserts ensures About(stmt, code, tenant) {
      var i :| 0 <= i < |inserts| && inserts[i] == stmt;
    }
  }

  lemma HeadThenInserts(db: Db, head: seq<Stmt>, rows: seq<RadRow>, code: nat, tenant: nat)
    requires Rows(ExecAll(db, head).radreply, code, tenant) == []
    requires forall row :: row in rows ==> row.username == code && row.tenant == tenant
    ensures var after := ExecAll(db, head + Inserts(rows));
            && Rows(after.radcheck, code, tenant) == Rows(ExecAll(db, head).radcheck, code, tenant)
            && Rows(after.radreply, code, tenant) == rows
  {
    ExecAppend(db, head, Inserts(rows));
    InsertReplies(ExecAll(db, head), rows, code, tenant);
    assert [] + rows == rows;
  }

  lemma RepliesAbout(code: nat, tenant: nat, plan: Plan)
    ensures forall row :: row in ReplyRows(code, tenant, plan) ==> row.username == code && row.tenant == tenant
  {
  }

  lemma ProvisionRows(db: Db, code: nat, tenant: nat, plan: Plan)
    ensures Complete(ExecAll(db, Provision(code, tenant, plan)), code, tenant, plan)
  {
    var head := [DeleteCheck(code, tenant), DeleteReply(code, tenant), InsertCheck(PasswordRows(code, tenant)[0])];
    ProvisionHead(db, code, tenant);
    RepliesAbout(code, tenant, plan);
    HeadThenInserts(db, head, ReplyRows(code, tenant, plan), code, tenant);
  }

  /** Whatever rows were there, a finished provisioning leaves exactly the credential set. */
  lemma ProvisionCompletes(db: Db, code: nat, tenant: nat, plan: Plan)
    ensures var after := ExecAll(db, Provision(code, tenant, plan));
            SameElsewhere(db, after, code, tenant) && Complete(after, code, tenant, plan)
  {
    ProvisionRows(db, code, tenant, plan);
    ProvisionAbout(code, tenant, plan);
    ScriptKeepsOthers(db, Provision(code, tenant, plan), code, tenant);
  }

  lemma ProvisionPrefix(db: Db, code: nat, tenant: nat, plan: Plan, k: nat)
    requires k <= |Provision(code, tenant, plan)|
    ensures SameElsewhere(db, ExecAll(db, Provision(code, tenant, plan)[..k]), code, tenant)
  {
    ProvisionAbout(code, tenant, plan);
    ScriptKeepsOthers(db, Provision(code, tenant, plan)[..k], code, tenant);
  }

  // ---------------------------------------------------------------- every stop of every operation

  lemma LastStep(db: Db, stmts: seq<Stmt>, k: nat)
    requires 0 < k <= |stmts|
    ensures ExecAll(db, stmts[..k]) == Exec(ExecAll(db, stmts[..k - 1]), stmts[k - 1])
  {
    assert stmts[..k][..k - 1] == stmts[..k - 1];
  }

  ghost predicate NoActive(vouchers: map<nat, Voucher>, code: nat) {
    forall id :: id in vouchers && vouchers[id].status == Active ==> vouchers[id].code != code
  }

  /** Provisioning a code that no active voucher has, stopped anywhere. */
  lemma ProvisioningKeeps(db: Db, code: nat, tenant: nat, plan: Plan, last: Stmt, k: nat)
    requires Inv(db) && NoActive(db.vouchers, code) && k <= |Provision(code, tenant, plan)|
    ensures Inv(ExecAll(db, (Provision(code, tenant, plan) + [last])[..k]))
  {
    var stmts := Provision(code, tenant, plan);
    assert (stmts + [last])[..k] == stmts[..k];
    ProvisionPrefix(db, code, tenant, plan, k);
    InvElsewhere(db, ExecAll(db, stmts[..k]), code, tenant);
  }

  /** The tables just before the statement that makes the voucher active. */
  lemma ProvisionedThen(db: Db, code: nat, tenant: nat, plan: Plan, last: Stmt) returns (mid: Db)
    requires Inv(db) && NoActive(db.vouchers, code)
    ensures Inv(mid) && mid.vouchers == db.vouchers && Complete(mid, code, tenant, plan)
    ensures ExecAll(db, Provision(code, tenant, plan) + [last]) == Exec(mid, last)
  {
    var stmts := Provision(code, tenant, plan);
    mid := ExecAll(db, stmts);
    ProvisionCompletes(db, code, tenant, plan);
    InvElsewhere(db, mid, code, tenant);
    ExecSnoc(db, stmts, last);
  }

  lemma GenerateKeeps(db: Db, op: Op, k: nat)
    requires Inv(db) && op.Generate? && Enabled(db, op) && k <= |Script(db, op)|
    ensures Inv(Stopped(db, op, k))
  {
    var last := InsertVoucher(op.id, Voucher(op.payment, op.tenant, op.code, Active, None, op.plan));
    assert NoActive(db.vouchers, op.code);
    if k < |Script(db, op)| {
      ProvisioningKeeps(db, op.code, op.tenant, op.plan, last, k);
    } else {
      var mid := ProvisionedThen(db, op.code, op.tenant, op.plan, last);
      assert Script(db, op)[..k] == Script(db, op);
      InsertedKeeps(mid, op);
    }
  }

  lemma InsertedKeeps(mid: Db, op: Op)
    requires Inv(mid) && op.Generate? && Enabled(mid, op) && Complete(mid, op.code, op.tenant, op.plan)
    ensures Inv(Exec(mid, InsertVoucher(op.id, Voucher(op.payment, op.tenant, op.code, Active, None, op.plan))))
  {
  }

  lemma ActivatedKeeps(mid: Db, id: nat, tenant: nat, plan: Plan)
    requires Inv(mid) && id in mid.vouchers && mid.vouchers[id].tenant == tenant
    requires Complete(mid, mid.vouchers[id].code, tenant, plan)
    ensures Inv(Exec(mid, MarkActive(id, tenant, plan)))
  {
  }

  lemma RetryKeeps(db: Db, op: Op, k: nat)
    requires Inv(db) && op.RetryProvision? && Enabled(db, op) && k <= |Script(db, op)|
    ensures Inv(Stopped(db, op, k))
  {
    if Script(db, op) == [] {
      return;
    }
    var code := db.vouchers[op.id].code;
    var last := MarkActive(op.id, op.tenant, op.plan);
    assert NoActive(db.vouchers, code);
    if k < |Script(db, op)| {
      ProvisioningKeeps(db, code, op.tenant, op.plan, last, k);
    } else {
      var mid := ProvisionedThen(db, code, op.tenant, op.plan, last);
      assert Script(db, op)[..k] == Script(db, op);
      ActivatedKeeps(mid, op.id, op.tenant, op.plan);
    }
  }

  /** A list of deletions for vouchers that are not active. */
  lemma {:induction false} DeletionsKeep(db: Db, stmts: seq<Stmt>)
    requires Inv(db)
    requires forall stmt :: stmt in stmts ==> stmt.DeleteCheck? || stmt.DeleteReply?
    requires forall stmt, id :: stmt in stmts && id in db.vouchers && db.vouchers[id].status == Active ==>
               db.vouchers[id].code != stmt.code
    ensures Inv(ExecAll(db, stmts)) && ExecAll(db, stmts).vouchers == db.vouchers
  {
    if stmts != [] {
      var n := |stmts| - 1;
      DeletionsKeep(db, stmts[..n]);
      var mid := ExecAll(db, stmts[..n]);
      AboutKeepsOthers(mid, stmts[n], stmts[n].code, stmts[n].tenant);
      InvElsewhere(mid, Exec(mid, stmts[n]), stmts[n].code, stmts[n].tenant);
    }
  }

  lemma RevokeKeeps(db: Db, op: Op, k: nat)
    requires Inv(db) && op.Revoke? && Enabled(db, op) && k <= |Script(db, op)|
    ensures Inv(Stopped(db, op, k))
  {
    var script := Script(db, op);
    if k == 0 {
      return;
    }
    var marked := Exec(db, script[0]);
    var rest := script[1..k];
    assert script[..k] == [script[0]] + rest && [script[0]][..0] == [];
    ExecAppend(db, [script[0]], rest);
    DeletionsKeep(marked, rest);
  }

  lemma {:induction false} CleanupShape(vouchers: map<nat, Voucher>, due: seq<nat>)
    requires forall id :: id in due ==> id in vouchers
    ensures forall stmt :: stmt in Cleanup(vouchers, due) ==>
              (stmt.DeleteCheck? || stmt.DeleteReply?) && exists id :: id in due && stmt.code == vouchers[id].code
  {
    if due != [] {
      var n := |due| - 1;
      CleanupShape(vouchers, due[..n]);
      forall stmt | stmt in Cleanup(vouchers, due)
        ensures (stmt.DeleteCheck? || stmt.DeleteReply?) && exists id :: id in due && stmt.code == vouchers[id].code
      {
        if stmt in Cleanup(vouchers, due[..n]) {
          var id :| id in due[..n] && stmt.code == vouchers[id].code;
          assert id in due;
        } else {
          assert due[n] in due;
        }
      }
    }
  }

  lemma ExpireKeeps(db: Db, op: Op, k: nat)
    requires Inv(db) && op.Expire? && Enabled(db, op) && k <= |Script(db, op)|
    ensures Inv(Stopped(db, op, k))
  {
    var script := Script(db, op);
    if k == 0 {
      return;
    }
    var marked := Exec(db, script[0]);
    var rest := script[1..k];
    assert script[..k] == [script[0]] + rest && [script[0]][..0] == [];
    ExecAppend(db, [script[0]], rest);
    CleanupShape(db.vouchers, op.due);
    forall stmt | stmt in rest ensures stmt in Cleanup(db.vouchers, op.due) {
    }
    forall stmt, id | stmt in rest && id in marked.vouchers && marked.vouchers[id].status == Active
      ensures marked.vouchers[id].code != stmt.code
    {
      var expired :| expired in op.due && stmt.code == db.vouchers[expired].code;
      assert Due(db.vouchers[expired], op.now) && id != expired;
    }
    DeletionsKeep(marked, rest);
  }

  lemma ActivateKeeps(db: Db, op: Op, k: nat)
    requires Inv(db) && op.Activate? && k <= |Script(db, op)|
    ensures Inv(Stopped(db, op, k))
  {
    ExecAllShort(db, SetExpiry(op.id, op.expiresAt));
  }

  lemma ExecAllShort(db: Db, stmt: Stmt)
    ensures ExecAll(db, [stmt][..0]) == db && ExecAll(db, [stmt][..1]) == Exec(db, stmt)
  {
    ExecTwo(db, stmt, stmt);
    assert [stmt][..1] == [stmt];
  }

  /** Every statement boundary of every operation keeps active vouchers exactly provisioned. */
  lemma StopKeeps(db: Db, op: Op, k: nat)
    requires Inv(db) && Enabled(db, op) && k <= |Script(db, op)|
    ensures Inv(Stopped(db, op, k))
  {
    match op
    case Generate(_, _, _, _, _) => GenerateKeeps(db, op, k);
    case Revoke(_, _) => RevokeKeeps(db, op, k);
    case RetryProvision(_, _, _) => RetryKeeps(db, op, k);
    case Expire(_, _) => ExpireKeeps(db, op, k);
    case Activate(_, _) => ActivateKeeps(db, op, k);
  }
}
