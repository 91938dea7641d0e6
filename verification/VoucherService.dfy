/** The voucher operations over whole runs, and as the program writes them. */
module VoucherService {
  import opened Common
  import opened RadiusCredentials

  /** An operation and the number of its statements that were executed. */
  datatype Call = Call(op: Op, k: nat)

  ghost predicate Runs(db: Db, calls: seq<Call>, last: Db)
    decreases |calls|
  {
    if calls == [] then db == last
    else
      var n := |calls| - 1;
      exists mid :: Runs(db, calls[..n], mid) && Enabled(mid, calls[n].op) && calls[n].k <= |Script(mid, calls[n].op)|
                    && Stopped(mid, calls[n].op, calls[n].k) == last
  }

  /** In every run, at every statement boundary, each active voucher has exactly its credential set. */
  lemma {:induction false} ActiveVouchersComplete(db: Db, calls: seq<Call>, last: Db, id: nat)
    requires Inv(db) && Runs(db, calls, last)
    ensures Inv(last)
    ensures id in last.vouchers && last.vouchers[id].status == Active ==>
              var v := last.vouchers[id];
              && Rows(last.radcheck, v.code, v.tenant) == [RadRow(v.code, v.tenant, CleartextPassword, Code(v.code))]
              && Rows(last.radreply, v.code, v.tenant)
                 == [RadRow(v.code, v.tenant, RateLimit, Mbps(v.plan.mbps)),
                     RadRow(v.code, v.tenant, SessionTimeout, Number(60 * v.plan.minutes))]
                    + (if v.plan.quotaMb.Some? && v.plan.quotaMb.value != 0
                       then [RadRow(v.code, v.tenant, TotalLimit, Number(1_048_576 * v.plan.quotaMb.value))] else [])
    decreases |calls|
  {
    if calls != [] {
      var n := |calls| - 1;
      var mid :| Runs(db, calls[..n], mid) && Enabled(mid, calls[n].op) && calls[n].k <= |Script(mid, calls[n].op)|
                 && Stopped(mid, calls[n].op, calls[n].k) == last;
      ActiveVouchersComplete(db, calls[..n], mid, id);
      StopKeeps(mid, calls[n].op, calls[n].k);
    }
    if id in last.vouchers {
      CompleteExactly(last, last.vouchers[id].code, last.vouchers[id].tenant, last.vouchers[id].plan);
    }
  }

  // ---------------------------------------------------------------- ended vouchers stay ended

  predicate Ended(db: Db, id: nat) {
    id in db.vouchers && (db.vouchers[id].status == Expired || db.vouchers[id].status == Revoked)
  }

  lemma {:induction false} StmtsKeepEnded(db: Db, stmts: seq<Stmt>, id: nat)
    requires Ended(db, id)
    requires forall stmt :: stmt in stmts ==> (stmt.MarkActive? || stmt.InsertVoucher? ==> stmt.id != id)
    ensures Ended(ExecAll(db, stmts), id)
  {
    if stmts != [] {
      StmtsKeepEnded(db, stmts[..|stmts| - 1], id);
    }
  }

  lemma StopKeepsEnded(db: Db, op: Op, k: nat, id: nat)
    requires Enabled(db, op) && k <= |Script(db, op)| && Ended(db, id)
    ensures Ended(Stopped(db, op, k), id)
  {
    var script := Script(db, op);
    if op.Expire? {
      CleanupShape(db.vouchers, op.due);
    }
    forall stmt | stmt in script ensures stmt.MarkActive? || stmt.InsertVoucher? ==> stmt.id != id {
    }
    StmtsKeepEnded(db, script[..k], id);
  }

  /** No expired or revoked voucher becomes active again, wherever the operations stop. */
  lemma {:induction false} NeverReactivated(db: Db, calls: seq<Call>, last: Db, id: nat)
    requires Runs(db, calls, last) && Ended(db, id)
    ensures Ended(last, id)
    decreases |calls|
  {
    if calls != [] {
      var n := |calls| - 1;
      var mid :| Runs(db, calls[..n], mid) && Enabled(mid, calls[n].op) && calls[n].k <= |Script(mid, calls[n].op)|
                 && Stopped(mid, calls[n].op, calls[n].k) == last;
      NeverReactivated(db, calls[..n], mid, id);
      StopKeepsEnded(mid, calls[n].op, calls[n].k, id);
    }
  }

  // ---------------------------------------------------------------- tenants

  function TenantOf(stmt: Stmt): Option<nat> {
    match stmt
    case DeleteCheck(_, tenant) => Some(tenant)
    case DeleteReply(_, tenant) => Some(tenant)
    case InsertCheck(row) => Some(row.tenant)
    case InsertReply(row) => Some(row.tenant)
    case InsertVoucher(_, voucher) => Some(voucher.tenant)
    case MarkRevoked(_, tenant) => Some(tenant)
    case MarkActive(_, tenant, _) => Some(tenant)
    case MarkExpired(_) => None
    case SetExpiry(_, _) => None
  }

  ghost predicate OthersUntouched(before: Db, after: Db, tenant: nat) {
    && (forall id :: id in before.vouchers && before.vouchers[id].tenant != tenant ==>
          id in after.vouchers && after.vouchers[id] == before.vouchers[id])
    && forall c: nat, t: nat :: t != tenant ==>
         Rows(after.radcheck, c, t) == Rows(before.radcheck, c, t)
           && Rows(after.radreply, c, t) == Rows(before.radreply, c, t)
  }

  lemma {:induction false} StmtsKeepTenants(db: Db, stmts: seq<Stmt>, tenant: nat)
    requires forall stmt :: stmt in stmts ==>
               TenantOf(stmt) == Some(tenant)
               && (stmt.InsertVoucher? ==> stmt.id !in db.vouchers)
    ensures OthersUntouched(db, ExecAll(db, stmts), tenant)
  {
    if stmts != [] {
      var n := |stmts| - 1;
      StmtsKeepTenants(db, stmts[..n], tenant);
      var mid := ExecAll(db, stmts[..n]);
      var stmt := stmts[n];
      assert stmt in stmts && TenantOf(stmt) == Some(tenant);
      if stmt.DeleteCheck? || stmt.DeleteReply? {
        AboutKeepsOthers(mid, stmt, stmt.code, tenant);
      } else if stmt.InsertCheck? || stmt.InsertReply? {
        AboutKeepsOthers(mid, stmt, stmt.row.username, tenant);
      }
    }
  }

  lemma ScriptOfTenant(db: Db, op: Op, stmt: Stmt)
    requires Enabled(db, op) && !op.Expire? && !op.Activate? && stmt in Script(db, op)
    ensures TenantOf(stmt) == Some(op.tenant) && (stmt.InsertVoucher? ==> stmt.id !in db.vouchers)
  {
    match op
    case Generate(_, _, code, tenant, plan) => ProvisionAbout(code, tenant, plan);
    case RetryProvision(id, tenant, plan) => ProvisionAbout(db.vouchers[id].code, tenant, plan);
    case Revoke(_, _) =>
  }

  /** An operation of one tenant, stopped anywhere, leaves every other tenant's vouchers and rows as they were. */
  lemma TenantsIsolated(db: Db, op: Op, k: nat)
    requires Enabled(db, op) && k <= |Script(db, op)| && !op.Expire? && !op.Activate?
    ensures OthersUntouched(db, Stopped(db, op, k), op.tenant)
  {
    forall stmt | stmt in Script(db, op)[..k]
      ensures TenantOf(stmt) == Some(op.tenant) && (stmt.InsertVoucher? ==> stmt.id !in db.vouchers)
    {
      ScriptOfTenant(db, op, stmt);
    }
    StmtsKeepTenants(db, Script(db, op)[..k], op.tenant);
  }

  // ---------------------------------------------------------------- what stopping early leaves behind

  /**
   Revoking an active voucher removes its password row with the second statement, its reply rows with the third,
   not before.
   */
  lemma RevocationProgress(db: Db, op: Op, k: nat)
    requires Inv(db) && op.Revoke? && k <= |Script(db, op)|
    requires op.id in db.vouchers && db.vouchers[op.id].tenant == op.tenant && db.vouchers[op.id].status == Active
    ensures var after := Stopped(db, op, k);
            var v := db.vouchers[op.id];
            && op.id in after.vouchers && (after.vouchers[op.id].status == Revoked <==> 1 <= k)
            && (Rows(after.radcheck, v.code, v.tenant) == [] <==> 2 <= k)
            && (Rows(after.radreply, v.code, v.tenant) == [] <==> k == 3)
  {
    var v := db.vouchers[op.id];
    RevokedTables(db, op, k);
    DeletedRows(db.radcheck, v.code, v.tenant, v.code, v.tenant);
    DeletedRows(db.radreply, v.code, v.tenant, v.code, v.tenant);
    assert Complete(db, v.code, v.tenant, v.plan);
  }

  lemma {:induction false} RevokedTables(db: Db, op: Op, k: nat)
    requires op.Revoke? && k <= |Script(db, op)| && op.id in db.vouchers && db.vouchers[op.id].tenant == op.tenant
    ensures var v := db.vouchers[op.id];
            Stopped(db, op, k) == Db(
              if 1 <= k then db.vouchers[op.id := v.(status := Revoked)] else db.vouchers,
              if 2 <= k then Delete(db.radcheck, v.code, v.tenant) else db.radcheck,
              if 3 <= k then Delete(db.radreply, v.code, v.tenant) else db.radreply)
  {
    if k != 0 {
      RevokedTables(db, op, k - 1);
      LastStep(db, Script(db, op), k);
    }
  }

  ghost predicate NoRows(db: Db, code: nat, tenant: nat) {
    Rows(db.radcheck, code, tenant) == [] && Rows(db.radreply, code, tenant) == []
  }

  /** The two deletes remove this user's rows, and bring nobody's back. */
  lemma BothDeleted(db: Db, v: Voucher, w: Voucher)
    ensures var after := ExecAll(db, [DeleteCheck(v.code, v.tenant), DeleteReply(v.code, v.tenant)]);
            (v == w || NoRows(db, w.code, w.tenant) ==> NoRows(after, w.code, w.tenant))
  {
    ExecTwo(db, DeleteCheck(v.code, v.tenant), DeleteReply(v.code, v.tenant));
    DeletedRows(db.radcheck, v.code, v.tenant, w.code, w.tenant);
    DeletedRows(db.radreply, v.code, v.tenant, w.code, w.tenant);
  }

  lemma {:induction false} CleanupRemoves(db: Db, vouchers: map<nat, Voucher>, due: seq<nat>, id: nat)
    requires (forall d :: d in due ==> d in vouchers) && id in due
    ensures NoRows(ExecAll(db, Cleanup(vouchers, due)), vouchers[id].code, vouchers[id].tenant)
  {
    var n := |due| - 1;
    var v := vouchers[due[n]];
    ExecAppend(db, Cleanup(vouchers, due[..n]), [DeleteCheck(v.code, v.tenant), DeleteReply(v.code, v.tenant)]);
    BothDeleted(ExecAll(db, Cleanup(vouchers, due[..n])), v, vouchers[id]);
    if id in due[..n] {
      CleanupRemoves(db, vouchers, due[..n], id);
    } else {
      assert id == due[n];
    }
  }

  /** A completed expiry leaves no due voucher active and no credential row of any of them. */
  lemma ExpiryCompletes(db: Db, op: Op, id: nat)
    requires op.Expire? && Enabled(db, op) && id in db.vouchers && Due(db.vouchers[id], op.now)
    ensures var after := Stopped(db, op, |Script(db, op)|);
            var v := db.vouchers[id];
            && Ended(after, id)
            && Rows(after.radcheck, v.code, v.tenant) == [] && Rows(after.radreply, v.code, v.tenant) == []
  {
    var script := Script(db, op);
    var marked := Exec(db, MarkExpired(op.now));
    assert script[..|script|] == script;
    ExecAppend(db, [MarkExpired(op.now)], Cleanup(db.vouchers, op.due));
    assert ExecAll(db, [MarkExpired(op.now)]) == marked by {
      assert [MarkExpired(op.now)][..0] == [];
    }
    CleanupRemoves(marked, db.vouchers, op.due, id);
    CleanupKeepsEnded(marked, db.vouchers, op.due, id);
  }

  // ---------------------------------------------------------------- an expiry that breaks off

  /** The user's password row is gone if `n` is positive, the reply rows if it is more than one, and no others. */
  ghost predicate Left(before: Db, after: Db, code: nat, tenant: nat, n: int) {
    && Rows(after.radcheck, code, tenant) == (if n > 0 then [] else Rows(before.radcheck, code, tenant))
    && Rows(after.radreply, code, tenant) == (if n > 1 then [] else Rows(before.radreply, code, tenant))
  }

  lemma CheckDeleted(db: Db, before: Db, code: nat, tenant: nat)
    requires Left(db, before, code, tenant, 0)
    ensures Left(db, Exec(before, DeleteCheck(code, tenant)), code, tenant, 1)
  {
    DeletedRows(before.radcheck, code, tenant, code, tenant);
  }

  lemma ReplyDeleted(db: Db, before: Db, code: nat, tenant: nat)
    requires Left(db, before, code, tenant, 1)
    ensures Left(db, Exec(before, DeleteReply(code, tenant)), code, tenant, 2)
  {
    DeletedRows(before.radreply, code, tenant, code, tenant);
  }

  /** A script that writes this user's rows with two deletes only. */
  ghost predicate DeletesOnly(script: seq<Stmt>, code: nat, tenant: nat, a: nat) {
    && a + 1 < |script| && script[a] == DeleteCheck(code, tenant) && script[a + 1] == DeleteReply(code, tenant)
    && forall j :: 0 <= j < |script| && j != a && j != a + 1 ==> !About(script[j], code, tenant)
  }

  lemma BeforeDeletes(db: Db, script: seq<Stmt>, code: nat, tenant: nat, a: nat, k: nat)
    requires DeletesOnly(script, code, tenant, a) && k <= a
    ensures Left(db, ExecAll(db, script[..k]), code, tenant, 0)
  {
    RowsOutlast(db, script[..k], code, tenant);
  }

  lemma AtDeletes(db: Db, script: seq<Stmt>, code: nat, tenant: nat, a: nat)
    requires DeletesOnly(script, code, tenant, a)
    ensures Left(db, ExecAll(db, script[..a + 1]), code, tenant, 1)
    ensures Left(db, ExecAll(db, script[..a + 2]), code, tenant, 2)
  {
    BeforeDeletes(db, script, code, tenant, a, a);
    LastStep(db, script, a + 1);
    CheckDeleted(db, ExecAll(db, script[..a]), code, tenant);
    LastStep(db, script, a + 2);
    ReplyDeleted(db, ExecAll(db, script[..a + 1]), code, tenant);
  }

  lemma AfterDeletes(db: Db, script: seq<Stmt>, code: nat, tenant: nat, a: nat, k: nat)
    requires DeletesOnly(script, code, tenant, a) && a + 2 <= k <= |script|
    ensures Left(db, ExecAll(db, script[..k]), code, tenant, 2)
  {
    AtDeletes(db, script, code, tenant, a);
    assert script[..k] == script[..a + 2] + script[a + 2..k];
    ExecAppend(db, script[..a + 2], script[a + 2..k]);
    RowsOutlast(ExecAll(db, script[..a + 2]), script[a + 2..k], code, tenant);
  }

  lemma DeletesAt(db: Db, script: seq<Stmt>, code: nat, tenant: nat, a: nat, k: nat)
    requires DeletesOnly(script, code, tenant, a) && k <= |script|
    ensures Left(db, ExecAll(db, script[..k]), code, tenant, k - a)
  {
    if k <= a {
      BeforeDeletes(db, script, code, tenant, a, k);
    } else if k == a + 1 {
      AtDeletes(db, script, code, tenant, a);
    } else {
      AfterDeletes(db, script, code, tenant, a, k);
    }
  }

  /** The rows that `k` statements of a cleanup leave of the voucher `due[i]`. */
  lemma CleanupProgress(db: Db, vouchers: map<nat, Voucher>, due: seq<nat>, k: nat, i: nat)
    requires (forall d :: d in due ==> d in vouchers) && CodesDistinct(vouchers)
    requires i < |due| && (forall j :: 0 <= j < |due| && j != i ==> due[j] != due[i])
    requires k <= |Cleanup(vouchers, due)|
    ensures var v := vouchers[due[i]];
            Left(db, ExecAll(db, Cleanup(vouchers, due)[..k]), v.code, v.tenant, k - 2 * i)
  {
    var script, v := Cleanup(vouchers, due), vouchers[due[i]];
    CleanupAt(vouchers, due);
    forall j | 0 <= j < |script| && j != 2 * i && j != 2 * i + 1 ensures !About(script[j], v.code, v.tenant) {
      assert j / 2 != i && vouchers[due[j / 2]].code != v.code;
    }
    DeletesAt(db, script, v.code, v.tenant, 2 * i, k);
  }

  lemma {:induction false} CleanupAt(vouchers: map<nat, Voucher>, due: seq<nat>)
    requires forall d :: d in due ==> d in vouchers
    ensures |Cleanup(vouchers, due)| == 2 * |due|
    ensures forall j :: 0 <= j < 2 * |due| ==>
              var v := vouchers[due[j / 2]];
              Cleanup(vouchers, due)[j]
              == if j % 2 == 0 then DeleteCheck(v.code, v.tenant) else DeleteReply(v.code, v.tenant)
  {
    if due != [] {
      CleanupAt(vouchers, due[..|due| - 1]);
    }
  }

  /**
   What an expiry has done after `k` statements: with the first it has marked every due voucher, and of the voucher that
   it comes to as `i`-th the password row goes with statement 2 * i + 2 and the reply rows with the next, not before.
   */
  lemma ExpiryProgress(db: Db, op: Op, k: nat, i: nat)
    requires op.Expire? && Enabled(db, op) && CodesDistinct(db.vouchers) && k <= |Script(db, op)|
    requires i < |op.due| && forall j :: 0 <= j < |op.due| && j != i ==> op.due[j] != op.due[i]
    ensures Ended(Stopped(db, op, k), op.due[i]) <==> 1 <= k
    ensures var v := db.vouchers[op.due[i]];
            Left(db, Stopped(db, op, k), v.code, v.tenant, k - 1 - 2 * i)
  {
    ExpiryEnds(db, op, k, op.due[i]);
    ExpiryLeaves(db, op, k, i, db.vouchers[op.due[i]]);
  }

  lemma ExpiryLeaves(db: Db, op: Op, k: nat, i: nat, v: Voucher)
    requires op.Expire? && Enabled(db, op) && CodesDistinct(db.vouchers) && k <= |Script(db, op)|
    requires i < |op.due| && forall j :: 0 <= j < |op.due| && j != i ==> op.due[j] != op.due[i]
    requires v == db.vouchers[op.due[i]]
    ensures Left(db, Stopped(db, op, k), v.code, v.tenant, k - 1 - 2 * i)
  {
    if k == 0 {
      NotBegun(db, op, v.code, v.tenant, k - 1 - 2 * i);
    } else {
      ExpiryFrom(db, op, k);
      BegunLeaves(db, op, k - 1, i, v);
    }
  }

  lemma BegunLeaves(db: Db, op: Op, n: nat, i: nat, v: Voucher)
    requires op.Expire? && Enabled(db, op) && CodesDistinct(db.vouchers) && n <= |Cleanup(db.vouchers, op.due)|
    requires i < |op.due| && forall j :: 0 <= j < |op.due| && j != i ==> op.due[j] != op.due[i]
    requires v == db.vouchers[op.due[i]]
    ensures Left(db, ExecAll(Exec(db, MarkExpired(op.now)), Cleanup(db.vouchers, op.due)[..n]), v.code, v.tenant,
                 n - 2 * i)
  {
    var marked := Exec(db, MarkExpired(op.now));
    CleanupProgress(marked, db.vouchers, op.due, n, i);
    MarkLeaves(db, ExecAll(marked, Cleanup(db.vouchers, op.due)[..n]), op.now, v.code, v.tenant, n - 2 * i);
  }

  lemma NotBegun(db: Db, op: Op, code: nat, tenant: nat, n: int)
    requires Enabled(db, op) && n <= 0
    ensures Left(db, Stopped(db, op, 0), code, tenant, n)
  {
    assert Script(db, op)[..0] == [];
  }

  lemma MarkLeaves(db: Db, after: Db, now: int, code: nat, tenant: nat, n: int)
    requires Left(Exec(db, MarkExpired(now)), after, code, tenant, n)
    ensures Left(db, after, code, tenant, n)
  {
  }

  lemma ExpiryEnds(db: Db, op: Op, k: nat, id: nat)
    requires op.Expire? && Enabled(db, op) && k <= |Script(db, op)| && id in op.due
    ensures Ended(Stopped(db, op, k), id) <==> 1 <= k
  {
    if k != 0 {
      var marked := Exec(db, MarkExpired(op.now));
      ExpiryFrom(db, op, k);
      assert Due(db.vouchers[id], op.now) && Ended(marked, id);
      CleanupPrefixKeepsEnded(marked, db.vouchers, op.due, id, k - 1);
    } else {
      assert Script(db, op)[..0] == [] && Due(db.vouchers[id], op.now);
    }
  }

  lemma ExpiryFrom(db: Db, op: Op, k: nat)
    requires op.Expire? && Enabled(db, op) && 0 < k <= |Script(db, op)|
    ensures Stopped(db, op, k)
            == ExecAll(Exec(db, MarkExpired(op.now)), Cleanup(db.vouchers, op.due)[..k - 1])
  {
    var cleanup := Cleanup(db.vouchers, op.due)[..k - 1];
    assert Script(db, op)[..k] == [MarkExpired(op.now)] + cleanup;
    ExecTwo(db, MarkExpired(op.now), MarkExpired(op.now));
    ExecAppend(db, [MarkExpired(op.now)], cleanup);
  }

  lemma CleanupPrefixKeepsEnded(db: Db, vouchers: map<nat, Voucher>, due: seq<nat>, id: nat, k: nat)
    requires (forall d :: d in due ==> d in vouchers) && Ended(db, id) && k <= |Cleanup(vouchers, due)|
    ensures Ended(ExecAll(db, Cleanup(vouchers, due)[..k]), id)
  {
    CleanupShape(vouchers, due);
    forall stmt | stmt in Cleanup(vouchers, due)[..k] ensures stmt.DeleteCheck? || stmt.DeleteReply? {
      assert stmt in Cleanup(vouchers, due);
    }
    StmtsKeepEnded(db, Cleanup(vouchers, due)[..k], id);
  }

  /** Statements that write no row of a user leave its rows. */
  lemma {:induction false} RowsOutlast(db: Db, stmts: seq<Stmt>, code: nat, tenant: nat)
    requires forall stmt :: stmt in stmts ==> !About(stmt, code, tenant)
    ensures Rows(ExecAll(db, stmts).radcheck, code, tenant) == Rows(db.radcheck, code, tenant)
    ensures Rows(ExecAll(db, stmts).radreply, code, tenant) == Rows(db.radreply, code, tenant)
  {
    if stmts != [] {
      RowsOutlast(db, stmts[..|stmts| - 1], code, tenant);
      OneOutlasts(ExecAll(db, stmts[..|stmts| - 1]), stmts[|stmts| - 1], code, tenant);
    }
  }

  lemma OneOutlasts(db: Db, stmt: Stmt, code: nat, tenant: nat)
    requires !About(stmt, code, tenant)
    ensures Rows(Exec(db, stmt).radcheck, code, tenant) == Rows(db.radcheck, code, tenant)
    ensures Rows(Exec(db, stmt).radreply, code, tenant) == Rows(db.radreply, code, tenant)
  {
    match stmt
    case DeleteCheck(c, t) => DeletedRows(db.radcheck, c, t, code, tenant);
    case DeleteReply(c, t) => DeletedRows(db.radreply, c, t, code, tenant);
    case InsertCheck(row) => InsertedRows(db.radcheck, row, code, tenant);
    case InsertReply(row) => InsertedRows(db.radreply, row, code, tenant);
    case _ =>
  }

  /** Of an ended voucher only a revocation writes rows. */
  lemma ScriptSparesEnded(db: Db, op: Op, id: nat, stmt: Stmt)
    requires CodesDistinct(db.vouchers) && Enabled(db, op) && Ended(db, id) && stmt in Script(db, op)
    requires op.Revoke? ==> op.id != id
    ensures !About(stmt, db.vouchers[id].code, db.vouchers[id].tenant)
  {
    match op
    case Generate(_, _, code, tenant, plan) => ProvisionAbout(code, tenant, plan);
    case RetryProvision(other, tenant, plan) => ProvisionAbout(db.vouchers[other].code, tenant, plan);
    case Revoke(_, _) =>
    case Expire(_, due) => CleanupShape(db.vouchers, due);
    case Activate(_, _) =>
  }

  lemma {:induction false} EndedRow(db: Db, stmts: seq<Stmt>, id: nat)
    requires id in db.vouchers && forall stmt :: stmt in stmts && stmt.InsertVoucher? ==> stmt.id != id
    ensures id in ExecAll(db, stmts).vouchers && ExecAll(db, stmts).vouchers[id].code == db.vouchers[id].code
    ensures ExecAll(db, stmts).vouchers[id].tenant == db.vouchers[id].tenant
  {
    if stmts != [] { EndedRow(db, stmts[..|stmts| - 1], id); }
  }

  lemma StopSparesEnded(db: Db, op: Op, k: nat, id: nat)
    requires CodesDistinct(db.vouchers) && Enabled(db, op) && k <= |Script(db, op)| && Ended(db, id)
    requires op.Revoke? ==> op.id != id
    ensures var v, after := db.vouchers[id], Stopped(db, op, k);
            && id in after.vouchers && after.vouchers[id].code == v.code && after.vouchers[id].tenant == v.tenant
            && Rows(after.radcheck, v.code, v.tenant) == Rows(db.radcheck, v.code, v.tenant)
            && Rows(after.radreply, v.code, v.tenant) == Rows(db.radreply, v.code, v.tenant)
  {
    var stmts := Script(db, op)[..k];
    forall stmt | stmt in stmts
      ensures !About(stmt, db.vouchers[id].code, db.vouchers[id].tenant) && (stmt.InsertVoucher? ==> stmt.id != id)
    {
      ScriptSparesEnded(db, op, id, stmt);
      if stmt.InsertVoucher? { NoInsert(db, op, id, stmt); }
    }
    RowsOutlast(db, stmts, db.vouchers[id].code, db.vouchers[id].tenant);
    EndedRow(db, stmts, id);
  }

  lemma NoInsert(db: Db, op: Op, id: nat, stmt: Stmt)
    requires Enabled(db, op) && id in db.vouchers && stmt in Script(db, op) && stmt.InsertVoucher?
    ensures stmt.id != id
  {
    match op
    case Generate(_, _, code, tenant, plan) => ProvisionAbout(code, tenant, plan);
    case RetryProvision(other, tenant, plan) => ProvisionAbout(db.vouchers[other].code, tenant, plan);
    case Expire(_, due) => CleanupShape(db.vouchers, due);
    case _ =>
  }

  /**
   The rows of an ended voucher are there for good: what an expiry that broke off has left is removed by no later
   expiry, nor by anything else but a revocation of that voucher.
   */
  lemma {:induction false} LeftoversStay(db: Db, calls: seq<Call>, last: Db, id: nat)
    requires Inv(db) && Runs(db, calls, last) && Ended(db, id)
    requires forall i :: 0 <= i < |calls| && calls[i].op.Revoke? ==> calls[i].op.id != id
    ensures var v := db.vouchers[id];
            && Ended(last, id) && last.vouchers[id].code == v.code && last.vouchers[id].tenant == v.tenant
            && Rows(last.radcheck, v.code, v.tenant) == Rows(db.radcheck, v.code, v.tenant)
            && Rows(last.radreply, v.code, v.tenant) == Rows(db.radreply, v.code, v.tenant)
    ensures Inv(last)
    decreases |calls|
  {
    if calls != [] {
      var n := |calls| - 1;
      var mid :| Runs(db, calls[..n], mid) && Enabled(mid, calls[n].op) && calls[n].k <= |Script(mid, calls[n].op)|
                 && Stopped(mid, calls[n].op, calls[n].k) == last;
      LeftoversStay(db, calls[..n], mid, id);
      StopKeeps(mid, calls[n].op, calls[n].k);
      StopSparesEnded(mid, calls[n].op, calls[n].k, id);
      StopKeepsEnded(mid, calls[n].op, calls[n].k, id);
    }
  }

  /** A finished generation for a payment without a voucher has its voucher, active and not started. */
  lemma Generated(db: Db, op: Op)
    requires op.Generate? && Enabled(db, op) && !PaymentUsed(db.vouchers, op.payment)
    ensures Stopped(db, op, |Script(db, op)|).vouchers
            == db.vouchers[op.id := Voucher(op.payment, op.tenant, op.code, Active, None, op.plan)]
  {
    var stmts := Provision(op.code, op.tenant, op.plan);
    var last := InsertVoucher(op.id, Voucher(op.payment, op.tenant, op.code, Active, None, op.plan));
    assert Script(db, op)[..|Script(db, op)|] == stmts + [last];
    ExecSnoc(db, stmts, last);
    ProvisionCompletes(db, op.code, op.tenant, op.plan);
  }

  /** Starting a voucher sets its expiry, once. */
  lemma Activated(db: Db, op: Op)
    requires op.Activate? && Unstarted(db.vouchers, op.id)
    ensures Stopped(db, op, 1) == db.(vouchers :=
            db.vouchers[op.id := db.vouchers[op.id].(expiresAt := Some(op.expiresAt))])
  {
    ExecAllShort(db, SetExpiry(op.id, op.expiresAt));
  }

  /** A whole life: generated, started, and once its time is over expired, with no credential row left. */
  lemma LifeEnds(db: Db, generate: Op, activate: Op, expire: Op)
    requires generate.Generate? && Enabled(db, generate) && !PaymentUsed(db.vouchers, generate.payment)
    requires activate.Activate? && activate.id == generate.id
    requires expire.Expire? && activate.expiresAt <= expire.now
    requires Enabled(Stopped(Stopped(db, generate, |Script(db, generate)|), activate, 1), expire)
    ensures var started := Stopped(Stopped(db, generate, |Script(db, generate)|), activate, 1);
            var ended := Stopped(started, expire, |Script(started, expire)|);
            && Ended(ended, generate.id)
            && Rows(ended.radcheck, generate.code, generate.tenant) == []
            && Rows(ended.radreply, generate.code, generate.tenant) == []
  {
    Generated(db, generate);
    Activated(Stopped(db, generate, |Script(db, generate)|), activate);
    ExpiryCompletes(Stopped(Stopped(db, generate, |Script(db, generate)|), activate, 1), expire, generate.id);
  }

  lemma CleanupKeepsEnded(db: Db, vouchers: map<nat, Voucher>, due: seq<nat>, id: nat)
    requires (forall d :: d in due ==> d in vouchers) && Ended(db, id)
    ensures Ended(ExecAll(db, Cleanup(vouchers, due)), id)
  {
    CleanupShape(vouchers, due);
    StmtsKeepEnded(db, Cleanup(vouchers, due), id);
  }

  predicate HasVoucher(db: Db, code: nat) {
    exists id :: id in db.vouchers && db.vouchers[id].code == code
  }

  /**
   "Every credential set belongs to a voucher" fails. The password row of a new code is there from
   the third statement on; its voucher exists exactly when the run reached its last statement and
   the payment had no voucher yet, so a repeated job leaves a working login without a voucher.
   */
  lemma CredentialsWithoutVoucher(db: Db, op: Op, k: nat)
    requires op.Generate? && Enabled(db, op) && k <= |Script(db, op)|
    requires Rows(db.radcheck, op.code, op.tenant) == []
    ensures var after := Stopped(db, op, k);
            && (Rows(after.radcheck, op.code, op.tenant) != [] <==> 3 <= k)
            && (HasVoucher(after, op.code) <==> k == |Script(db, op)| && !PaymentUsed(db.vouchers, op.payment))
  {
    var stmts := Provision(op.code, op.tenant, op.plan);
    if k <= |stmts| {
      assert Script(db, op)[..k] == stmts[..k];
      PasswordProgress(db, stmts, op.code, op.tenant, k);
      ProvisionPrefix(db, op.code, op.tenant, op.plan, k);
    } else {
      CredentialsAtTheEnd(db, op);
      assert Script(db, op)[..k] == Script(db, op);
    }
  }

  lemma CredentialsAtTheEnd(db: Db, op: Op)
    requires op.Generate? && Enabled(db, op) && Rows(db.radcheck, op.code, op.tenant) == []
    ensures var after := ExecAll(db, Script(db, op));
            && Rows(after.radcheck, op.code, op.tenant) != []
            && (HasVoucher(after, op.code) <==> !PaymentUsed(db.vouchers, op.payment))
  {
    var script := Script(db, op);
    var stmts := Provision(op.code, op.tenant, op.plan);
    assert script[..|stmts|] == stmts && script[..|script|] == script;
    LastStep(db, script, |script|);
    ProvisionCompletes(db, op.code, op.tenant, op.plan);
    if !PaymentUsed(db.vouchers, op.payment) {
      assert ExecAll(db, script).vouchers[op.id].code == op.code;
    }
  }

  /** The statements that matter for a user's password rows. */
  lemma PasswordStep(db: Db, stmt: Stmt, code: nat, tenant: nat)
    requires About(stmt, code, tenant)
    ensures Rows(Exec(db, stmt).radcheck, code, tenant)
            == match stmt
               case DeleteCheck(_, _) => []
               case InsertCheck(row) => Rows(db.radcheck, code, tenant) + [row]
               case _ => Rows(db.radcheck, code, tenant)
  {
    match stmt
    case DeleteCheck(_, _) => DeletedRows(db.radcheck, code, tenant, code, tenant);
    case InsertCheck(row) => InsertedRows(db.radcheck, row, code, tenant);
    case _ =>
  }

  /** Two deletes, the password, and reply rows. */
  predicate Provisioning(stmts: seq<Stmt>, code: nat, tenant: nat) {
    && |stmts| >= 3 && stmts[0] == DeleteCheck(code, tenant) && stmts[1] == DeleteReply(code, tenant)
    && stmts[2] == InsertCheck(PasswordRows(code, tenant)[0])
    && forall i :: 3 <= i < |stmts| ==> stmts[i].InsertReply? && About(stmts[i], code, tenant)
  }

  lemma {:induction false} PasswordProgress(db: Db, stmts: seq<Stmt>, code: nat, tenant: nat, k: nat)
    requires Provisioning(stmts, code, tenant) && k <= |stmts| && Rows(db.radcheck, code, tenant) == []
    ensures Rows(ExecAll(db, stmts[..k]).radcheck, code, tenant) == if 3 <= k then PasswordRows(code, tenant) else []
  {
    if k != 0 {
      PasswordProgress(db, stmts, code, tenant, k - 1);
      LastStep(db, stmts, k);
      PasswordStep(ExecAll(db, stmts[..k - 1]), stmts[k - 1], code, tenant);
    }
  }

  lemma ProvisionShape(code: nat, tenant: nat, plan: Plan)
    ensures Provision(code, tenant, plan) ==
              [DeleteCheck(code, tenant), DeleteReply(code, tenant), InsertCheck(PasswordRows(code, tenant)[0]),
               InsertReply(RadRow(code, tenant, RateLimit, Mbps(plan.mbps))),
               InsertReply(RadRow(code, tenant, SessionTimeout, Number(plan.minutes * 60)))]
              + (if QuotaRows(code, tenant, plan) == [] then [] else [InsertReply(QuotaRows(code, tenant, plan)[0])])
  {
  }

  // ---------------------------------------------------------------- the service

  /** The script of a generation is the provisioning and one more statement. */
  lemma GenerateEnds(db: Db, id: nat, payment: nat, code: nat, tenant: nat, plan: Plan)
    requires Enabled(db, Generate(id, payment, code, tenant, plan))
    ensures ExecAll(db, Script(db, Generate(id, payment, code, tenant, plan)))
            == Exec(ExecAll(db, Provision(code, tenant, plan)),
                    InsertVoucher(id, Voucher(payment, tenant, code, Active, None, plan)))
  {
    ExecSnoc(db, Provision(code, tenant, plan),
             InsertVoucher(id, Voucher(payment, tenant, code, Active, None, plan)));
  }

  /** What a whole revocation leaves. */
  lemma Revoking(db: Db, after: Db, id: nat, tenant: nat)
    requires id in db.vouchers && db.vouchers[id].tenant == tenant
    requires after == ExecAll(db, Script(db, Revoke(id, tenant)))
    ensures var code := db.vouchers[id].code;
            && after.vouchers == db.vouchers[id := db.vouchers[id].(status := Revoked)]
            && NoRows(after, code, tenant)
            && forall c: nat, t: nat :: (c, t) != (code, tenant) ==>
                 Rows(after.radcheck, c, t) == Rows(db.radcheck, c, t)
                 && Rows(after.radreply, c, t) == Rows(db.radreply, c, t)
  {
    var op, v := Revoke(id, tenant), db.vouchers[id];
    assert Script(db, op)[..3] == Script(db, op);
    RevokedTables(db, op, 3);
    forall c: nat, t: nat
      ensures Rows(after.radcheck, c, t) == if (c, t) == (v.code, tenant) then [] else Rows(db.radcheck, c, t)
      ensures Rows(after.radreply, c, t) == if (c, t) == (v.code, tenant) then [] else Rows(db.radreply, c, t)
    {
      DeletedRows(db.radcheck, v.code, tenant, c, t);
      DeletedRows(db.radreply, v.code, tenant, c, t);
    }
  }

  /** What a whole expiry leaves of the vouchers. */
  lemma ExpiringVouchers(db: Db, after: Db, now: int, due: seq<nat>)
    requires Enabled(db, Expire(now, due)) && after == ExecAll(db, Script(db, Expire(now, due)))
    ensures after.vouchers.Keys == db.vouchers.Keys
    ensures forall id :: id in after.vouchers ==>
              var was := db.vouchers[id];
              var over := (was.status == Active || was.status == Used)
                          && was.expiresAt.Some? && was.expiresAt.value <= now;
              after.vouchers[id] == (if over then was.(status := Expired) else was)
  {
    WholeExpiry(db, now, due);
    CleanupLeavesVouchers(Exec(db, MarkExpired(now)), db.vouchers, due);
  }

  /** And of the rows of a due voucher, and of a user who has none. */
  lemma ExpiringRows(db: Db, after: Db, now: int, due: seq<nat>, id: nat)
    requires Enabled(db, Expire(now, due)) && after == ExecAll(db, Script(db, Expire(now, due)))
    requires id in db.vouchers && Due(db.vouchers[id], now)
    ensures NoRows(after, db.vouchers[id].code, db.vouchers[id].tenant)
  {
    WholeExpiry(db, now, due);
    CleanupRemoves(Exec(db, MarkExpired(now)), db.vouchers, due, id);
  }

  lemma ExpiringSpares(db: Db, after: Db, now: int, due: seq<nat>, code: nat, tenant: nat)
    requires Enabled(db, Expire(now, due)) && after == ExecAll(db, Script(db, Expire(now, due)))
    requires forall id :: id in due ==> (db.vouchers[id].code, db.vouchers[id].tenant) != (code, tenant)
    ensures Rows(after.radcheck, code, tenant) == Rows(db.radcheck, code, tenant)
    ensures Rows(after.radreply, code, tenant) == Rows(db.radreply, code, tenant)
  {
    WholeExpiry(db, now, due);
    CleanupSpares(db.vouchers, due, code, tenant);
    RowsOutlast(Exec(db, MarkExpired(now)), Cleanup(db.vouchers, due), code, tenant);
  }

  lemma WholeExpiry(db: Db, now: int, due: seq<nat>)
    requires Enabled(db, Expire(now, due))
    ensures ExecAll(db, Script(db, Expire(now, due)))
            == ExecAll(Exec(db, MarkExpired(now)), Cleanup(db.vouchers, due))
  {
    ExecTwo(db, MarkExpired(now), MarkExpired(now));
    ExecAppend(db, [MarkExpired(now)], Cleanup(db.vouchers, due));
  }

  lemma {:induction false} CleanupLeavesVouchers(db: Db, vouchers: map<nat, Voucher>, due: seq<nat>)
    requires forall d :: d in due ==> d in vouchers
    ensures ExecAll(db, Cleanup(vouchers, due)).vouchers == db.vouchers
  {
    if due != [] {
      var n := |due| - 1;
      var v := vouchers[due[n]];
      CleanupLeavesVouchers(db, vouchers, due[..n]);
      ExecAppend(db, Cleanup(vouchers, due[..n]), [DeleteCheck(v.code, v.tenant), DeleteReply(v.code, v.tenant)]);
      ExecTwo(ExecAll(db, Cleanup(vouchers, due[..n])), DeleteCheck(v.code, v.tenant), DeleteReply(v.code, v.tenant));
    }
  }

  lemma CleanupSpares(vouchers: map<nat, Voucher>, due: seq<nat>, code: nat, tenant: nat)
    requires forall d :: d in due ==> d in vouchers
    requires forall id :: id in due ==> (vouchers[id].code, vouchers[id].tenant) != (code, tenant)
    ensures forall stmt :: stmt in Cleanup(vouchers, due) ==> !About(stmt, code, tenant)
  {
    CleanupAt(vouchers, due);
    forall j | 0 <= j < |Cleanup(vouchers, due)| ensures !About(Cleanup(vouchers, due)[j], code, tenant) {
      assert due[j / 2] in due;
    }
  }

  datatype GenerateError = PaymentNotFound | DuplicatePayment

  class Service {
    var vouchers: map<nat, Voucher>
    var radcheck: seq<RadRow>
    var radreply: seq<RadRow>
    var passwords: map<nat, nat>

    constructor ()
      ensures Tables() == Db(map[], [], []) && passwords == map[]
    {
      vouchers, radcheck, radreply, passwords := map[], [], [], map[];
    }

    function Tables(): Db
      reads this
    {
      Db(vouchers, radcheck, radreply)
    }

    /** Sends one statement to the database. */
    method Execute(stmt: Stmt)
      modifies this`vouchers, this`radcheck, this`radreply
      ensures Tables() == Exec(old(Tables()), stmt)
    {
      var after := Exec(Tables(), stmt);
      vouchers, radcheck, radreply := after.vouchers, after.radcheck, after.radreply;
    }

    /** Sends one more statement of an operation that began at `db`. */
    method Continue(stmt: Stmt, ghost db: Db, ghost done: seq<Stmt>) returns (ghost more: seq<Stmt>)
      requires Tables() == ExecAll(db, done)
      modifies this`vouchers, this`radcheck, this`radreply
      ensures more == done + [stmt] && Tables() == ExecAll(db, more)
      ensures Tables() == Exec(old(Tables()), stmt)
    {
      more := done + [stmt];
      assert more[..|done|] == done;
      Execute(stmt);
    }

    method ProvisionRadiusCredentials(username: nat, plan: Plan, tenant: nat)
      modifies this`vouchers, this`radcheck, this`radreply
      ensures Tables() == ExecAll(old(Tables()), Provision(username, tenant, plan))
      ensures vouchers == old(vouchers) && Complete(Tables(), username, tenant, plan)
      ensures
                && Rows(radcheck, username, tenant) == [RadRow(username, tenant, CleartextPassword, Code(username))]
                && Rows(radreply, username, tenant)
                   == [RadRow(username, tenant, RateLimit, Mbps(plan.mbps)),
                       RadRow(username, tenant, SessionTimeout, Number(60 * plan.minutes))]
                      + (if plan.quotaMb.Some? && plan.quotaMb.value != 0
                         then [RadRow(username, tenant, TotalLimit, Number(1_048_576 * plan.quotaMb.value))] else [])
      ensures forall c: nat, t: nat :: (c, t) != (username, tenant) ==>
                Rows(radcheck, c, t) == Rows(old(radcheck), c, t) && Rows(radreply, c, t) == Rows(old(radreply), c, t)
    {
      ghost var db := Tables();
      SendCredentials(username, plan, tenant);
      ProvisionCompletes(db, username, tenant, plan);
      CompleteExactly(Tables(), username, tenant, plan);
    }

    /** The two deletes and the inserts, in order. */
    method SendCredentials(username: nat, plan: Plan, tenant: nat)
      modifies this`vouchers, this`radcheck, this`radreply
      ensures Tables() == ExecAll(old(Tables()), Provision(username, tenant, plan))
    {
      ghost var db, done := Tables(), [];
      done := Continue(DeleteCheck(username, tenant), db, done);
      done := Continue(DeleteReply(username, tenant), db, done);
      done := Continue(InsertCheck(RadRow(username, tenant, CleartextPassword, Code(username))), db, done);
      done := Continue(InsertReply(RadRow(username, tenant, RateLimit, Mbps(plan.mbps))), db, done);
      done := Continue(InsertReply(RadRow(username, tenant, SessionTimeout, Number(plan.minutes * 60))), db, done);
      if plan.quotaMb.Some? && plan.quotaMb.value != 0 {
        var limitBytes := plan.quotaMb.value * 1024 * 1024;
        done := Continue(InsertReply(RadRow(username, tenant, TotalLimit, Number(limitBytes))), db, done);
      }
      ProvisionShape(username, tenant, plan);
      assert done == Provision(username, tenant, plan);
    }

    method Insert(id: nat, voucher: Voucher)
      modifies this`vouchers
      ensures Tables() == Exec(old(Tables()), InsertVoucher(id, voucher))
      ensures vouchers == if exists other :: other in old(vouchers) && old(vouchers)[other].payment == voucher.payment
                          then old(vouchers) else old(vouchers)[id := voucher]
    {
      vouchers := Exec(Tables(), InsertVoucher(id, voucher)).vouchers;
    }

    /** The statements sent once the payment is found; the last one is refused if the payment has a voucher. */
    method IssueVoucher(id: nat, payment: nat, code: nat, tenant: nat, plan: Plan) returns (ok: bool)
      requires Enabled(Tables(), Generate(id, payment, code, tenant, plan))
      modifies this`vouchers, this`radcheck, this`radreply
      ensures var op := Generate(id, payment, code, tenant, plan);
              Tables() == ExecAll(old(Tables()), Script(old(Tables()), op))
      ensures ok == !PaymentUsed(old(vouchers), payment)
      ensures vouchers == if ok then old(vouchers)[id := Voucher(payment, tenant, code, Active, None, plan)]
                          else old(vouchers)
      ensures
                && Rows(radcheck, code, tenant) == [RadRow(code, tenant, CleartextPassword, Code(code))]
                && Rows(radreply, code, tenant)
                   == [RadRow(code, tenant, RateLimit, Mbps(plan.mbps)),
                       RadRow(code, tenant, SessionTimeout, Number(60 * plan.minutes))]
                      + (if plan.quotaMb.Some? && plan.quotaMb.value != 0
                         then [RadRow(code, tenant, TotalLimit, Number(1_048_576 * plan.quotaMb.value))] else [])
      ensures forall c: nat, t: nat :: (c, t) != (code, tenant) ==>
                Rows(radcheck, c, t) == Rows(old(radcheck), c, t) && Rows(radreply, c, t) == Rows(old(radreply), c, t)
    {
      ProvisionRadiusCredentials(code, plan, tenant);
      ok := !PaymentUsed(vouchers, payment);
      GenerateEnds(old(Tables()), id, payment, code, tenant, plan);
      Insert(id, Voucher(payment, tenant, code, Active, None, plan));
    }

    /**
     `package` is the plan joined to the payment, if the tenant has both; `guest` is the customer, if one with a guest
     address, whose password becomes the code. `id` and `code` are drawn fresh by the database and the generator.
     */
    method GenerateVoucher(id: nat, payment: nat, code: nat, tenant: nat, package: Option<Plan>, guest: Option<nat>)
        returns (r: Result<nat, GenerateError>)
      requires package.Some? ==> Enabled(Tables(), Generate(id, payment, code, tenant, package.value))
      modifies this
      ensures r == if package.None? then Err(PaymentNotFound)
                   else if PaymentUsed(old(vouchers), payment) then Err(DuplicatePayment) else Ok(code)
      ensures r == Err(DuplicatePayment) <==>
              package.Some? && exists other :: other in old(vouchers) && old(vouchers)[other].payment == payment
      ensures vouchers ==
              if r.Ok? then old(vouchers)[id := Voucher(payment, tenant, code, Active, None, package.value)]
              else old(vouchers)
      ensures package.None? ==> Tables() == old(Tables())
      ensures package.Some? ==>
                var op := Generate(id, payment, code, tenant, package.value);
                Tables() == ExecAll(old(Tables()), Script(old(Tables()), op))
      ensures package.Some? ==>
                var plan := package.value;
                && Rows(radcheck, code, tenant) == [RadRow(code, tenant, CleartextPassword, Code(code))]
                && Rows(radreply, code, tenant)
                   == [RadRow(code, tenant, RateLimit, Mbps(plan.mbps)),
                       RadRow(code, tenant, SessionTimeout, Number(60 * plan.minutes))]
                      + (if plan.quotaMb.Some? && plan.quotaMb.value != 0
                         then [RadRow(code, tenant, TotalLimit, Number(1_048_576 * plan.quotaMb.value))] else [])
      ensures forall c: nat, t: nat :: (c, t) != (code, tenant) ==>
                Rows(radcheck, c, t) == Rows(old(radcheck), c, t) && Rows(radreply, c, t) == Rows(old(radreply), c, t)
      ensures passwords == if r.Ok? && guest.Some? then old(passwords)[guest.value := code] else old(passwords)
    {
      if package.None? { return Err(PaymentNotFound); }
      var ok := IssueVoucher(id, payment, code, tenant, package.value);
      if !ok { return Err(DuplicatePayment); }
      if guest.Some? { passwords := passwords[guest.value := code]; }
      r := Ok(code);
    }

    method AdminRevokeVoucher(tenant: nat, id: nat) returns (found: bool)
      modifies this`vouchers, this`radcheck, this`radreply
      ensures Tables() == ExecAll(old(Tables()), Script(old(Tables()), Revoke(id, tenant)))
      ensures found == (id in old(vouchers) && old(vouchers)[id].tenant == tenant)
      ensures !found ==> Tables() == old(Tables())
      ensures found ==>
                var code := old(vouchers)[id].code;
                && vouchers == old(vouchers)[id := old(vouchers)[id].(status := Revoked)]
                && Rows(radcheck, code, tenant) == [] && Rows(radreply, code, tenant) == []
                && forall c: nat, t: nat :: (c, t) != (code, tenant) ==>
                     Rows(radcheck, c, t) == Rows(old(radcheck), c, t)
                     && Rows(radreply, c, t) == Rows(old(radreply), c, t)
    {
      if id !in vouchers || vouchers[id].tenant != tenant {
        return false;
      }
      ghost var db, done := Tables(), [];
      var code := vouchers[id].code;
      done := Continue(MarkRevoked(id, tenant), db, done);
      done := Continue(DeleteCheck(code, tenant), db, done);
      done := Continue(DeleteReply(code, tenant), db, done);
      assert done == Script(db, Revoke(id, tenant));
      Revoking(db, Tables(), id, tenant);
      found := true;
    }

    method AdminRetryVoucher(tenant: nat, id: nat, plan: Plan) returns (ok: bool)
      modifies this`vouchers, this`radcheck, this`radreply
      ensures Tables() == ExecAll(old(Tables()), Script(old(Tables()), RetryProvision(id, tenant, plan)))
      ensures ok == (id in old(vouchers) && old(vouchers)[id].tenant == tenant
              && old(vouchers)[id].status == PendingProvision)
      ensures !ok ==> Tables() == old(Tables())
      ensures ok ==>
                var code := old(vouchers)[id].code;
                && vouchers == old(vouchers)[id := old(vouchers)[id].(status := Active, plan := plan)]
                && Rows(radcheck, code, tenant) == [RadRow(code, tenant, CleartextPassword, Code(code))]
                && Rows(radreply, code, tenant)
                   == [RadRow(code, tenant, RateLimit, Mbps(plan.mbps)),
                       RadRow(code, tenant, SessionTimeout, Number(60 * plan.minutes))]
                      + (if plan.quotaMb.Some? && plan.quotaMb.value != 0
                         then [RadRow(code, tenant, TotalLimit, Number(1_048_576 * plan.quotaMb.value))] else [])
      ensures forall c: nat, t: nat :: (ok ==> (c, t) != (old(vouchers)[id].code, tenant)) ==>
                Rows(radcheck, c, t) == Rows(old(radcheck), c, t) && Rows(radreply, c, t) == Rows(old(radreply), c, t)
    {
      if id !in vouchers || vouchers[id].tenant != tenant {
        return false;
      }
      if vouchers[id].status != PendingProvision {
        return false;
      }
      var code := vouchers[id].code;
      ProvisionRadiusCredentials(code, plan, tenant);
      ExecAppend(old(Tables()), Provision(code, tenant, plan), [MarkActive(id, tenant, plan)]);
      Execute(MarkActive(id, tenant, plan));
      ok := true;
    }

    /** The part of the `UPDATE` from sessions that concerns one voucher; `firstStart` is its first session's start. */
    method ActivateVoucher(id: nat, firstStart: int, minutes: nat)
      modifies this`vouchers, this`radcheck, this`radreply
      ensures Tables() == Stopped(old(Tables()), Activate(id, firstStart + 60 * minutes), 1)
      ensures radcheck == old(radcheck) && radreply == old(radreply)
      ensures vouchers ==
              if id in old(vouchers) && old(vouchers)[id].expiresAt.None?
              then old(vouchers)[id := old(vouchers)[id].(expiresAt := Some(firstStart + 60 * minutes))]
              else old(vouchers)
    {
      ExecAllShort(Tables(), SetExpiry(id, firstStart + 60 * minutes));
      if id in vouchers && vouchers[id].expiresAt.None? {
        vouchers := vouchers[id := vouchers[id].(expiresAt := Some(firstStart + 60 * minutes))];
      }
    }

    method RemoveCredentials(code: nat, tenant: nat, ghost db: Db, ghost done: seq<Stmt>)
        returns (ghost more: seq<Stmt>)
      requires Tables() == ExecAll(db, done)
      modifies this`vouchers, this`radcheck, this`radreply
      ensures more == done + [DeleteCheck(code, tenant), DeleteReply(code, tenant)]
      ensures Tables() == ExecAll(db, more) && vouchers == old(vouchers)
    {
      more := Continue(DeleteCheck(code, tenant), db, done);
      more := Continue(DeleteReply(code, tenant), db, more);
      assert more == done + [DeleteCheck(code, tenant), DeleteReply(code, tenant)];
    }

    /** The statements of an expiry: the marking `UPDATE`, and two deletes for each row it has returned. */
    method SendExpiry(now: int, due: seq<nat>)
      requires Enabled(Tables(), Expire(now, due))
      modifies this`vouchers, this`radcheck, this`radreply
      ensures Tables() == ExecAll(old(Tables()), Script(old(Tables()), Expire(now, due)))
    {
      ghost var db, done := Tables(), [];
      done := Continue(MarkExpired(now), db, done);
      var i := 0;
      while i < |due|
        invariant 0 <= i <= |due|
        invariant done == [MarkExpired(now)] + Cleanup(db.vouchers, due[..i]) && Tables() == ExecAll(db, done)
        invariant vouchers == Exec(db, MarkExpired(now)).vouchers
      {
        var code, tenant := vouchers[due[i]].code, vouchers[due[i]].tenant;
        assert due[..i + 1][..i] == due[..i];
        done := RemoveCredentials(code, tenant, db, done);
        i := i + 1;
      }
      assert due[..|due|] == due;
    }

    /** The expiry part of `sync_radius_sessions_cron`; `due` is what the UPDATE returns, in some order. */
    method ExpireVouchers(now: int, due: seq<nat>)
      requires Enabled(Tables(), Expire(now, due))
      modifies this`vouchers, this`radcheck, this`radreply
      ensures Tables() == ExecAll(old(Tables()), Script(old(Tables()), Expire(now, due)))
      ensures vouchers.Keys == old(vouchers).Keys
      ensures forall id :: id in vouchers ==>
                var was := old(vouchers)[id];
                var over := (was.status == Active || was.status == Used)
                            && was.expiresAt.Some? && was.expiresAt.value <= now;
                && vouchers[id] == (if over then was.(status := Expired) else was)
                && (over ==> Rows(radcheck, was.code, was.tenant) == [] && Rows(radreply, was.code, was.tenant) == [])
      ensures forall c: nat, t: nat ::
                (forall id :: id in due ==> (old(vouchers)[id].code, old(vouchers)[id].tenant) != (c, t)) ==>
                  Rows(radcheck, c, t) == Rows(old(radcheck), c, t) && Rows(radreply, c, t) == Rows(old(radreply), c, t)
    {
      ghost var db := Tables();
      SendExpiry(now, due);
      ghost var after := Tables();
      ExpiringVouchers(db, after, now, due);
      forall id | id in db.vouchers && Due(db.vouchers[id], now)
        ensures NoRows(after, db.vouchers[id].code, db.vouchers[id].tenant)
      {
        ExpiringRows(db, after, now, due, id);
      }
      forall c: nat, t: nat | forall id :: id in due ==> (db.vouchers[id].code, db.vouchers[id].tenant) != (c, t)
        ensures Rows(after.radcheck, c, t) == Rows(db.radcheck, c, t)
        ensures Rows(after.radreply, c, t) == Rows(db.radreply, c, t)
      {
        ExpiringSpares(db, after, now, due, c, t);
      }
    }
  }
}
