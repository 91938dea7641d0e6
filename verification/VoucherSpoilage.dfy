/**
 When the voucher operations that are open can still leave an active voucher without its credential set: the exact
 condition on what they have done and have left to do, and runs that end so.
 */
module VoucherSpoilage {
  import opened Common
  import opened RadiusCredentials
  import opened VoucherService
  import opened VoucherOverlap

  /** The voucher is active, and its RADIUS rows are not those of its plan. */
  ghost predicate Bare(db: Db, id: nat) {
    && id in db.vouchers && db.vouchers[id].status == Active
    && !Complete(db, db.vouchers[id].code, db.vouchers[id].tenant, db.vouchers[id].plan)
  }

  /** A statement on this user's rows is left to do. */
  predicate Writes(task: Task, code: nat, tenant: nat) {
    exists i :: task.pc <= i < |task.script| && About(task.script[i], code, tenant)
  }

  /** A revocation that is still to mark its voucher. */
  predicate MarksFirst(task: Task) {
    task.op.Revoke? && task.pc == 0
  }

  predicate Retries(w: World, c: nat, id: nat) {
    c in w.open && w.open[c].op.RetryProvision? && w.open[c].op.id == id
  }

  /** An open retry of the voucher finds the rows other than it left them. */
  ghost predicate Disturbed(w: World, c: nat, id: nat) {
    && Retries(w, c, id) && id in w.db.vouchers
    && var v, op := w.db.vouchers[id], w.open[c].op;
       !Progress(w.db, v.code, v.tenant, op.plan, w.open[c].pc)
  }

  /** An open retry of the voucher, and another operation that still writes its rows. */
  predicate Contended(w: World, c: nat, d: nat, id: nat) {
    && Retries(w, c, id) && id in w.db.vouchers && d in w.open && d != c
    && Writes(w.open[d], w.db.vouchers[id].code, w.db.vouchers[id].tenant)
  }

  /** An operation that still writes the rows of the active voucher, without marking it first. */
  predicate Endangers(w: World, d: nat, id: nat) {
    && id in w.db.vouchers && w.db.vouchers[id].status == Active && d in w.open && !MarksFirst(w.open[d])
    && Writes(w.open[d], w.db.vouchers[id].code, w.db.vouchers[id].tenant)
  }

  ghost predicate Doomed(w: World, id: nat) {
    || Bare(w.db, id)
    || (exists c :: Disturbed(w, c, id))
    || (exists c, d :: Contended(w, c, d, id))
    || (exists d :: Endangers(w, d, id))
  }

  // ---------------------------------------------------------------- what is not doomed stays so

  lemma RowsKept(db: Db, stmt: Stmt, code: nat, tenant: nat, plan: Plan, pc: nat)
    requires !About(stmt, code, tenant)
    ensures Progress(Exec(db, stmt), code, tenant, plan, pc) == Progress(db, code, tenant, plan, pc)
    ensures Complete(Exec(db, stmt), code, tenant, plan) == Complete(db, code, tenant, plan)
  {
    OneOutlasts(db, stmt, code, tenant);
  }

  /** The statement on a voucher's rows is a row statement of a retry, a revocation or an expiry. */
  lemma RowStatement(db: Db, task: Task, id: nat)
    requires ScriptOk(db, task) && CodesDistinct(db.vouchers) && id in db.vouchers
    requires About(Next(task), db.vouchers[id].code, db.vouchers[id].tenant)
    ensures Exec(db, Next(task)).vouchers == db.vouchers && !task.op.Generate? && !MarksFirst(task)
    ensures task.op.RetryProvision? ==> task.op.id == id && task.pc + 1 < |task.script|
  {
  }

  /** What a step leaves of the other operations, and of what its own has left to do. */
  lemma DoLeaves(w: World, c: nat, d: nat, code: nat, tenant: nat)
    requires Can(w, Do(c)) && d in Step(w, Do(c)).open
    ensures d in w.open && Step(w, Do(c)).open[d].op == w.open[d].op
    ensures d != c ==> Step(w, Do(c)).open[d] == w.open[d]
    ensures Writes(Step(w, Do(c)).open[d], code, tenant) ==> Writes(w.open[d], code, tenant)
  {
    var after := Step(w, Do(c)).open[d];
    if Writes(after, code, tenant) {
      var i :| after.pc <= i < |after.script| && About(after.script[i], code, tenant);
      assert About(w.open[d].script[i], code, tenant);
    }
  }

  /** The only retry of the voucher is then the one whose statement it is, and it goes on as it should. */
  lemma RowUndisturbed(w: World, c: nat, r: nat, id: nat)
    requires Sound(w) && Can(w, Do(c)) && id in w.db.vouchers && !Doomed(w, id)
    requires About(Next(w.open[c]), w.db.vouchers[id].code, w.db.vouchers[id].tenant)
    ensures !Disturbed(Step(w, Do(c)), r, id)
  {
    var w', v := Step(w, Do(c)), w.db.vouchers[id];
    assert ScriptOk(w.db, w.open[c]) && Writes(w.open[c], v.code, v.tenant);
    if Retries(w', r, id) {
      DoLeaves(w, c, r, v.code, v.tenant);
      assert !Contended(w, r, c, id) && !Disturbed(w, r, id);
      RowStatement(w.db, w.open[c], id);
      RetryProgress(w.db, w.open[c], v.code);
    }
  }

  /** A statement on the voucher's rows: its own retry's, or while no retry is open and the voucher not active. */
  lemma RowSafe(w: World, c: nat, id: nat)
    requires Sound(w) && Can(w, Do(c)) && id in w.db.vouchers && !Doomed(w, id)
    requires About(Next(w.open[c]), w.db.vouchers[id].code, w.db.vouchers[id].tenant)
    ensures !Doomed(Step(w, Do(c)), id)
  {
    var w', v := Step(w, Do(c)), w.db.vouchers[id];
    assert ScriptOk(w.db, w.open[c]);
    RowStatement(w.db, w.open[c], id);
    assert Writes(w.open[c], v.code, v.tenant);
    assert !Endangers(w, c, id);
    forall r ensures !Disturbed(w', r, id) { RowUndisturbed(w, c, r, id); }
    forall r, d ensures !Contended(w', r, d, id) {
      if Contended(w', r, d, id) {
        DoLeaves(w, c, r, v.code, v.tenant);
        DoLeaves(w, c, d, v.code, v.tenant);
        assert Contended(w, r, d, id);
      }
    }
  }

  /** A statement that writes neither the voucher nor its rows. */
  lemma AsideSafe(w: World, c: nat, id: nat)
    requires Sound(w) && Can(w, Do(c)) && id in w.db.vouchers && !Doomed(w, id)
    requires !About(Next(w.open[c]), w.db.vouchers[id].code, w.db.vouchers[id].tenant)
    requires id in Step(w, Do(c)).db.vouchers && Step(w, Do(c)).db.vouchers[id] == w.db.vouchers[id]
    requires !Retries(w, c, id) && (w.open[c].op.Revoke? && w.open[c].op.id == id ==> !MarksFirst(w.open[c]))
    ensures !Doomed(Step(w, Do(c)), id)
  {
    var w', v := Step(w, Do(c)), w.db.vouchers[id];
    RowsKept(w.db, Next(w.open[c]), v.code, v.tenant, v.plan, 0);
    forall r ensures !Disturbed(w', r, id) {
      if Retries(w', r, id) {
        DoLeaves(w, c, r, v.code, v.tenant);
        assert !Disturbed(w, r, id);
        RowsKept(w.db, Next(w.open[c]), v.code, v.tenant, w.open[r].op.plan, w.open[r].pc);
      }
    }
    forall r, d ensures !Contended(w', r, d, id) {
      if Contended(w', r, d, id) {
        DoLeaves(w, c, r, v.code, v.tenant);
        DoLeaves(w, c, d, v.code, v.tenant);
        assert Contended(w, r, d, id);
      }
    }
    forall d ensures !Endangers(w', d, id) {
      if Endangers(w', d, id) {
        DoLeaves(w, c, d, v.code, v.tenant);
        OtherMark(w, c, d, id);
        assert Endangers(w, d, id);
      }
    }
  }

  /** A revocation about to mark another voucher writes no rows of this one. */
  lemma OtherMark(w: World, c: nat, d: nat, id: nat)
    requires Sound(w) && Can(w, Do(c)) && id in w.db.vouchers && d in Step(w, Do(c)).open
    requires w.open[c].op.Revoke? && w.open[c].op.id == id ==> !MarksFirst(w.open[c])
    requires d in w.open && Writes(w.open[d], w.db.vouchers[id].code, w.db.vouchers[id].tenant)
    requires d != c ==> Step(w, Do(c)).open[d] == w.open[d]
    requires !MarksFirst(Step(w, Do(c)).open[d])
    ensures !MarksFirst(w.open[d])
  {
    assert ScriptOk(w.db, w.open[d]);
  }

  lemma RevokedSafe(w: World, c: nat, id: nat)
    requires Sound(w) && Can(w, Do(c)) && id in w.db.vouchers && !Doomed(w, id)
    requires MarksFirst(w.open[c]) && w.open[c].op.id == id
    ensures !Doomed(Step(w, Do(c)), id)
  {
    var w', v := Step(w, Do(c)), w.db.vouchers[id];
    assert ScriptOk(w.db, w.open[c]);
    assert About(w.open[c].script[1], v.code, v.tenant) && Writes(w.open[c], v.code, v.tenant);
    assert w'.db.vouchers[id].status == Revoked && w'.db.vouchers[id].code == v.code;
    forall r ensures !Retries(w', r, id) {
      if Retries(w', r, id) {
        DoLeaves(w, c, r, v.code, v.tenant);
        assert Contended(w, r, c, id);
      }
    }
  }

  lemma ActivatedSafe(w: World, c: nat, id: nat)
    requires Sound(w) && Can(w, Do(c)) && id in w.db.vouchers && !Doomed(w, id)
    requires Retries(w, c, id) && w.open[c].pc + 1 == |w.open[c].script|
    ensures !Doomed(Step(w, Do(c)), id)
  {
    var w', v, op := Step(w, Do(c)), w.db.vouchers[id], w.open[c].op;
    assert ScriptOk(w.db, w.open[c]) && !Disturbed(w, c, id);
    FinishedIsComplete(w.db, v.code, v.tenant, op.plan);
    assert w'.db == w.db.(vouchers := w.db.vouchers[id := v.(status := Active, plan := op.plan)]);
    forall r ensures !Disturbed(w', r, id) {
      if Retries(w', r, id) {
        DoLeaves(w, c, r, v.code, v.tenant);
        assert !Disturbed(w, r, id);
      }
    }
    forall d | d in w'.open ensures !Writes(w'.open[d], v.code, v.tenant) {
      DoLeaves(w, c, d, v.code, v.tenant);
      assert !Contended(w, c, d, id);
    }
  }

  lemma DoSafe(w: World, c: nat, id: nat)
    requires Sound(w) && Can(w, Do(c)) && id in w.db.vouchers && !Doomed(w, id)
    ensures !Doomed(Step(w, Do(c)), id)
  {
    var task, v := w.open[c], w.db.vouchers[id];
    assert ScriptOk(w.db, task);
    if About(Next(task), v.code, v.tenant) {
      RowSafe(w, c, id);
    } else if MarksFirst(task) && task.op.id == id {
      RevokedSafe(w, c, id);
    } else if Retries(w, c, id) {
      RetryNextAbout(w.db, task);
      ActivatedSafe(w, c, id);
    } else {
      SparesVoucher(w.db, task, id);
      AsideSafe(w, c, id);
    }
  }

  /** But for its last statement a retry writes its voucher's rows. */
  lemma RetryNextAbout(db: Db, task: Task)
    requires ScriptOk(db, task) && task.op.RetryProvision?
    ensures task.pc + 1 < |task.script| ==>
              About(Next(task), db.vouchers[task.op.id].code, db.vouchers[task.op.id].tenant)
  {
    ProvisionAbout(db.vouchers[task.op.id].code, task.op.tenant, task.op.plan);
  }

  lemma SparesVoucher(db: Db, task: Task, id: nat)
    requires ScriptOk(db, task) && id in db.vouchers
    requires !(MarksFirst(task) && task.op.id == id) && !(task.op.RetryProvision? && task.op.id == id)
    ensures id in Exec(db, Next(task)).vouchers && Exec(db, Next(task)).vouchers[id] == db.vouchers[id]
  {
    NextKinds(db, task);
    NextDraws(db, task);
  }

  lemma StopSafe(w: World, c: nat, id: nat)
    requires c in w.open && id in w.db.vouchers && !Doomed(w, id)
    ensures !Doomed(Step(w, Stop(c)), id)
  {
    var w' := Step(w, Stop(c));
    forall r ensures !Disturbed(w', r, id) { assert !Disturbed(w, r, id); }
    forall r, d ensures !Contended(w', r, d, id) { assert !Contended(w, r, d, id); }
    forall d ensures !Endangers(w', d, id) { assert !Endangers(w, d, id); }
  }

  lemma {:induction false} SafeAlong(w: World, events: seq<Event>, id: nat)
    requires Sound(w) && Possible(w, events) && NoneBegins(events) && id in w.db.vouchers && !Doomed(w, id)
    ensures Sound(Run(w, events)) && id in Run(w, events).db.vouchers && !Doomed(Run(w, events), id)
    decreases |events|
  {
    if events != [] {
      var n := |events| - 1;
      SafeAlong(w, events[..n], id);
      var at := Run(w, events[..n]);
      StepSound(at, events[n]);
      match events[n]
      case Do(c) =>
        VoucherStays(at, c, id);
        DoSafe(at, c, id);
      case Stop(c) => StopSafe(at, c, id);
    }
  }

  // ---------------------------------------------------------------- what is doomed can end so

  ghost predicate Ends(w: World, events: seq<Event>, id: nat) {
    Possible(w, events) && NoneBegins(events) && Bare(Run(w, events).db, id)
  }

  /** Any statement on complete rows spoils them. */
  lemma AnyWriteSpoils(db: Db, stmt: Stmt, code: nat, tenant: nat, plan: Plan)
    requires Complete(db, code, tenant, plan) && About(stmt, code, tenant)
    ensures !Complete(Exec(db, stmt), code, tenant, plan)
  {
    match stmt
    case DeleteCheck(_, _) => DeletedRows(db.radcheck, code, tenant, code, tenant);
    case DeleteReply(_, _) => DeletedRows(db.radreply, code, tenant, code, tenant);
    case InsertCheck(row) => InsertedRows(db.radcheck, row, code, tenant);
    case InsertReply(row) => InsertedRows(db.radreply, row, code, tenant);
  }

  /** Whoever still writes the rows of an active voucher, but not now, is an expiry with others to come first. */
  lemma LaterWriter(db: Db, task: Task, id: nat)
    requires ScriptOk(db, task) && CodesDistinct(db.vouchers) && id in db.vouchers && !MarksFirst(task)
    requires Writes(task, db.vouchers[id].code, db.vouchers[id].tenant)
    requires !About(Next(task), db.vouchers[id].code, db.vouchers[id].tenant)
    ensures task.op.Expire? && Exec(db, Next(task)).vouchers == db.vouchers && task.pc + 1 < |task.script|
    ensures Writes(task.(pc := task.pc + 1), db.vouchers[id].code, db.vouchers[id].tenant)
  {
    var v := db.vouchers[id];
    var i :| task.pc <= i < |task.script| && About(task.script[i], v.code, v.tenant);
    if task.op.RetryProvision? { RetryNextAbout(db, task); }
    assert About(task.(pc := task.pc + 1).script[i], v.code, v.tenant);
  }

  /** An operation goes on until it writes the rows of the active voucher. */
  lemma {:induction false} WriterSpoils(first: World, before: seq<Event>, w: World, d: nat, id: nat)
      returns (events: seq<Event>)
    requires Sound(w) && Possible(first, before) && Run(first, before) == w && NoneBegins(before)
    requires Endangers(w, d, id)
    ensures Ends(first, events, id)
    decreases |w.open[d].script| - w.open[d].pc
  {
    var v, task := w.db.vouchers[id], w.open[d];
    events := before;
    if Complete(w.db, v.code, v.tenant, v.plan) {
      assert ScriptOk(w.db, task);
      var w' := Step(w, Do(d));
      events := Then(first, before, w, Do(d));
      DoSound(w, d);
      if About(Next(task), v.code, v.tenant) {
        AnyWriteSpoils(w.db, Next(task), v.code, v.tenant, v.plan);
        RowStatement(w.db, task, id);
      } else {
        LaterWriter(w.db, task, id);
        events := WriterSpoils(first, events, w', d, id);
      }
    }
  }

  /** A provisioning that ends as it should has found the rows as it left them at every statement. */
  lemma ProgressBack(db: Db, code: nat, tenant: nat, plan: Plan, pc: nat)
    requires pc < |Provision(code, tenant, plan)|
    requires Progress(Exec(db, Provision(code, tenant, plan)[pc]), code, tenant, plan, pc + 1)
    ensures Progress(db, code, tenant, plan, pc)
  {
    ProvisionAt(code, tenant, plan, pc);
    if pc == 1 {
      DeletedRows(db.radreply, code, tenant, code, tenant);
    } else if pc == 2 {
      InsertedRows(db.radcheck, PasswordRows(code, tenant)[0], code, tenant);
    } else if pc > 2 {
      ReplyBack(db, ReplyRows(code, tenant, plan), code, tenant, pc - 3);
    }
  }

  lemma ReplyBack(db: Db, rows: seq<RadRow>, code: nat, tenant: nat, n: nat)
    requires n < |rows| && rows[n].username == code && rows[n].tenant == tenant
    requires Rows(Exec(db, InsertReply(rows[n])).radreply, code, tenant) == rows[..n + 1]
    ensures Rows(db.radreply, code, tenant) == rows[..n]
  {
    InsertedRows(db.radreply, rows[n], code, tenant);
    LastIsNew(Rows(db.radreply, code, tenant), rows, n);
  }

  lemma LastIsNew(had: seq<RadRow>, rows: seq<RadRow>, n: nat)
    requires n < |rows| && had + [rows[n]] == rows[..n + 1]
    ensures had == rows[..n]
  {
    assert had == (had + [rows[n]])[..|had|];
  }

  lemma CompleteIsFinished(db: Db, code: nat, tenant: nat, plan: Plan)
    requires Complete(db, code, tenant, plan)
    ensures Progress(db, code, tenant, plan, |Provision(code, tenant, plan)|)
  {
    var rows := ReplyRows(code, tenant, plan);
    assert rows[..|rows|] == rows;
  }

  lemma StaysDisturbed(db: Db, task: Task, v: Voucher)
    requires ScriptOk(db, task) && task.op.RetryProvision? && task.pc + 1 < |task.script|
    requires v == db.vouchers[task.op.id] && !Progress(db, v.code, v.tenant, task.op.plan, task.pc)
    ensures Exec(db, Next(task)).vouchers == db.vouchers
    ensures !Progress(Exec(db, Next(task)), v.code, v.tenant, task.op.plan, task.pc + 1)
  {
    RetryNext(db, task);
    if Progress(Exec(db, Next(task)), v.code, v.tenant, task.op.plan, task.pc + 1) {
      ProgressBack(db, v.code, v.tenant, task.op.plan, task.pc);
    }
  }

  /** So it is still disturbed after its next statement, or over with the wrong rows. */
  lemma DisturbedStep(w: World, c: nat, id: nat)
    requires Sound(w) && Disturbed(w, c, id)
    ensures Can(w, Do(c)) && Sound(Step(w, Do(c)))
    ensures w.open[c].pc + 1 < |w.open[c].script| ==>
              Disturbed(Step(w, Do(c)), c, id) && Step(w, Do(c)).open[c] == w.open[c].(pc := w.open[c].pc + 1)
    ensures w.open[c].pc + 1 == |w.open[c].script| ==> Bare(Step(w, Do(c)).db, id)
  {
    var v, task := w.db.vouchers[id], w.open[c];
    assert ScriptOk(w.db, task);
    DoSound(w, c);
    if task.pc + 1 < |task.script| {
      StaysDisturbed(w.db, task, v);
    } else if Complete(w.db, v.code, v.tenant, task.op.plan) {
      CompleteIsFinished(w.db, v.code, v.tenant, task.op.plan);
    }
  }

  /** A disturbed retry goes on to its end and makes its voucher active over the wrong rows. */
  lemma {:induction false} DisturbedSpoils(first: World, before: seq<Event>, w: World, c: nat, id: nat)
      returns (events: seq<Event>)
    requires Sound(w) && Possible(first, before) && Run(first, before) == w && NoneBegins(before)
    requires Disturbed(w, c, id)
    ensures Ends(first, events, id)
    decreases |w.open[c].script| - w.open[c].pc
  {
    DisturbedStep(w, c, id);
    events := Then(first, before, w, Do(c));
    if w.open[c].pc + 1 < |w.open[c].script| {
      events := DisturbedSpoils(first, events, Step(w, Do(c)), c, id);
    }
  }

  /** The other operation marks the voucher if it must, the retry finishes, and then the other one writes. */
  lemma {:induction false} ContendedSpoils(w: World, c: nat, d: nat, id: nat) returns (events: seq<Event>)
    requires Sound(w) && Contended(w, c, d, id)
    ensures Ends(w, events, id)
  {
    var at := w;
    events := [];
    assert ScriptOk(w.db, w.open[d]) && ScriptOk(w.db, w.open[c]);
    if MarksFirst(w.open[d]) {
      MarkLeavesWrites(w, d, id);
      events := Then(w, events, w, Do(d));
      at := Step(w, Do(d));
      DoSound(w, d);
    }
    events := FinishThenWrite(w, events, at, c, d, id);
  }

  lemma {:induction false} FinishThenWrite(first: World, before: seq<Event>, w: World, c: nat, d: nat, id: nat)
      returns (events: seq<Event>)
    requires Sound(w) && Possible(first, before) && Run(first, before) == w && NoneBegins(before)
    requires Contended(w, c, d, id) && !MarksFirst(w.open[d])
    ensures Ends(first, events, id)
  {
    var last;
    events, last := RetryFinishes(first, before, w, c);
    events := WriterSpoils(first, events, last, d, id);
  }

  lemma MarkLeavesWrites(w: World, d: nat, id: nat)
    requires Sound(w) && d in w.open && MarksFirst(w.open[d]) && id in w.db.vouchers
    requires Writes(w.open[d], w.db.vouchers[id].code, w.db.vouchers[id].tenant)
    ensures var w' := Step(w, Do(d));
            && id in w'.db.vouchers && w'.db.vouchers[id].code == w.db.vouchers[id].code
            && w'.db.vouchers[id].tenant == w.db.vouchers[id].tenant
            && d in w'.open && !MarksFirst(w'.open[d])
            && Writes(w'.open[d], w.db.vouchers[id].code, w.db.vouchers[id].tenant)
  {
    assert ScriptOk(w.db, w.open[d]);
    var v, task := w.db.vouchers[id], w.open[d];
    var i :| task.pc <= i < |task.script| && About(task.script[i], v.code, v.tenant);
    assert About(Step(w, Do(d)).open[d].script[i], v.code, v.tenant);
  }

  /**
   In any reachable state, however the operations have overlapped, those that are open can end with this voucher active
   and without its credential set exactly when it is so already, or an open retry of it finds the rows other than it
   left them, or an open retry of it has company that still writes its rows, or it is active and an operation that will
   not mark it first still writes its rows.
   */
  lemma {:induction false} OpenOnesSpoilExactlyWhen(w: World, id: nat)
    requires Reachable(w) && id in w.db.vouchers
    ensures (exists events :: Ends(w, events, id)) <==> Doomed(w, id)
  {
    ReachableSound(w);
    if Doomed(w, id) {
      var events := SomeEnd(w, id);
      assert Ends(w, events, id);
    } else {
      forall events | Possible(w, events) && NoneBegins(events) ensures !Ends(w, events, id) {
        SafeAlong(w, events, id);
      }
    }
  }

  lemma {:induction false} SomeEnd(w: World, id: nat) returns (events: seq<Event>)
    requires Sound(w) && id in w.db.vouchers && Doomed(w, id)
    ensures Ends(w, events, id)
  {
    if Bare(w.db, id) {
      events := [];
    } else if exists c :: Disturbed(w, c, id) {
      var c :| Disturbed(w, c, id);
      events := DisturbedSpoils(w, [], w, c, id);
    } else if exists c, d :: Contended(w, c, d, id) {
      var c, d :| Contended(w, c, d, id);
      events := ContendedSpoils(w, c, d, id);
    } else {
      var d :| Endangers(w, d, id);
      events := WriterSpoils(w, [], w, d, id);
    }
  }

  // ---------------------------------------------------------------- runs that go wrong

  /** One voucher that is pending, and no RADIUS rows. */
  function OnePending(): World {
    World(Db(map[0 := Voucher(0, 0, 7, PendingProvision, None, Plan(5, 60, None))], [], []), map[], 0)
  }

  /** A retry and a revocation of a pending voucher begin. */
  lemma BothBegin(first: World, id: nat, plan: Plan) returns (events: seq<Event>, w: World)
    requires Sound(first) && id in first.db.vouchers && first.db.vouchers[id].status == PendingProvision
    ensures Possible(first, events) && Run(first, events) == w && Sound(w) && w.db == first.db
    ensures var c, v := first.nextCall, first.db.vouchers[id];
            && c in w.open && w.open[c].op == RetryProvision(id, v.tenant, plan)
            && c + 1 in w.open && w.open[c + 1].op == Revoke(id, v.tenant) && w.open[c + 1].pc == 0
  {
    var v := first.db.vouchers[id];
    var retry, revoke := RetryProvision(id, v.tenant, plan), Revoke(id, v.tenant);
    BegunScript(first.db, retry);
    BegunScript(first.db, revoke);
    BeginSound(first, retry);
    events := Then(first, [], first, Begin(retry));
    var w1 := Step(first, Begin(retry));
    BeginSound(w1, revoke);
    events := Then(first, events, w1, Begin(revoke));
    w := Step(w1, Begin(revoke));
  }

  /** And the revocation marks it. */
  lemma RevokedMeanwhile(first: World, id: nat, plan: Plan) returns (events: seq<Event>, w: World)
    requires Sound(first) && id in first.db.vouchers && first.db.vouchers[id].status == PendingProvision
    ensures Possible(first, events) && Run(first, events) == w && Sound(w)
    ensures var c, v := first.nextCall, first.db.vouchers[id];
            && id in w.db.vouchers && w.db.vouchers[id] == v.(status := Revoked)
            && c in w.open && w.open[c].op == RetryProvision(id, v.tenant, plan)
            && c + 1 in w.open && w.open[c + 1].op == Revoke(id, v.tenant) && w.open[c + 1].pc == 1
  {
    var begun;
    events, begun := BothBegin(first, id, plan);
    var d := first.nextCall + 1;
    Marks(begun, d, id);
    events := Then(first, events, begun, Do(d));
    w := Step(begun, Do(d));
  }

  lemma Marks(w: World, d: nat, id: nat)
    requires Sound(w) && d in w.open && MarksFirst(w.open[d]) && w.open[d].op.id == id && id in w.db.vouchers
    ensures Can(w, Do(d)) && Sound(Step(w, Do(d)))
    ensures var w' := Step(w, Do(d));
            && id in w'.db.vouchers && w'.db.vouchers[id] == w.db.vouchers[id].(status := Revoked)
            && w'.open == w.open[d := w.open[d].(pc := 1)]
  {
    assert ScriptOk(w.db, w.open[d]);
    DoSound(w, d);
  }

  /** A run in which a revoked voucher becomes active again. */
  lemma RevokedAndActiveAgain() returns (w: World, events: seq<Event>)
    ensures Reachable(w) && 0 in w.db.vouchers && w.db.vouchers[0].status == Revoked
    ensures Possible(w, events) && 0 in Run(w, events).db.vouchers && Run(w, events).db.vouchers[0].status == Active
  {
    var before, last;
    before, w := RevokedMeanwhile(OnePending(), 0, Plan(5, 60, None));
    events, last := RetryFinishes(w, [], w, 0);
  }

  ghost predicate WithoutPassword(db: Db, id: nat) {
    && id in db.vouchers && db.vouchers[id].status == Active
    && Rows(db.radcheck, db.vouchers[id].code, db.vouchers[id].tenant) == []
  }

  /** From any pending voucher, a run that ends with the voucher active and its password row deleted. */
  lemma PasswordDeleted(first: World, id: nat, plan: Plan) returns (events: seq<Event>, w: World)
    requires Sound(first) && id in first.db.vouchers && first.db.vouchers[id].status == PendingProvision
    ensures Possible(first, events) && Run(first, events) == w && WithoutPassword(w.db, id)
  {
    var marked;
    events, marked := RevokedMeanwhile(first, id, plan);
    events, w := FinishAndDelete(first, events, marked, first.nextCall, first.nextCall + 1, id);
  }

  lemma FinishAndDelete(first: World, before: seq<Event>, marked: World, c: nat, d: nat, id: nat)
      returns (events: seq<Event>, w: World)
    requires Sound(marked) && Possible(first, before) && Run(first, before) == marked
    requires Retries(marked, c, id) && d in marked.open && d != c
    requires marked.open[d].op.Revoke? && marked.open[d].op.id == id && marked.open[d].pc == 1
    ensures Possible(first, events) && Run(first, events) == w && WithoutPassword(w.db, id)
  {
    var last;
    events, last := RetryFinishes(first, before, marked, c);
    SecondDeletes(last, d, id);
    events := Then(first, events, last, Do(d));
    w := Step(last, Do(d));
  }

  lemma SecondDeletes(w: World, d: nat, id: nat)
    requires Sound(w) && d in w.open && w.open[d].op.Revoke? && w.open[d].op.id == id && w.open[d].pc == 1
    requires id in w.db.vouchers && w.db.vouchers[id].status == Active
    ensures Can(w, Do(d)) && WithoutPassword(Step(w, Do(d)).db, id)
  {
    assert ScriptOk(w.db, w.open[d]);
    var v := w.db.vouchers[id];
    DeletedRows(w.db.radcheck, v.code, v.tenant, v.code, v.tenant);
  }

  /** Such a run from tables with one pending voucher. */
  lemma ActiveWithoutPassword() returns (w: World)
    ensures Reachable(w) && WithoutPassword(w.db, 0)
  {
    var events;
    events, w := PasswordDeleted(OnePending(), 0, Plan(5, 60, None));
    assert Starts(OnePending());
  }
}
