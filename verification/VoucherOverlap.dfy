/**
 Voucher operations that overlap: each reads its row first and then sends its statements one by one, and other
 operations send theirs in between. No `UPDATE` of a status looks at the status again.
 */
module VoucherOverlap {
  import opened Common
  import opened RadiusCredentials
  import opened VoucherService

  /** An operation that has begun: its statements, how many are done, and the codes whose rows they write. */
  datatype Task = Task(op: Op, script: seq<Stmt>, pc: nat, codes: set<nat>)

  datatype World = World(db: Db, open: map<nat, Task>, nextCall: nat)

  datatype Event =
    | Begin(op: Op)
    | Do(c: nat)
    | Stop(c: nat)

  /** The voucher is the tenant's; a retry wants it pending. Ids and codes are drawn fresh. */
  predicate CanBegin(w: World, op: Op) {
    match op
    case Generate(id, _, code, _, _) =>
      && Enabled(w.db, op)
      && forall c :: c in w.open && w.open[c].op.Generate? ==> w.open[c].op.id != id && w.open[c].op.code != code
    case Revoke(id, tenant) => id in w.db.vouchers && w.db.vouchers[id].tenant == tenant
    case RetryProvision(id, tenant, _) =>
      id in w.db.vouchers && w.db.vouchers[id].tenant == tenant && w.db.vouchers[id].status == PendingProvision
    case Expire(_, _) => Enabled(w.db, op)
    case Activate(_, _) => true
  }

  predicate Can(w: World, e: Event) {
    match e
    case Begin(op) => CanBegin(w, op)
    case Do(c) => c in w.open && w.open[c].pc < |w.open[c].script|
    case Stop(c) => c in w.open
  }

  function CodesOf(db: Db, op: Op): set<nat> {
    match op
    case Generate(_, _, code, _, _) => {code}
    case Revoke(id, _) => if id in db.vouchers then {db.vouchers[id].code} else {}
    case RetryProvision(id, _, _) => if id in db.vouchers then {db.vouchers[id].code} else {}
    case Expire(_, due) => set id | id in due && id in db.vouchers :: db.vouchers[id].code
    case Activate(_, _) => {}
  }

  function Keep(w: World, c: nat, task: Task): map<nat, Task> {
    if task.pc == |task.script| then w.open - {c} else w.open[c := task]
  }

  /** Expiry and activation have no read of their own: they begin with their first `UPDATE`. */
  function Begun(w: World, op: Op): World
    requires CanBegin(w, op)
  {
    var pc := if op.Expire? || op.Activate? then 1 else 0;
    var task := Task(op, Script(w.db, op), pc, CodesOf(w.db, op));
    World(if pc == 1 then Exec(w.db, task.script[0]) else w.db, Keep(w, w.nextCall, task), w.nextCall + 1)
  }

  function Step(w: World, e: Event): World
    requires Can(w, e)
  {
    match e
    case Begin(op) => Begun(w, op)
    case Do(c) =>
      var task := w.open[c];
      World(Exec(w.db, task.script[task.pc]), Keep(w, c, task.(pc := task.pc + 1)), w.nextCall)
    case Stop(c) => w.(open := w.open - {c})
  }

  predicate Possible(w: World, events: seq<Event>)
    decreases |events|, 0
  {
    events == []
    || (Possible(w, events[..|events| - 1]) && Can(Run(w, events[..|events| - 1]), events[|events| - 1]))
  }

  function Run(w: World, events: seq<Event>): World
    requires Possible(w, events)
    decreases |events|, 1
  {
    if events == [] then w else Step(Run(w, events[..|events| - 1]), events[|events| - 1])
  }

  /**
   No operation is open, and the tables are any in which codes are distinct and active vouchers complete. Vouchers that
   are pending are among them: no statement here makes one.
   */
  ghost predicate Starts(first: World) {
    first.open == map[] && Inv(first.db)
  }

  /** Some interleaving of some operations leads here. */
  ghost predicate Reachable(w: World) {
    exists first: World, events: seq<Event> :: Starts(first) && Possible(first, events) && w == Run(first, events)
  }

  // ---------------------------------------------------------------- what every run keeps

  /** The only row of `vouchers` that a statement makes active. */
  predicate Activates(stmt: Stmt, id: nat) {
    (stmt.MarkActive? || stmt.InsertVoucher?) && stmt.id == id
  }

  /** The user whose RADIUS rows a statement writes. */
  function Username(stmt: Stmt): Option<nat> {
    match stmt
    case DeleteCheck(code, _) => Some(code)
    case DeleteReply(code, _) => Some(code)
    case InsertCheck(row) => Some(row.username)
    case InsertReply(row) => Some(row.username)
    case _ => None
  }

  /** The script of an operation whose voucher, if it has one, is there. */
  ghost predicate ScriptOk(db: Db, task: Task) {
    && task.pc < |task.script|
    && (forall i :: 0 <= i < |task.script| && Username(task.script[i]).Some? ==>
          Username(task.script[i]).value in task.codes)
    && match task.op
       case Generate(id, payment, code, tenant, plan) =>
         && task.codes == {code} && id !in db.vouchers
         && (forall other :: other in db.vouchers ==> db.vouchers[other].code != code)
         && task.script
            == Provision(code, tenant, plan) + [InsertVoucher(id, Voucher(payment, tenant, code, Active, None, plan))]
       case RetryProvision(id, tenant, plan) =>
         && id in db.vouchers && db.vouchers[id].tenant == tenant && task.codes == {db.vouchers[id].code}
         && task.script == Provision(db.vouchers[id].code, tenant, plan) + [MarkActive(id, tenant, plan)]
       case Revoke(id, tenant) =>
         && id in db.vouchers && db.vouchers[id].tenant == tenant && task.codes == {db.vouchers[id].code}
         && task.script == [MarkRevoked(id, tenant), DeleteCheck(db.vouchers[id].code, tenant),
                            DeleteReply(db.vouchers[id].code, tenant)]
       case Expire(_, _) =>
         && 1 <= task.pc
         && (forall i :: 1 <= i < |task.script| ==> task.script[i].DeleteCheck? || task.script[i].DeleteReply?)
         && (forall code :: code in task.codes ==> exists id :: id in db.vouchers && db.vouchers[id].code == code)
       case Activate(_, _) => false
  }

  ghost predicate Sound(w: World) {
    && CodesDistinct(w.db.vouchers)
    && (forall c :: c in w.open ==> c < w.nextCall && ScriptOk(w.db, w.open[c]))
    && (forall c, d :: c in w.open && d in w.open && c != d && w.open[c].op.Generate? && w.open[d].op.Generate? ==>
          w.open[c].op.id != w.open[d].op.id && w.open[c].op.code != w.open[d].op.code)
  }

  /** Codes and tenants stay, and a new voucher has the id and the code that were drawn for it. */
  ghost predicate Grows(before: map<nat, Voucher>, after: map<nat, Voucher>, drawn: set<nat>, codes: set<nat>) {
    && (forall id :: id in before ==>
          id in after && after[id].code == before[id].code && after[id].tenant == before[id].tenant)
    && (forall id :: id in after && id !in before ==> id in drawn && after[id].code in codes)
  }

  function Drawn(stmt: Stmt): set<nat> {
    if stmt.InsertVoucher? then {stmt.id} else {}
  }

  function DrawnCodes(stmt: Stmt): set<nat> {
    if stmt.InsertVoucher? then {stmt.voucher.code} else {}
  }

  lemma ExecGrows(db: Db, stmt: Stmt)
    requires stmt.InsertVoucher? ==> stmt.id !in db.vouchers
    ensures Grows(db.vouchers, Exec(db, stmt).vouchers, Drawn(stmt), DrawnCodes(stmt))
  {
  }

  lemma ScriptStays(before: Db, after: Db, task: Task, drawn: set<nat>, codes: set<nat>)
    requires ScriptOk(before, task) && Grows(before.vouchers, after.vouchers, drawn, codes)
    requires task.op.Generate? ==> task.op.id !in drawn && task.op.code !in codes
    ensures ScriptOk(after, task)
  {
    match task.op
    case Expire(_, _) =>
      forall code | code in task.codes ensures exists id :: id in after.vouchers && after.vouchers[id].code == code {
        var id :| id in before.vouchers && before.vouchers[id].code == code;
        assert id in after.vouchers && after.vouchers[id].code == code;
      }
    case _ =>
  }

  /** Which statement of an open operation is next. */
  function Next(task: Task): Stmt
    requires task.pc < |task.script|
  {
    task.script[task.pc]
  }

  /** Only a generation's last statement inserts, and it inserts what was drawn. */
  lemma NextDraws(db: Db, task: Task)
    requires ScriptOk(db, task)
    ensures Next(task).InsertVoucher? ==>
              && task.op.Generate? && Next(task).id == task.op.id && Next(task).voucher.code == task.op.code
              && task.pc + 1 == |task.script|
    ensures Next(task).MarkActive? ==>
              task.op.RetryProvision? && Next(task).id == task.op.id && task.pc + 1 == |task.script|
  {
    match task.op
    case Generate(_, _, code, tenant, plan) => ProvisionAbout(code, tenant, plan);
    case RetryProvision(id, tenant, plan) => ProvisionAbout(db.vouchers[id].code, tenant, plan);
    case _ =>
  }

  lemma DistinctStays(before: map<nat, Voucher>, after: map<nat, Voucher>, stmt: Stmt)
    requires CodesDistinct(before) && Grows(before, after, Drawn(stmt), DrawnCodes(stmt))
    requires stmt.InsertVoucher? ==> forall id :: id in before ==> before[id].code != stmt.voucher.code
    ensures CodesDistinct(after)
  {
  }

  lemma DoSound(w: World, c: nat)
    requires Sound(w) && Can(w, Do(c))
    ensures Sound(Step(w, Do(c)))
  {
    var w', task := Step(w, Do(c)), w.open[c];
    NextDraws(w.db, task);
    ExecGrows(w.db, Next(task));
    DistinctStays(w.db.vouchers, w'.db.vouchers, Next(task));
    forall d | d in w'.open ensures d < w'.nextCall && ScriptOk(w'.db, w'.open[d]) {
      ScriptStays(w.db, w'.db, w.open[d], Drawn(Next(task)), DrawnCodes(Next(task)));
    }
  }

  lemma BegunScript(db: Db, op: Op)
    requires Enabled(db, op) && !op.Activate? && (op.Revoke? || op.RetryProvision? ==> op.id in db.vouchers)
    requires op.Revoke? || op.RetryProvision? ==> db.vouchers[op.id].tenant == op.tenant
    requires op.RetryProvision? ==> db.vouchers[op.id].status == PendingProvision
    ensures Script(db, op) != []
    ensures op.Expire? && |Script(db, op)| > 1 ==> ScriptOk(db, Task(op, Script(db, op), 1, CodesOf(db, op)))
    ensures !op.Expire? ==> ScriptOk(db, Task(op, Script(db, op), 0, CodesOf(db, op)))
  {
    match op
    case Generate(_, _, code, tenant, plan) => ProvisionAbout(code, tenant, plan);
    case RetryProvision(id, tenant, plan) => ProvisionAbout(db.vouchers[id].code, tenant, plan);
    case Revoke(_, _) =>
    case Expire(_, _) => if |Script(db, op)| > 1 { BegunExpiry(db, op); }
  }

  lemma BegunExpiry(db: Db, op: Op)
    requires Enabled(db, op) && op.Expire? && |Script(db, op)| > 1
    ensures ScriptOk(db, Task(op, Script(db, op), 1, CodesOf(db, op)))
  {
    CleanupShape(db.vouchers, op.due);
    var script, codes := Script(db, op), CodesOf(db, op);
    forall i | 1 <= i < |script|
      ensures (script[i].DeleteCheck? || script[i].DeleteReply?) && Username(script[i]).value in codes
    {
      assert script[i] in Cleanup(db.vouchers, op.due);
      var id :| id in op.due && script[i].code == db.vouchers[id].code;
    }
    forall code | code in codes ensures exists id :: id in db.vouchers && db.vouchers[id].code == code {
      var id :| id in op.due && id in db.vouchers && db.vouchers[id].code == code;
    }
  }

  /** An operation that writes no voucher's code or tenant leaves every script as it is. */
  lemma SoundAfter(w: World, w': World)
    requires Sound(w) && Grows(w.db.vouchers, w'.db.vouchers, {}, {})
    requires w.nextCall <= w'.nextCall
    requires forall c :: c in w'.open ==>
               (c in w.open && w'.open[c] == w.open[c]) || (c < w'.nextCall && ScriptOk(w'.db, w'.open[c]))
    requires forall c, d :: c in w'.open && d in w'.open && c != d && w'.open[c].op.Generate? && w'.open[d].op.Generate?
               ==> w'.open[c].op.id != w'.open[d].op.id && w'.open[c].op.code != w'.open[d].op.code
    ensures Sound(w')
  {
    forall c | c in w'.open ensures c < w'.nextCall && ScriptOk(w'.db, w'.open[c]) {
      if c in w.open && w'.open[c] == w.open[c] {
        ScriptStays(w.db, w'.db, w.open[c], {}, {});
      }
    }
  }

  lemma BeginSound(w: World, op: Op)
    requires Sound(w) && Can(w, Begin(op))
    ensures Sound(Step(w, Begin(op)))
  {
    var w' := Step(w, Begin(op));
    if op.Activate? {
      ExecGrows(w.db, SetExpiry(op.id, op.expiresAt));
    } else {
      BegunScript(w.db, op);
      if op.Expire? {
        var task := Task(op, Script(w.db, op), 1, CodesOf(w.db, op));
        ExecGrows(w.db, MarkExpired(op.now));
        if |task.script| > 1 { ScriptStays(w.db, w'.db, task, {}, {}); }
      }
    }
    SoundAfter(w, w');
  }

  lemma StepSound(w: World, e: Event)
    requires Sound(w) && Can(w, e)
    ensures Sound(Step(w, e))
  {
    match e
    case Begin(op) => BeginSound(w, op);
    case Do(c) => DoSound(w, c);
    case Stop(_) => SoundAfter(w, Step(w, e));
  }

  lemma {:induction false} RunSound(w: World, events: seq<Event>)
    requires Sound(w) && Possible(w, events)
    ensures Sound(Run(w, events))
    decreases |events|
  {
    if events != [] {
      RunSound(w, events[..|events| - 1]);
      StepSound(Run(w, events[..|events| - 1]), events[|events| - 1]);
    }
  }

  lemma ReachableSound(w: World)
    requires Reachable(w)
    ensures Sound(w)
  {
    var first: World, events: seq<Event> :| Starts(first) && Possible(first, events) && w == Run(first, events);
    RunSound(first, events);
  }

  // ---------------------------------------------------------------- ended vouchers

  /** A retry that found the voucher pending is open. */
  predicate RetryOpen(w: World, id: nat) {
    exists c :: c in w.open && w.open[c].op.RetryProvision? && w.open[c].op.id == id
  }

  ghost predicate Over(w: World, id: nat) {
    Ended(w.db, id) && !RetryOpen(w, id)
  }

  lemma ExecKeepsEnded(db: Db, stmt: Stmt, id: nat)
    requires Ended(db, id) && !Activates(stmt, id)
    ensures Ended(Exec(db, stmt), id)
  {
  }

  lemma DoOver(w: World, c: nat, id: nat)
    requires Sound(w) && Can(w, Do(c)) && Over(w, id)
    ensures Over(Step(w, Do(c)), id)
  {
    NextDraws(w.db, w.open[c]);
    ExecKeepsEnded(w.db, Next(w.open[c]), id);
    assert forall d :: d in Step(w, Do(c)).open ==> d in w.open && Step(w, Do(c)).open[d].op == w.open[d].op;
  }

  /** No retry begins for a voucher that has ended. */
  lemma BeginOver(w: World, op: Op, id: nat)
    requires Sound(w) && Can(w, Begin(op)) && Over(w, id)
    ensures Over(Step(w, Begin(op)), id)
  {
    if op.Expire? { ExecKeepsEnded(w.db, MarkExpired(op.now), id); }
    if op.Activate? { ExecKeepsEnded(w.db, SetExpiry(op.id, op.expiresAt), id); }
    assert forall d :: d in Step(w, Begin(op)).open && d != w.nextCall ==>
        d in w.open && Step(w, Begin(op)).open[d] == w.open[d];
  }

  lemma StepOver(w: World, e: Event, id: nat)
    requires Sound(w) && Can(w, e) && Over(w, id)
    ensures Over(Step(w, e), id)
  {
    match e
    case Begin(op) => BeginOver(w, op, id);
    case Do(c) => DoOver(w, c, id);
    case Stop(_) =>
  }

  lemma {:induction false} OverForEver(w: World, events: seq<Event>, id: nat)
    requires Sound(w) && Over(w, id) && Possible(w, events)
    ensures Sound(Run(w, events)) && Over(Run(w, events), id)
    decreases |events|
  {
    if events != [] {
      OverForEver(w, events[..|events| - 1], id);
      StepSound(Run(w, events[..|events| - 1]), events[|events| - 1]);
      StepOver(Run(w, events[..|events| - 1]), events[|events| - 1], id);
    }
  }

  lemma Then(first: World, events: seq<Event>, w: World, e: Event) returns (longer: seq<Event>)
    requires Possible(first, events) && Run(first, events) == w && Can(w, e)
    ensures Possible(first, longer) && Run(first, longer) == Step(w, e) && longer == events + [e]
  {
    longer := events + [e];
    assert longer[..|events|] == events;
  }

  lemma VoucherStays(w: World, c: nat, id: nat)
    requires Sound(w) && Can(w, Do(c)) && id in w.db.vouchers
    ensures id in Step(w, Do(c)).db.vouchers
    ensures Step(w, Do(c)).db.vouchers[id].code == w.db.vouchers[id].code
    ensures Step(w, Do(c)).db.vouchers[id].tenant == w.db.vouchers[id].tenant
  {
    NextDraws(w.db, w.open[c]);
    ExecGrows(w.db, Next(w.open[c]));
  }

  predicate NoneBegins(events: seq<Event>) {
    forall k :: 0 <= k < |events| ==> !events[k].Begin?
  }

  /** An open retry sends its statements to the end and makes its voucher active. */
  lemma {:induction false} RetryFinishes(first: World, events: seq<Event>, w: World, c: nat)
      returns (longer: seq<Event>, w': World)
    requires Sound(w) && Possible(first, events) && Run(first, events) == w
    requires c in w.open && w.open[c].op.RetryProvision?
    ensures Possible(first, longer) && Run(first, longer) == w' && Sound(w')
    ensures NoneBegins(events) ==> NoneBegins(longer)
    ensures w.open[c].op.id in w'.db.vouchers && w'.db.vouchers[w.open[c].op.id].status == Active
    ensures w.open[c].op.id in w.db.vouchers
    ensures w'.db.vouchers[w.open[c].op.id].code == w.db.vouchers[w.open[c].op.id].code
    ensures w'.db.vouchers[w.open[c].op.id].tenant == w.db.vouchers[w.open[c].op.id].tenant
    ensures w'.open == w.open - {c} && w'.nextCall == w.nextCall
    decreases |w.open[c].script| - w.open[c].pc
  {
    var task := w.open[c];
    longer := Then(first, events, w, Do(c));
    w' := Step(w, Do(c));
    DoSound(w, c);
    NextDraws(w.db, task);
    VoucherStays(w, c, task.op.id);
    if task.pc + 1 == |task.script| {
      assert Next(task) == MarkActive(task.op.id, task.op.tenant, task.op.plan);
    } else {
      longer, w' := RetryFinishes(first, longer, w', c);
    }
  }

  ghost predicate Reactivates(w: World, events: seq<Event>, id: nat) {
    Possible(w, events) && !Ended(Run(w, events).db, id)
  }

  /** A revoked or expired voucher can become active again exactly while a retry is open that found it pending. */
  lemma {:induction false} ReactivatesExactlyWhen(w: World, id: nat)
    requires Reachable(w) && Ended(w.db, id)
    ensures (exists events :: Reactivates(w, events, id)) <==> RetryOpen(w, id)
  {
    ReachableSound(w);
    if RetryOpen(w, id) {
      var c :| c in w.open && w.open[c].op.RetryProvision? && w.open[c].op.id == id;
      var events, last := RetryFinishes(w, [], w, c);
      assert Reactivates(w, events, id);
    } else {
      forall events | Possible(w, events) ensures !Reactivates(w, events, id) {
        OverForEver(w, events, id);
      }
    }
  }

  // ---------------------------------------------------------------- complete credentials

  /** The user's rows once a provisioning has sent its first `pc` statements. */
  ghost predicate Progress(db: Db, code: nat, tenant: nat, plan: Plan, pc: nat) {
    && pc <= 3 + |ReplyRows(code, tenant, plan)|
    && (1 <= pc ==> Rows(db.radcheck, code, tenant) == if 3 <= pc then PasswordRows(code, tenant) else [])
    && (2 <= pc ==>
          Rows(db.radreply, code, tenant) == if 3 <= pc then ReplyRows(code, tenant, plan)[..pc - 3] else [])
  }

  lemma FinishedIsComplete(db: Db, code: nat, tenant: nat, plan: Plan)
    requires Progress(db, code, tenant, plan, |Provision(code, tenant, plan)|)
    ensures Complete(db, code, tenant, plan)
  {
    var rows := ReplyRows(code, tenant, plan);
    assert rows[..|rows|] == rows;
  }

  lemma ProvisionAt(code: nat, tenant: nat, plan: Plan, pc: nat)
    requires pc < |Provision(code, tenant, plan)|
    ensures |Provision(code, tenant, plan)| == 3 + |ReplyRows(code, tenant, plan)|
    ensures Provision(code, tenant, plan)[pc]
            == if pc == 0 then DeleteCheck(code, tenant) else if pc == 1 then DeleteReply(code, tenant)
               else if pc == 2 then InsertCheck(PasswordRows(code, tenant)[0])
               else InsertReply(ReplyRows(code, tenant, plan)[pc - 3])
  {
  }

  lemma ProgressStep(db: Db, code: nat, tenant: nat, plan: Plan, pc: nat)
    requires pc < |Provision(code, tenant, plan)| && Progress(db, code, tenant, plan, pc)
    ensures Progress(Exec(db, Provision(code, tenant, plan)[pc]), code, tenant, plan, pc + 1)
  {
    ProvisionAt(code, tenant, plan, pc);
    if pc < 2 {
      DeletedRows(db.radcheck, code, tenant, code, tenant);
      DeletedRows(db.radreply, code, tenant, code, tenant);
    } else if pc == 2 {
      InsertedRows(db.radcheck, PasswordRows(code, tenant)[0], code, tenant);
    } else {
      ReplyStep(db, ReplyRows(code, tenant, plan), code, tenant, pc - 3);
    }
  }

  lemma ReplyStep(db: Db, rows: seq<RadRow>, code: nat, tenant: nat, n: nat)
    requires n < |rows| && rows[n].username == code && rows[n].tenant == tenant
    requires Rows(db.radreply, code, tenant) == rows[..n]
    ensures Rows(Exec(db, InsertReply(rows[n])).radreply, code, tenant) == rows[..n + 1]
  {
    InsertedRows(db.radreply, rows[n], code, tenant);
  }

  /** A statement on another user's rows, or on none. */
  lemma OthersRows(db: Db, stmt: Stmt, code: nat, tenant: nat)
    requires Username(stmt) != Some(code)
    ensures Rows(Exec(db, stmt).radcheck, code, tenant) == Rows(db.radcheck, code, tenant)
    ensures Rows(Exec(db, stmt).radreply, code, tenant) == Rows(db.radreply, code, tenant)
  {
    OneOutlasts(db, stmt, code, tenant);
  }

  /** No other open operation writes rows of this code. */
  predicate Alone(w: World, c: nat, code: nat) {
    forall d :: d in w.open && d != c ==> code !in w.open[d].codes
  }

  /** Every voucher whose code is in the set has ended. */
  ghost predicate AllEnded(db: Db, codes: set<nat>) {
    forall id :: id in db.vouchers && db.vouchers[id].code in codes ==> Ended(db, id)
  }

  /** How far an operation is, when none has overlapped it. */
  ghost predicate TaskClean(w: World, c: nat, task: Task) {
    match task.op
    case Generate(_, _, code, tenant, plan) => Progress(w.db, code, tenant, plan, task.pc)
    case RetryProvision(id, tenant, plan) =>
      && id in w.db.vouchers && w.db.vouchers[id].status == PendingProvision
      && Progress(w.db, w.db.vouchers[id].code, tenant, plan, task.pc) && Alone(w, c, w.db.vouchers[id].code)
    case Revoke(id, _) => 1 <= task.pc ==> AllEnded(w.db, task.codes)
    case Expire(_, _) => AllEnded(w.db, task.codes)
    case Activate(_, _) => true
  }

  ghost predicate Clean(w: World) {
    && Sound(w) && ActiveComplete(w.db)
    && forall c :: c in w.open ==> TaskClean(w, c, w.open[c])
  }

  /** A generation's code is nobody else's. */
  lemma GenerateAlone(w: World, c: nat)
    requires Sound(w) && c in w.open && w.open[c].op.Generate?
    ensures Alone(w, c, w.open[c].op.code)
  {
    forall d | d in w.open && d != c ensures w.open[c].op.code !in w.open[d].codes {
      assert ScriptOk(w.db, w.open[c]) && ScriptOk(w.db, w.open[d]);
    }
  }

  /** The other statements write RADIUS rows, and a revocation's first marks its voucher. */
  lemma NextKinds(db: Db, task: Task)
    requires ScriptOk(db, task)
    ensures Next(task).InsertVoucher? || Next(task).MarkActive? || Username(Next(task)).Some?
            || (task.op.Revoke? && task.pc == 0 && Next(task) == MarkRevoked(task.op.id, task.op.tenant))
  {
    match task.op
    case Generate(_, _, code, tenant, plan) => ProvisionAbout(code, tenant, plan);
    case RetryProvision(id, tenant, plan) => ProvisionAbout(db.vouchers[id].code, tenant, plan);
    case _ =>
  }

  /** An operation writes only the row of a voucher whose code is its own. */
  lemma SparesRow(w: World, c: nat, id: nat)
    requires Sound(w) && c in w.open && id in w.db.vouchers && w.db.vouchers[id].code !in w.open[c].codes
    ensures id in Exec(w.db, Next(w.open[c])).vouchers
    ensures Exec(w.db, Next(w.open[c])).vouchers[id] == w.db.vouchers[id]
  {
    assert ScriptOk(w.db, w.open[c]);
    NextKinds(w.db, w.open[c]);
    NextDraws(w.db, w.open[c]);
  }

  /** An active voucher's code is no open operation's, but for a revocation that is about to mark it. */
  lemma ActiveApart(w: World, c: nat, id: nat)
    requires Clean(w) && c in w.open && id in w.db.vouchers && w.db.vouchers[id].status == Active
    ensures w.db.vouchers[id].code !in w.open[c].codes
            || (w.open[c].op.Revoke? && w.open[c].pc == 0 && w.open[c].op.id == id)
  {
    assert ScriptOk(w.db, w.open[c]) && TaskClean(w, c, w.open[c]);
  }

  /** An operation that goes on writes no RADIUS row of an active voucher. */
  lemma SparesActive(w: World, c: nat, id: nat)
    requires Clean(w) && c in w.open && id in w.db.vouchers && w.db.vouchers[id].status == Active
    ensures Username(Next(w.open[c])) != Some(w.db.vouchers[id].code)
  {
    assert ScriptOk(w.db, w.open[c]);
    ActiveApart(w, c, id);
  }

  /** Nor of a voucher or a code that another one is provisioning. */
  lemma SparesOther(w: World, c: nat, d: nat, code: nat)
    requires Sound(w) && c in w.open && d in w.open && c != d && Alone(w, d, code)
    ensures Username(Next(w.open[c])) != Some(code)
  {
    assert ScriptOk(w.db, w.open[c]);
  }

  lemma ProgressStays(db: Db, stmt: Stmt, code: nat, tenant: nat, plan: Plan, pc: nat)
    requires Progress(db, code, tenant, plan, pc) && Username(stmt) != Some(code)
    ensures Progress(Exec(db, stmt), code, tenant, plan, pc)
  {
    OthersRows(db, stmt, code, tenant);
  }

  /** Nothing that has ended is made active while its code is not the retry's. */
  lemma EndedStay(w: World, c: nat, codes: set<nat>)
    requires Clean(w) && c in w.open && AllEnded(w.db, codes)
    requires Next(w.open[c]).InsertVoucher? ==> Next(w.open[c]).voucher.code !in codes
    requires w.open[c].op.RetryProvision? ==> w.open[c].codes !! codes
    ensures AllEnded(Exec(w.db, Next(w.open[c])), codes)
  {
    var task := w.open[c];
    assert ScriptOk(w.db, task);
    NextDraws(w.db, task);
    ExecGrows(w.db, Next(task));
    var after := Exec(w.db, Next(task));
    forall id | id in after.vouchers && after.vouchers[id].code in codes ensures Ended(after, id) {
      assert id in w.db.vouchers;
      ExecKeepsEnded(w.db, Next(task), id);
    }
  }

  /** A pending voucher that is being provisioned is left alone by every other operation. */
  lemma StaysPending(w: World, c: nat, d: nat)
    requires Clean(w) && c in w.open && d in w.open && c != d && w.open[d].op.RetryProvision?
    ensures var id, after := w.open[d].op.id, Exec(w.db, Next(w.open[c]));
            id in w.db.vouchers && id in after.vouchers && after.vouchers[id] == w.db.vouchers[id]
  {
    assert TaskClean(w, d, w.open[d]);
    SparesRow(w, c, w.open[d].op.id);
  }

  lemma OtherRetry(w: World, c: nat, d: nat)
    requires Clean(w) && c in w.open && d in w.open && c != d && w.open[d].op.RetryProvision?
    ensures TaskClean(Step(w, Do(c)), d, w.open[d])
  {
    var op := w.open[d].op;
    assert TaskClean(w, d, w.open[d]);
    StaysPending(w, c, d);
    SparesOther(w, c, d, w.db.vouchers[op.id].code);
    ProgressStays(w.db, Next(w.open[c]), w.db.vouchers[op.id].code, op.tenant, op.plan, w.open[d].pc);
  }

  lemma OtherGenerate(w: World, c: nat, d: nat)
    requires Clean(w) && c in w.open && d in w.open && c != d && w.open[d].op.Generate?
    ensures TaskClean(Step(w, Do(c)), d, w.open[d])
  {
    var op := w.open[d].op;
    assert TaskClean(w, d, w.open[d]);
    GenerateAlone(w, d);
    SparesOther(w, c, d, op.code);
    ProgressStays(w.db, Next(w.open[c]), op.code, op.tenant, op.plan, w.open[d].pc);
  }

  /** A provisioning's code is in nobody else's codes. */
  lemma BuilderAlone(w: World, c: nat, d: nat)
    requires Clean(w) && c in w.open && d in w.open && c != d
    requires w.open[c].op.Generate? || w.open[c].op.RetryProvision?
    ensures w.open[c].codes !! w.open[d].codes
  {
    assert TaskClean(w, c, w.open[c]) && ScriptOk(w.db, w.open[c]);
    if w.open[c].op.Generate? { GenerateAlone(w, c); }
  }

  lemma OtherEnding(w: World, c: nat, d: nat)
    requires Clean(w) && c in w.open && d in w.open && c != d && AllEnded(w.db, w.open[d].codes)
    ensures AllEnded(Step(w, Do(c)).db, w.open[d].codes)
  {
    assert ScriptOk(w.db, w.open[c]);
    NextDraws(w.db, w.open[c]);
    if w.open[c].op.Generate? || w.open[c].op.RetryProvision? { BuilderAlone(w, c, d); }
    EndedStay(w, c, w.open[d].codes);
  }

  lemma OtherTask(w: World, c: nat, d: nat)
    requires Clean(w) && c in w.open && d in w.open && c != d
    ensures TaskClean(Step(w, Do(c)), d, w.open[d])
  {
    assert TaskClean(w, d, w.open[d]) && ScriptOk(w.db, w.open[d]);
    match w.open[d].op
    case Generate(_, _, _, _, _) => OtherGenerate(w, c, d);
    case RetryProvision(_, _, _) => OtherRetry(w, c, d);
    case Revoke(_, _) => if w.open[d].pc > 0 { OtherEnding(w, c, d); }
    case Expire(_, _) => OtherEnding(w, c, d);
  }

  lemma OwnGenerate(w: World, c: nat)
    requires Clean(w) && c in w.open && w.open[c].pc + 1 < |w.open[c].script| && w.open[c].op.Generate?
    ensures TaskClean(Step(w, Do(c)), c, w.open[c].(pc := w.open[c].pc + 1))
  {
    var task, op := w.open[c], w.open[c].op;
    assert TaskClean(w, c, task) && ScriptOk(w.db, task);
    assert Next(task) == Provision(op.code, op.tenant, op.plan)[task.pc];
    ProgressStep(w.db, op.code, op.tenant, op.plan, task.pc);
  }

  lemma RetryNext(db: Db, task: Task)
    requires ScriptOk(db, task) && task.op.RetryProvision? && task.pc + 1 < |task.script|
    ensures var code := db.vouchers[task.op.id].code;
            && task.pc < |Provision(code, task.op.tenant, task.op.plan)|
            && Next(task) == Provision(code, task.op.tenant, task.op.plan)[task.pc]
            && Exec(db, Next(task)).vouchers == db.vouchers
  {
    ProvisionAt(db.vouchers[task.op.id].code, task.op.tenant, task.op.plan, task.pc);
  }

  lemma RetryProgress(db: Db, task: Task, code: nat)
    requires ScriptOk(db, task) && task.op.RetryProvision? && task.pc + 1 < |task.script|
    requires code == db.vouchers[task.op.id].code && Progress(db, code, task.op.tenant, task.op.plan, task.pc)
    ensures Exec(db, Next(task)).vouchers == db.vouchers
    ensures Progress(Exec(db, Next(task)), code, task.op.tenant, task.op.plan, task.pc + 1)
  {
    RetryNext(db, task);
    ProgressStep(db, code, task.op.tenant, task.op.plan, task.pc);
  }

  lemma RetryAdvances(w: World, c: nat, db: Db)
    requires c in w.open && TaskClean(w, c, w.open[c]) && w.open[c].op.RetryProvision?
    requires w.open[c].pc + 1 < |w.open[c].script| && db == Exec(w.db, Next(w.open[c]))
    requires db.vouchers == w.db.vouchers
    requires var op := w.open[c].op;
             Progress(db, w.db.vouchers[op.id].code, op.tenant, op.plan, w.open[c].pc + 1)
    ensures TaskClean(Step(w, Do(c)), c, w.open[c].(pc := w.open[c].pc + 1))
  {
  }

  lemma OwnTask(w: World, c: nat)
    requires Clean(w) && c in w.open && w.open[c].pc + 1 < |w.open[c].script|
    ensures TaskClean(Step(w, Do(c)), c, w.open[c].(pc := w.open[c].pc + 1))
  {
    var task := w.open[c];
    assert TaskClean(w, c, task) && ScriptOk(w.db, task);
    match task.op
    case Generate(_, _, _, _, _) => OwnGenerate(w, c);
    case RetryProvision(id, _, _) =>
      RetryProgress(w.db, task, w.db.vouchers[id].code);
      RetryAdvances(w, c, Exec(w.db, Next(task)));
    case Revoke(_, _) => if task.pc > 0 { EndedStay(w, c, task.codes); }
    case Expire(_, _) => EndedStay(w, c, task.codes);
  }

  /** The vouchers that a statement has made active are the ones just provisioned. */
  lemma NewlyActive(w: World, c: nat, id: nat)
    requires Clean(w) && c in w.open
    requires var after := Exec(w.db, Next(w.open[c])).vouchers; id in after && after[id].status == Active
    requires id in w.db.vouchers ==> w.db.vouchers[id].status != Active
    ensures var after := Exec(w.db, Next(w.open[c]));
            Complete(after, after.vouchers[id].code, after.vouchers[id].tenant, after.vouchers[id].plan)
  {
    var task := w.open[c];
    assert TaskClean(w, c, task) && ScriptOk(w.db, task);
    NextDraws(w.db, task);
    NextKinds(w.db, task);
    if Next(task).InsertVoucher? {
      GeneratedIsComplete(w, c);
      NewlyInserted(w.db, Next(task), id);
    } else {
      assert Next(task).MarkActive?;
      RetriedIsComplete(w, c);
      NewlyMarked(w.db, Next(task), id);
    }
  }

  lemma NewlyInserted(db: Db, stmt: Stmt, id: nat)
    requires stmt.InsertVoucher? && Complete(db, stmt.voucher.code, stmt.voucher.tenant, stmt.voucher.plan)
    requires var after := Exec(db, stmt).vouchers; id in after && after[id].status == Active
    requires id in db.vouchers ==> db.vouchers[id].status != Active
    ensures var after := Exec(db, stmt);
            Complete(after, after.vouchers[id].code, after.vouchers[id].tenant, after.vouchers[id].plan)
  {
  }

  lemma NewlyMarked(db: Db, stmt: Stmt, id: nat)
    requires stmt.MarkActive? && stmt.id in db.vouchers && db.vouchers[stmt.id].tenant == stmt.tenant
    requires Complete(db, db.vouchers[stmt.id].code, stmt.tenant, stmt.plan)
    requires var after := Exec(db, stmt).vouchers; id in after && after[id].status == Active
    requires id in db.vouchers ==> db.vouchers[id].status != Active
    ensures var after := Exec(db, stmt);
            Complete(after, after.vouchers[id].code, after.vouchers[id].tenant, after.vouchers[id].plan)
  {
  }

  lemma GeneratedIsComplete(w: World, c: nat)
    requires Clean(w) && c in w.open && w.open[c].op.Generate? && w.open[c].pc + 1 == |w.open[c].script|
    ensures Complete(w.db, w.open[c].op.code, w.open[c].op.tenant, w.open[c].op.plan)
    ensures Next(w.open[c]).InsertVoucher? && Next(w.open[c]).voucher.code == w.open[c].op.code
            && Next(w.open[c]).voucher.tenant == w.open[c].op.tenant
            && Next(w.open[c]).voucher.plan == w.open[c].op.plan
  {
    var op := w.open[c].op;
    assert TaskClean(w, c, w.open[c]) && ScriptOk(w.db, w.open[c]);
    FinishedIsComplete(w.db, op.code, op.tenant, op.plan);
  }

  lemma RetriedIsComplete(w: World, c: nat)
    requires Clean(w) && c in w.open && w.open[c].op.RetryProvision? && w.open[c].pc + 1 == |w.open[c].script|
    ensures var op := w.open[c].op;
            && op.id in w.db.vouchers && w.db.vouchers[op.id].tenant == op.tenant
            && Complete(w.db, w.db.vouchers[op.id].code, op.tenant, op.plan)
            && Next(w.open[c]) == MarkActive(op.id, op.tenant, op.plan)
  {
    var op := w.open[c].op;
    assert TaskClean(w, c, w.open[c]) && ScriptOk(w.db, w.open[c]);
    FinishedIsComplete(w.db, w.db.vouchers[op.id].code, op.tenant, op.plan);
  }

  lemma ActiveStay(w: World, c: nat)
    requires Clean(w) && c in w.open
    ensures ActiveComplete(Exec(w.db, Next(w.open[c])))
  {
    var after := Exec(w.db, Next(w.open[c]));
    forall id | id in after.vouchers && after.vouchers[id].status == Active
      ensures Complete(after, after.vouchers[id].code, after.vouchers[id].tenant, after.vouchers[id].plan)
    {
      if id in w.db.vouchers && w.db.vouchers[id].status == Active {
        SparesActive(w, c, id);
        OthersRows(w.db, Next(w.open[c]), w.db.vouchers[id].code, w.db.vouchers[id].tenant);
        StaysAsItWas(w, c, id);
      } else {
        NewlyActive(w, c, id);
      }
    }
  }

  /** A voucher that is active before and after a statement has not been written. */
  lemma StaysAsItWas(w: World, c: nat, id: nat)
    requires Clean(w) && c in w.open && id in w.db.vouchers && w.db.vouchers[id].status == Active
    requires id in Exec(w.db, Next(w.open[c])).vouchers
    requires Exec(w.db, Next(w.open[c])).vouchers[id].status == Active
    ensures Exec(w.db, Next(w.open[c])).vouchers[id] == w.db.vouchers[id]
  {
    assert ScriptOk(w.db, w.open[c]);
    ActiveApart(w, c, id);
    if w.db.vouchers[id].code !in w.open[c].codes { SparesRow(w, c, id); }
  }

  lemma DoClean(w: World, c: nat)
    requires Clean(w) && Can(w, Do(c))
    ensures Clean(Step(w, Do(c)))
  {
    var w' := Step(w, Do(c));
    DoSound(w, c);
    ActiveStay(w, c);
    forall d | d in w'.open ensures TaskClean(w', d, w'.open[d]) {
      if d == c { OwnTask(w, c); } else { OtherTask(w, c, d); }
    }
  }

  // ---------------------------------------------------------------- beginning without overlap

  /** An open retry or revocation of this voucher; one that has revoked it already keeps retries out itself. */
  predicate Handles(w: World, c: nat, id: nat) {
    c in w.open && (w.open[c].op.RetryProvision? || w.open[c].op.Revoke?) && w.open[c].op.id == id
  }

  /** No retry begins while another retry or a revocation of its voucher is open, and no revocation while a retry is. */
  predicate Exclusive(w: World, e: Event) {
    && (e.Begin? && e.op.RetryProvision? ==> forall c :: c in w.open ==> !Handles(w, c, e.op.id))
    && (e.Begin? && e.op.Revoke? ==> !RetryOpen(w, e.op.id))
  }

  /** An operation that begins with a read leaves the tables and the others as they are. */
  lemma ReadClean(w: World, op: Op)
    requires Clean(w) && Can(w, Begin(op)) && !op.Expire? && !op.Activate?
    requires forall c :: c in w.open && w.open[c].op.RetryProvision? ==> w.open[c].codes !! CodesOf(w.db, op)
    requires TaskClean(w, w.nextCall, Task(op, Script(w.db, op), 0, CodesOf(w.db, op)))
    ensures Clean(Step(w, Begin(op)))
  {
    var w' := Step(w, Begin(op));
    BeginSound(w, op);
    BegunScript(w.db, op);
    forall d | d in w'.open ensures TaskClean(w', d, w'.open[d]) {
      if d != w.nextCall {
        assert TaskClean(w, d, w.open[d]) && ScriptOk(w.db, w.open[d]);
      }
    }
  }

  /** Whoever writes a pending voucher's rows is a retry or a revocation of it. */
  lemma PendingHandled(w: World, c: nat, id: nat)
    requires Clean(w) && c in w.open && id in w.db.vouchers && w.db.vouchers[id].status == PendingProvision
    requires w.db.vouchers[id].code in w.open[c].codes
    ensures Handles(w, c, id) && (w.open[c].op.Revoke? ==> w.open[c].pc == 0)
  {
    assert ScriptOk(w.db, w.open[c]) && TaskClean(w, c, w.open[c]);
  }

  lemma RetryClean(w: World, op: Op)
    requires Clean(w) && Can(w, Begin(op)) && op.RetryProvision? && Exclusive(w, Begin(op))
    ensures Clean(Step(w, Begin(op)))
  {
    forall c | c in w.open ensures w.db.vouchers[op.id].code !in w.open[c].codes {
      if w.db.vouchers[op.id].code in w.open[c].codes { PendingHandled(w, c, op.id); }
    }
    ReadClean(w, op);
  }

  lemma RevokeClean(w: World, op: Op)
    requires Clean(w) && Can(w, Begin(op)) && op.Revoke? && Exclusive(w, Begin(op))
    ensures Clean(Step(w, Begin(op)))
  {
    forall c | c in w.open && w.open[c].op.RetryProvision? ensures w.open[c].codes !! CodesOf(w.db, op) {
      assert ScriptOk(w.db, w.open[c]) && w.open[c].op.id != op.id;
    }
    ReadClean(w, op);
  }

  lemma GenerateClean(w: World, op: Op)
    requires Clean(w) && Can(w, Begin(op)) && op.Generate?
    ensures Clean(Step(w, Begin(op)))
  {
    forall c | c in w.open && w.open[c].op.RetryProvision? ensures w.open[c].codes !! CodesOf(w.db, op) {
      assert ScriptOk(w.db, w.open[c]);
    }
    ReadClean(w, op);
  }

  /** Marking the due vouchers, or starting one, leaves the other operations where they are. */
  lemma MarkedTask(w: World, stmt: Stmt, c: nat, open: map<nat, Task>)
    requires Clean(w) && c in w.open && (stmt.MarkExpired? || stmt.SetExpiry?)
    requires forall d :: d in open && d != c ==> d in w.open || open[d].codes !! w.open[c].codes
                                                 || !w.open[c].op.RetryProvision?
    requires forall d :: d in open && d in w.open ==> open[d] == w.open[d]
    ensures TaskClean(World(Exec(w.db, stmt), open, w.nextCall), c, w.open[c])
  {
    assert TaskClean(w, c, w.open[c]) && ScriptOk(w.db, w.open[c]);
    MarkedRows(w.db, stmt);
    if AllEnded(w.db, w.open[c].codes) { MarkedEnded(w.db, stmt, w.open[c].codes); }
  }

  lemma MarkedRows(db: Db, stmt: Stmt)
    requires stmt.MarkExpired? || stmt.SetExpiry?
    ensures Exec(db, stmt).radcheck == db.radcheck && Exec(db, stmt).radreply == db.radreply
    ensures Exec(db, stmt).vouchers.Keys == db.vouchers.Keys
    ensures forall id :: id in db.vouchers ==>
              && Exec(db, stmt).vouchers[id].code == db.vouchers[id].code
              && (db.vouchers[id].status == PendingProvision ==>
                    Exec(db, stmt).vouchers[id].status == PendingProvision)
  {
  }

  lemma MarkedEnded(db: Db, stmt: Stmt, codes: set<nat>)
    requires (stmt.MarkExpired? || stmt.SetExpiry?) && AllEnded(db, codes)
    ensures AllEnded(Exec(db, stmt), codes)
  {
    forall id | id in db.vouchers && db.vouchers[id].code in codes ensures Ended(Exec(db, stmt), id) {
      ExecKeepsEnded(db, stmt, id);
    }
  }

  lemma MarkedActive(w: World, stmt: Stmt)
    requires Clean(w) && (stmt.MarkExpired? || stmt.SetExpiry?)
    ensures ActiveComplete(Exec(w.db, stmt))
  {
  }

  /** The codes of the vouchers that are due are no retry's. */
  lemma DueApart(w: World, op: Op, c: nat)
    requires Clean(w) && Can(w, Begin(op)) && op.Expire? && c in w.open && w.open[c].op.RetryProvision?
    ensures w.open[c].codes !! CodesOf(w.db, op)
  {
    assert ScriptOk(w.db, w.open[c]) && TaskClean(w, c, w.open[c]);
    forall id | id in op.due ensures w.db.vouchers[id].code !in w.open[c].codes {
      assert Due(w.db.vouchers[id], op.now);
    }
  }

  lemma DueEnded(w: World, op: Op)
    requires Clean(w) && Can(w, Begin(op)) && op.Expire?
    ensures AllEnded(Exec(w.db, MarkExpired(op.now)), CodesOf(w.db, op))
  {
  }

  lemma UpdateClean(w: World, op: Op)
    requires Clean(w) && Can(w, Begin(op)) && (op.Expire? || op.Activate?)
    ensures Clean(Step(w, Begin(op)))
  {
    var w' := Step(w, Begin(op));
    var stmt := if op.Expire? then MarkExpired(op.now) else SetExpiry(op.id, op.expiresAt);
    BeginSound(w, op);
    MarkedActive(w, stmt);
    if op.Expire? { DueEnded(w, op); }
    forall d | d in w'.open ensures TaskClean(w', d, w'.open[d]) {
      if d in w.open {
        if op.Expire? && w.open[d].op.RetryProvision? { DueApart(w, op, d); }
        MarkedTask(w, stmt, d, w'.open);
      }
    }
  }

  lemma StepClean(w: World, e: Event)
    requires Clean(w) && Can(w, e) && Exclusive(w, e)
    ensures Clean(Step(w, e))
  {
    match e
    case Do(c) => DoClean(w, c);
    case Stop(c) =>
      StepSound(w, e);
      forall d | d in Step(w, e).open ensures TaskClean(Step(w, e), d, Step(w, e).open[d]) {
        assert TaskClean(w, d, w.open[d]);
      }
    case Begin(op) =>
      match op
      case Generate(_, _, _, _, _) => GenerateClean(w, op);
      case RetryProvision(_, _, _) => RetryClean(w, op);
      case Revoke(_, _) => RevokeClean(w, op);
      case _ => UpdateClean(w, op);
  }

  ghost predicate Exclusives(w: World, events: seq<Event>)
    requires Possible(w, events)
  {
    forall k: nat :: k < |events| && Possible(w, events[..k]) ==> Exclusive(Run(w, events[..k]), events[k])
  }

  lemma ExclusivesBefore(w: World, events: seq<Event>)
    requires Possible(w, events) && Exclusives(w, events) && events != []
    ensures Exclusives(w, events[..|events| - 1])
    ensures Exclusive(Run(w, events[..|events| - 1]), events[|events| - 1])
  {
    var n := |events| - 1;
    forall k: nat | k < n && Possible(w, events[..n][..k])
      ensures Exclusive(Run(w, events[..n][..k]), events[..n][k])
    {
      assert events[..n][..k] == events[..k];
    }
  }

  lemma {:induction false} CleanAlong(w: World, events: seq<Event>)
    requires Clean(w) && Possible(w, events) && Exclusives(w, events)
    ensures Clean(Run(w, events))
    decreases |events|
  {
    if events != [] {
      ExclusivesBefore(w, events);
      CleanAlong(w, events[..|events| - 1]);
      StepClean(Run(w, events[..|events| - 1]), events[|events| - 1]);
    }
  }

  /**
   However operations interleave and stop, each active voucher has exactly its credential set at every instant, as long
   as no retry of a voucher overlaps another retry or a revocation of it.
   */
  lemma {:induction false} CompleteWithoutOverlap(first: World, events: seq<Event>, id: nat)
    requires Starts(first) && Possible(first, events) && Exclusives(first, events)
    requires id in Run(first, events).db.vouchers && Run(first, events).db.vouchers[id].status == Active
    ensures var db := Run(first, events).db;
            var v := db.vouchers[id];
            && Rows(db.radcheck, v.code, v.tenant) == [RadRow(v.code, v.tenant, CleartextPassword, Code(v.code))]
            && Rows(db.radreply, v.code, v.tenant)
               == [RadRow(v.code, v.tenant, RateLimit, Mbps(v.plan.mbps)),
                   RadRow(v.code, v.tenant, SessionTimeout, Number(60 * v.plan.minutes))]
                  + (if v.plan.quotaMb.Some? && v.plan.quotaMb.value != 0
                     then [RadRow(v.code, v.tenant, TotalLimit, Number(1_048_576 * v.plan.quotaMb.value))] else [])
  {
    CleanAlong(first, events);
    var v := Run(first, events).db.vouchers[id];
    CompleteExactly(Run(first, events).db, v.code, v.tenant, v.plan);
  }

  // ---------------------------------------------------------------- and with overlap

  ghost predicate Spoils(w: World, events: seq<Event>) {
    Possible(w, events) && Exclusives(w, events) && !ActiveComplete(Run(w, events).db)
  }

  lemma NoneBeginsExclusive(w: World, events: seq<Event>)
    requires Possible(w, events) && NoneBegins(events)
    ensures Exclusives(w, events)
  {
  }

  /** The retry finishes, and then the other operation deletes the password that it has just inserted. */
  lemma {:induction false} DeletesAfter(first: World, before: seq<Event>, w: World, c: nat, d: nat)
      returns (events: seq<Event>)
    requires Sound(w) && Possible(first, before) && Run(first, before) == w && NoneBegins(before)
    requires c in w.open && d in w.open && c != d && w.open[c].op.RetryProvision? && Handles(w, d, w.open[c].op.id)
    requires w.open[d].pc == if w.open[d].op.Revoke? then 1 else 0
    ensures Spoils(first, events)
  {
    var id := w.open[c].op.id;
    var at;
    events, at := RetryFinishes(first, before, w, c);
    assert ScriptOk(at.db, at.open[d]) && at.open[d] == w.open[d];
    var v := at.db.vouchers[id];
    FirstDeletes(at.db, at.open[d]);
    DeletedRows(at.db.radcheck, v.code, v.tenant, v.code, v.tenant);
    events := Then(first, events, at, Do(d));
    var last := Step(at, Do(d));
    assert last.db.vouchers == at.db.vouchers && Rows(last.db.radcheck, v.code, v.tenant) == [];
    NoneBeginsExclusive(first, events);
  }

  lemma FirstDeletes(db: Db, task: Task)
    requires ScriptOk(db, task) && (task.op.Revoke? || task.op.RetryProvision?)
    requires task.pc == if task.op.Revoke? then 1 else 0
    ensures Next(task) == DeleteCheck(db.vouchers[task.op.id].code, db.vouchers[task.op.id].tenant)
  {
    if task.op.RetryProvision? {
      ProvisionAt(db.vouchers[task.op.id].code, task.op.tenant, task.op.plan, 0);
    }
  }

  /** A retry and another operation on its voucher, neither of which has revoked it or sent its first statement. */
  lemma {:induction false} SpoilBy(w: World, c: nat, d: nat)
    requires Sound(w) && c in w.open && d in w.open && c != d
    requires w.open[c].op.RetryProvision? && Handles(w, d, w.open[c].op.id) && w.open[d].pc == 0
    ensures exists events :: Spoils(w, events)
  {
    var events, at := [], w;
    if w.open[d].op.Revoke? {
      assert ScriptOk(w.db, w.open[d]);
      events := Then(w, events, w, Do(d));
      at := Step(w, Do(d));
      DoSound(w, d);
    }
    events := DeletesAfter(w, events, at, c, d);
  }

  /**
   From a state whose operations did not overlap so, an operation that begins can lead, with no further such overlap, to
   an active voucher without its credential set exactly when it is a retry whose voucher an open retry or revocation
   handles, or a revocation of one that an open retry does.
   */
  lemma {:induction false} SpoilsExactlyWhen(first: World, before: seq<Event>, op: Op)
    requires Starts(first) && Possible(first, before) && Exclusives(first, before)
    requires CanBegin(Run(first, before), op)
    ensures var w := Run(first, before);
            (exists events :: Spoils(Step(w, Begin(op)), events))
            <==> || (op.RetryProvision? && exists c :: Handles(w, c, op.id))
                 || (op.Revoke? && RetryOpen(w, op.id))
  {
    var w := Run(first, before);
    CleanAlong(first, before);
    var after := Step(w, Begin(op));
    if Exclusive(w, Begin(op)) {
      StepClean(w, Begin(op));
      forall events | Possible(after, events) && Exclusives(after, events) ensures !Spoils(after, events) {
        CleanAlong(after, events);
      }
    } else {
      BeginSound(w, op);
      BegunScript(w.db, op);
      if op.RetryProvision? {
        var c :| Handles(w, c, op.id);
        HandledPending(w, c, op.id);
        if w.open[c].op.Revoke? { SpoilBy(after, w.nextCall, c); } else { SpoilBy(after, c, w.nextCall); }
      } else {
        var c :| c in w.open && w.open[c].op.RetryProvision? && w.open[c].op.id == op.id;
        SpoilBy(after, c, w.nextCall);
      }
    }
  }

  lemma HandledPending(w: World, c: nat, id: nat)
    requires Clean(w) && Handles(w, c, id) && id in w.db.vouchers && w.db.vouchers[id].status == PendingProvision
    ensures w.open[c].op.Revoke? ==> w.open[c].pc == 0
  {
    assert ScriptOk(w.db, w.open[c]) && TaskClean(w, c, w.open[c]);
  }

  // ---------------------------------------------------------------- an operation alone

  /** With no other operation in between, the first `k` statements do what the one-at-a-time model says. */
  lemma {:induction false} AloneIsTheOperation(w: World, op: Op, k: nat) returns (events: seq<Event>, w': World)
    requires CanBegin(w, op) && Enabled(w.db, op) && w.nextCall !in w.open && k <= |Script(w.db, op)|
    requires op.Expire? || op.Activate? ==> 1 <= k
    ensures Possible(w, events) && w' == Run(w, events) && w'.db == Stopped(w.db, op, k)
    ensures k < |Script(w.db, op)| ==>
              w.nextCall in w'.open && w'.open[w.nextCall] == Task(op, Script(w.db, op), k, CodesOf(w.db, op))
    decreases k
  {
    var script := Script(w.db, op);
    if k == if op.Expire? || op.Activate? then 1 else 0 {
      assert Possible(w, []) && Run(w, []) == w && script[..0] == [];
      if k == 1 { LastStep(w.db, script, k); }
      events := Then(w, [], w, Begin(op));
      w' := Step(w, Begin(op));
    } else {
      var at;
      events, at := AloneIsTheOperation(w, op, k - 1);
      LastStep(w.db, script, k);
      events := Then(w, events, at, Do(w.nextCall));
      w' := Step(at, Do(w.nextCall));
    }
  }
}
