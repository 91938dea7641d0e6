/**
 Any number of top-ups and reseller sales running at once. Each SQL statement is one step;
 `FOR UPDATE` holds the reseller's row until the transaction ends; a reader sees committed
 rows only; a transaction can be rolled back at any moment.
 */
module WalletConcurrency {
  import opened WalletLedger

  // A transaction draws one payment id and one voucher code, both fresh and random in the
  // program; here they are named after the transaction, whose number is never reused.

  /** A `payments` row of a wallet sale; `walletRef` is the reference of its debit. */
  datatype Payment = Payment(id: nat, tenant: nat, amount: int, walletRef: string)

  datatype Voucher = Voucher(payment: nat, tenant: nat, code: nat)

  datatype Credential = Credential(tenant: nat, code: nat)

  /** What a sale has written after its debit. */
  datatype Sale = NoSale | Paid(payment: Payment) | Issued(payment: Payment, voucher: Voucher, credential: Credential)

  datatype Phase = Waiting | Locked | Read(balance: int) | Wrote(row: Entry, sale: Sale)

  datatype Tx = Tx(req: Request, phase: Phase)

  datatype State = State(
    users: set<Key>,
    ledger: seq<Entry>,            // committed rows, in commit order
    payments: seq<Payment>,
    vouchers: seq<Voucher>,
    credentials: seq<Credential>,
    locks: map<Key, nat>,
    txs: map<nat, Tx>,
    nextSeq: nat,
    nextTx: nat,
    journal: seq<Request>)         // committed requests, in commit order

  datatype Step =
    | Begin(t: nat, req: Request)
    | Lock(t: nat)
    | ReadBalance(t: nat)
    | Insert(t: nat)
    | InsertPayment(t: nat)
    | IssueVoucher(t: nat)
    | Commit(t: nat)
    | Rollback(t: nat, burned: bool)

  function Init(users: set<Key>): State {
    State(users, [], [], [], [], map[], map[], 0, 0, [])
  }

  predicate HasPhase(s: State, t: nat, phase: Phase) {
    t in s.txs && s.txs[t].phase == phase
  }

  predicate HasWritten(s: State, t: nat) {
    t in s.txs && s.txs[t].phase.Wrote?
  }

  /** Whether another open transaction has an uncommitted row with this reference. */
  ghost predicate PendingElsewhere(s: State, t: nat, reference: string) {
    exists u :: u != t && HasWritten(s, u) && s.txs[u].phase.row.line.reference == reference
  }

  ghost predicate Enabled(s: State, step: Step) {
    match step
    case Begin(t, req) => t == s.nextTx
    case Lock(t) => HasPhase(s, t, Waiting) && s.txs[t].req.key in s.users && s.txs[t].req.key !in s.locks
    case ReadBalance(t) => HasPhase(s, t, Locked)
    case Insert(t) =>
      t in s.txs && s.txs[t].phase.Read? &&
      var req := s.txs[t].req;
      var balance := s.txs[t].phase.balance;
      && Sufficient(req, balance)
      && Fits(req.amount) && Fits(After(req, balance))
      && !Used(s.ledger, req.reference)
      && !PendingElsewhere(s, t, req.reference)
    case InsertPayment(t) => HasWritten(s, t) && s.txs[t].req.kind == Debit && s.txs[t].phase.sale.NoSale?
    case IssueVoucher(t) => HasWritten(s, t) && s.txs[t].phase.sale.Paid?
    case Commit(t) => HasWritten(s, t) && (s.txs[t].req.kind == Topup || s.txs[t].phase.sale.Issued?)
    case Rollback(t, _) => t in s.txs
  }

  /** The open transactions and the locks after `t` has ended. */
  function Ended(s: State, t: nat): State
    requires t in s.txs
  {
    var key := s.txs[t].req.key;
    var locks := if key in s.locks && s.locks[key] == t then s.locks - {key} else s.locks;
    s.(txs := s.txs - {t}, locks := locks)
  }

  function SetPhase(s: State, t: nat, phase: Phase): State
    requires t in s.txs
  {
    s.(txs := s.txs[t := s.txs[t].(phase := phase)])
  }

  ghost function Apply(s: State, step: Step): State
    requires Enabled(s, step)
  {
    match step
    case Begin(t, req) => s.(txs := s.txs[t := Tx(req, Waiting)], nextTx := s.nextTx + 1)
    case Lock(t) => SetPhase(s, t, Locked).(locks := s.locks[s.txs[t].req.key := t])
    case ReadBalance(t) => SetPhase(s, t, Read(GetBalance(s.ledger, s.txs[t].req.key)))
    case Insert(t) =>
      var tx := s.txs[t];
      SetPhase(s, t, Wrote(Entry(s.nextSeq, MakeLine(tx.req, tx.phase.balance)), NoSale)).(nextSeq := s.nextSeq + 1)
    case InsertPayment(t) =>
      var tx := s.txs[t];
      var payment := Payment(t, tx.req.key.tenant, tx.req.amount, tx.req.reference);
      SetPhase(s, t, Wrote(tx.phase.row, Paid(payment)))
    case IssueVoucher(t) =>
      var tx := s.txs[t];
      var tenant := tx.req.key.tenant;
      var payment := tx.phase.sale.payment;
      var sale := Issued(payment, Voucher(payment.id, tenant, t), Credential(tenant, t));
      SetPhase(s, t, Wrote(tx.phase.row, sale))
    case Commit(t) =>
      var tx := s.txs[t];
      var sale := tx.phase.sale;
      Ended(s, t).(
        ledger := s.ledger + [tx.phase.row],
        payments := if sale.Issued? then s.payments + [sale.payment] else s.payments,
        vouchers := if sale.Issued? then s.vouchers + [sale.voucher] else s.vouchers,
        credentials := if sale.Issued? then s.credentials + [sale.credential] else s.credentials,
        journal := s.journal + [tx.req])
    case Rollback(t, burned) =>
      Ended(s, t).(nextSeq := if burned then s.nextSeq + 1 else s.nextSeq)
  }

  /** The state after running `steps` in order from `s`, when every one of them can run. */
  ghost predicate Runs(s: State, steps: seq<Step>, last: State)
    decreases |steps|
  {
    if steps == [] then s == last
    else
      var n := |steps| - 1;
      exists mid :: Runs(s, steps[..n], mid) && Enabled(mid, steps[n]) && Apply(mid, steps[n]) == last
  }

  // ---------------------------------------------------------------- the invariant

  ghost predicate Ordered(ledger: seq<Entry>) {
    forall i, j :: 0 <= i < j < |ledger| && ledger[i].line.key == ledger[j].line.key ==>
        ledger[i].seqId < ledger[j].seqId
  }

  ghost predicate LocksOk(s: State) {
    && (forall t :: t in s.txs ==> t < s.nextTx)
    && (forall k :: k in s.locks ==> s.locks[k] in s.txs && s.txs[s.locks[k]].req.key == k)
    && (forall t :: t in s.txs && !s.txs[t].phase.Waiting? ==>
          s.txs[t].req.key in s.users && s.txs[t].req.key in s.locks && s.locks[s.txs[t].req.key] == t)
  }

  ghost predicate SeqOk(s: State) {
    && Ordered(s.ledger)
    && (forall e :: e in s.ledger ==> e.seqId < s.nextSeq)
    && (forall t :: HasWritten(s, t) ==>
          && s.txs[t].phase.row.seqId < s.nextSeq
          && forall e :: e in s.ledger && e.line.key == s.txs[t].req.key ==> e.seqId < s.txs[t].phase.row.seqId)
  }

  ghost predicate RefsDistinct(ledger: seq<Entry>) {
    forall i, j :: 0 <= i < j < |ledger| ==> ledger[i].line.reference != ledger[j].line.reference
  }

  ghost predicate RefsOk(s: State) {
    && RefsDistinct(s.ledger)
    && (forall t :: HasWritten(s, t) ==>
          !Used(s.ledger, s.txs[t].phase.row.line.reference)
            && !PendingElsewhere(s, t, s.txs[t].phase.row.line.reference))
  }

  ghost predicate BalancesOk(s: State) {
    forall t :: t in s.txs ==>
      var tx := s.txs[t];
      var balance := GetBalance(s.ledger, tx.req.key);
      && (tx.phase.Read? ==> tx.phase.balance == balance)
      && (tx.phase.Wrote? ==>
            && tx.phase.row.line == MakeLine(tx.req, balance)
            && Sufficient(tx.req, balance) && Fits(tx.req.amount) && Fits(After(tx.req, balance)))
  }

  ghost predicate Inv(s: State) {
    LocksOk(s) && SeqOk(s) && RefsOk(s) && BalancesOk(s)
  }

  lemma GetBalanceAppend(ledger: seq<Entry>, e: Entry, key: Key)
    requires e.line.key == key ==> forall d :: d in ledger && d.line.key == key ==> d.seqId < e.seqId
    ensures GetBalance(ledger + [e], key) == if e.line.key == key then e.line.balanceAfter else GetBalance(ledger, key)
  {
    assert (ledger + [e])[..|ledger|] == ledger;
  }

  lemma EndedLocks(s: State, t: nat)
    requires LocksOk(s) && t in s.txs
    ensures LocksOk(Ended(s, t))
  {
  }

  lemma PhaseLocks(s: State, t: nat, phase: Phase)
    requires LocksOk(s) && t in s.txs && !s.txs[t].phase.Waiting?
    ensures LocksOk(SetPhase(s, t, phase))
  {
  }

  lemma LockedLocks(s: State, t: nat)
    requires LocksOk(s) && Enabled(s, Lock(t))
    ensures LocksOk(Apply(s, Lock(t)))
  {
  }

  lemma LocksKept(s: State, step: Step)
    requires LocksOk(s) && Enabled(s, step)
    ensures LocksOk(Apply(s, step))
  {
    match step
    case Begin(_, _) =>
    case Lock(t) => LockedLocks(s, t);
    case ReadBalance(t) => PhaseLocks(s, t, Apply(s, step).txs[t].phase);
    case Insert(t) => PhaseLocks(s, t, Apply(s, step).txs[t].phase);
    case InsertPayment(t) => PhaseLocks(s, t, Apply(s, step).txs[t].phase);
    case IssueVoucher(t) => PhaseLocks(s, t, Apply(s, step).txs[t].phase);
    case Commit(t) => EndedLocks(s, t);
    case Rollback(t, _) => EndedLocks(s, t);
  }

  /** `u` has written in both states, and the same row. */
  ghost predicate StillWrote(s: State, s': State, u: nat) {
    HasWritten(s, u) && HasWritten(s', u) && s'.txs[u].req == s.txs[u].req && s'.txs[u].phase.row == s.txs[u].phase.row
  }

  /** A written row is an old one, unless the step is its INSERT; a commit ends its writer. */
  lemma Writers(s: State, step: Step)
    requires Enabled(s, step)
    ensures var s' := Apply(s, step);
            && s.nextSeq <= s'.nextSeq
            && forall u :: HasWritten(s', u) && step != Insert(u) ==>
                StillWrote(s, s', u)
                && !(step.Commit? && step.t == u)
  {
  }

  lemma SeqCommitted(s: State, s': State, t: nat)
    requires LocksOk(s) && SeqOk(s) && HasWritten(s, t)
    requires s'.ledger == s.ledger + [s.txs[t].phase.row] && s'.nextSeq == s.nextSeq
    requires s.txs[t].phase.row.line.key == s.txs[t].req.key
    requires forall u :: HasWritten(s', u) ==> u != t && StillWrote(s, s', u)
    ensures SeqOk(s')
  {
    forall u | HasWritten(s', u)
      ensures s'.txs[u].phase.row.seqId < s'.nextSeq
      ensures forall e :: e in s'.ledger && e.line.key == s'.txs[u].req.key ==> e.seqId < s'.txs[u].phase.row.seqId
    {
      assert StillWrote(s, s', u) && s.txs[u].req.key != s.txs[t].req.key;
    }
  }

  lemma SeqUncommitted(s: State, s': State)
    requires SeqOk(s) && s'.ledger == s.ledger && s.nextSeq <= s'.nextSeq
    requires forall u :: HasWritten(s', u) ==>
               StillWrote(s, s', u) || (s'.txs[u].phase.row.seqId == s.nextSeq && s.nextSeq < s'.nextSeq)
    ensures SeqOk(s')
  {
  }

  lemma SeqKept(s: State, step: Step)
    requires LocksOk(s) && SeqOk(s) && BalancesOk(s) && Enabled(s, step)
    ensures SeqOk(Apply(s, step))
  {
    Writers(s, step);
    if step.Commit? {
      SeqCommitted(s, Apply(s, step), step.t);
    } else {
      SeqUncommitted(s, Apply(s, step));
    }
  }

  lemma RefsCommitted(s: State, s': State, t: nat)
    requires RefsOk(s) && HasWritten(s, t) && s'.ledger == s.ledger + [s.txs[t].phase.row]
    requires forall u :: HasWritten(s', u) ==> u != t && StillWrote(s, s', u)
    ensures RefsOk(s')
  {
    forall u | HasWritten(s', u)
      ensures !Used(s'.ledger, s'.txs[u].phase.row.line.reference)
      ensures !PendingElsewhere(s', u, s'.txs[u].phase.row.line.reference)
    {
      assert StillWrote(s, s', u);
    }
  }

  lemma RefsUncommitted(s: State, s': State, step: Step)
    requires RefsOk(s) && s'.ledger == s.ledger
    requires forall u :: HasWritten(s', u) && step != Insert(u) ==> StillWrote(s, s', u)
    requires step.Insert? && HasWritten(s', step.t) ==>
               var reference := s'.txs[step.t].phase.row.line.reference;
               !Used(s.ledger, reference) && !PendingElsewhere(s, step.t, reference)
    ensures RefsOk(s')
  {
    forall u, v | HasWritten(s', u) && HasWritten(s', v) && u != v
      ensures s'.txs[u].phase.row.line.reference != s'.txs[v].phase.row.line.reference
    {
      assert (step == Insert(u) || StillWrote(s, s', u)) && (step == Insert(v) || StillWrote(s, s', v));
    }
  }

  lemma RefsKept(s: State, step: Step)
    requires RefsOk(s) && Enabled(s, step)
    ensures RefsOk(Apply(s, step))
  {
    Writers(s, step);
    if step.Commit? {
      RefsCommitted(s, Apply(s, step), step.t);
    } else {
      RefsUncommitted(s, Apply(s, step), step);
    }
  }

  lemma BalancesKept(s: State, step: Step)
    requires LocksOk(s) && SeqOk(s) && BalancesOk(s) && Enabled(s, step)
    ensures BalancesOk(Apply(s, step))
  {
    var s' := Apply(s, step);
    if step.Commit? {
      var row := s.txs[step.t].phase.row;
      assert HasWritten(s, step.t);
      forall u | u in s'.txs && !s'.txs[u].phase.Waiting?
        ensures GetBalance(s'.ledger, s'.txs[u].req.key) == GetBalance(s.ledger, s.txs[u].req.key)
      {
        GetBalanceAppend(s.ledger, row, s.txs[u].req.key);
      }
    }
  }

  lemma {:induction false} InvKept(s: State, step: Step)
    requires Inv(s) && Enabled(s, step)
    ensures Inv(Apply(s, step))
  {
    LocksKept(s, step);
    SeqKept(s, step);
    RefsKept(s, step);
    BalancesKept(s, step);
  }
}
