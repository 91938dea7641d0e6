/** What every interleaving of wallet transactions guarantees. */
module WalletTheorems {
  import opened Common
  import opened WalletLedger
  import opened WalletConcurrency

  function Lines(ledger: seq<Entry>): (lines: seq<Line>)
    ensures |lines| == |ledger| && forall i :: 0 <= i < |ledger| ==> lines[i] == ledger[i].line
  {
    seq(|ledger|, i requires 0 <= i < |ledger| => ledger[i].line)
  }

  // ---------------------------------------------------------------- serialisability

  /** In serial order the newest row is the last one, so only the lines matter. */
  lemma {:induction false} BalanceByLines(a: seq<Entry>, b: seq<Entry>, key: Key)
    requires Ordered(a) && Ordered(b) && Lines(a) == Lines(b)
    ensures GetBalance(a, key) == GetBalance(b, key)
    ensures (Newest(a, key).None? <==> Newest(b, key).None?)
  {
    if a != [] {
      var n := |a| - 1;
      assert |b| == |a| && a[n].line == Lines(a)[n] == Lines(b)[n] == b[n].line;
      assert Lines(a[..n]) == Lines(a)[..n] == Lines(b)[..n] == Lines(b[..n]);
      BalanceByLines(a[..n], b[..n], key);
    }
  }

  lemma UsedByLines(a: seq<Entry>, b: seq<Entry>, reference: string)
    requires Lines(a) == Lines(b)
    ensures Used(a, reference) <==> Used(b, reference)
  {
    assert forall i :: 0 <= i < |a| ==> a[i].line == Lines(a)[i] == Lines(b)[i] == b[i].line;
  }

  lemma {:induction false} SerialOrdered(users: set<Key>, requests: seq<Request>)
    ensures Ordered(SerialLedger(users, requests))
    ensures forall e :: e in SerialLedger(users, requests) ==> e.seqId < |requests|
  {
    if requests != [] {
      SerialOrdered(users, requests[..|requests| - 1]);
    }
  }

  /** Row `i` continues the balance its reseller had before it. */
  ghost predicate Continues(ledger: seq<Entry>, journal: seq<Request>, i: nat)
    requires i < |ledger| == |journal|
  {
    var balance := GetBalance(ledger[..i], journal[i].key);
    ledger[i].line == MakeLine(journal[i], balance) && Sufficient(journal[i], balance)
  }

  ghost predicate Chained(ledger: seq<Entry>, journal: seq<Request>) {
    |ledger| == |journal| && forall i: nat :: i < |ledger| ==> Continues(ledger, journal, i)
  }

  ghost predicate JournalOk(s: State) {
    Chained(s.ledger, s.journal) && Lines(s.ledger) == Lines(SerialLedger(s.users, s.journal))
  }

  /** The request that `line` answers. */
  function RequestOf(line: Line): Request {
    Request(line.kind, line.key, line.amount, line.reference)
  }

  /** The row is what `topup_wallet` or `debit_wallet`, run alone now, would insert. */
  ghost predicate Admits(users: set<Key>, ledger: seq<Entry>, row: Entry) {
    Execute(users, ledger, RequestOf(row.line), row.seqId) == Ok(row)
  }

  lemma ExtendChain(users: set<Key>, ledger: seq<Entry>, journal: seq<Request>, row: Entry)
    requires Chained(ledger, journal) && Admits(users, ledger, row)
    ensures Chained(ledger + [row], journal + [RequestOf(row.line)])
  {
    var l, j := ledger + [row], journal + [RequestOf(row.line)];
    forall i: nat | i < |l| ensures Continues(l, j, i) {
      if i < |ledger| {
        assert Continues(ledger, journal, i) && l[..i] == ledger[..i];
      } else {
        assert l[..i] == ledger;
      }
    }
  }

  lemma ExtendSerial(users: set<Key>, ledger: seq<Entry>, journal: seq<Request>, row: Entry)
    requires Ordered(ledger) && Lines(ledger) == Lines(SerialLedger(users, journal)) && Admits(users, ledger, row)
    ensures Lines(ledger + [row]) == Lines(SerialLedger(users, journal + [RequestOf(row.line)]))
  {
    var req := RequestOf(row.line);
    var serial := SerialLedger(users, journal);
    SerialOrdered(users, journal);
    BalanceByLines(ledger, serial, req.key);
    UsedByLines(ledger, serial, req.reference);
    assert (journal + [req])[..|journal|] == journal;
    assert Execute(users, serial, req, |journal|) == Ok(Entry(|journal|, row.line));
    assert SerialLedger(users, journal + [req]) == serial + [Entry(|journal|, row.line)];
  }

  /** Only a commit changes what other transactions can see. */
  lemma OnlyCommitWrites(s: State, step: Step)
    requires Enabled(s, step) && !step.Commit?
    ensures var s' := Apply(s, step);
            && s'.users == s.users && s'.ledger == s.ledger && s'.journal == s.journal
            && s'.payments == s.payments && s'.vouchers == s.vouchers && s'.credentials == s.credentials
  {
  }

  lemma JournalKept(s: State, step: Step)
    requires Inv(s) && JournalOk(s) && Enabled(s, step)
    ensures JournalOk(Apply(s, step))
  {
    if step.Commit? {
      assert HasWritten(s, step.t);
      var row := s.txs[step.t].phase.row;
      ExtendChain(s.users, s.ledger, s.journal, row);
      ExtendSerial(s.users, s.ledger, s.journal, row);
    } else {
      OnlyCommitWrites(s, step);
    }
  }

  // ---------------------------------------------------------------- sales

  /** The committed debits, in commit order. */
  function Debits(ledger: seq<Entry>): seq<Line> {
    if ledger == [] then []
    else
      var n := |ledger| - 1;
      Debits(ledger[..n]) + (if ledger[n].line.kind == Debit then [ledger[n].line] else [])
  }

  ghost predicate SaleOf(debit: Line, p: Payment, v: Voucher, c: Credential) {
    && p.tenant == debit.key.tenant && p.amount == debit.amount && p.walletRef == debit.reference
    && v.payment == p.id && v.tenant == p.tenant
    && c.tenant == p.tenant && c.code == v.code
  }

  /** The i-th debit, payment, voucher and credential set belong together. */
  ghost predicate Aligned(s: State) {
    var debits := Debits(s.ledger);
    && |debits| == |s.payments| == |s.vouchers| == |s.credentials|
    && forall i :: 0 <= i < |debits| ==> SaleOf(debits[i], s.payments[i], s.vouchers[i], s.credentials[i])
  }

  /** What an open transaction has written so far fits its request. */
  ghost predicate SaleFits(tx: Tx)
    requires tx.phase.Wrote?
  {
    var sale := tx.phase.sale;
    && (tx.req.kind == Topup ==> sale.NoSale?)
    && (sale.Paid? ==> sale.payment == Payment(sale.payment.id, tx.req.key.tenant, tx.req.amount, tx.req.reference))
    && (sale.Issued? ==> SaleOf(tx.phase.row.line, sale.payment, sale.voucher, sale.credential))
  }

  ghost predicate PendingSalesOk(s: State) {
    forall t :: HasWritten(s, t) ==> SaleFits(s.txs[t])
  }

  ghost predicate SalesOk(s: State) {
    Aligned(s) && PendingSalesOk(s)
  }

  /** A step changes one transaction only. */
  lemma OthersKept(s: State, step: Step, u: nat)
    requires Enabled(s, step) && u != step.t
    ensures (u in s.txs <==> u in Apply(s, step).txs) && (u in s.txs ==> Apply(s, step).txs[u] == s.txs[u])
  {
  }

  lemma OwnSaleFits(s: State, step: Step)
    requires BalancesOk(s) && PendingSalesOk(s) && Enabled(s, step) && HasWritten(Apply(s, step), step.t)
    ensures SaleFits(Apply(s, step).txs[step.t])
  {
    assert step.Insert? || HasWritten(s, step.t);
  }

  lemma PendingSalesKept(s: State, step: Step)
    requires BalancesOk(s) && PendingSalesOk(s) && Enabled(s, step)
    ensures PendingSalesOk(Apply(s, step))
  {
    var s' := Apply(s, step);
    forall t | HasWritten(s', t) ensures SaleFits(s'.txs[t]) {
      if t == step.t {
        OwnSaleFits(s, step);
      } else {
        OthersKept(s, step, t);
        assert HasWritten(s, t);
      }
    }
  }

  lemma AlignedKept(s: State, step: Step)
    requires Inv(s) && Aligned(s) && PendingSalesOk(s) && Enabled(s, step)
    ensures Aligned(Apply(s, step))
  {
    if step.Commit? {
      assert HasWritten(s, step.t);
      assert Apply(s, step).ledger[..|s.ledger|] == s.ledger;
    } else {
      OnlyCommitWrites(s, step);
    }
  }

  ghost predicate IdsOk(s: State) {
    && (forall t :: t in s.txs ==> t < s.nextTx)
    && (forall p :: p in s.payments ==> p.id < s.nextTx && p.id !in s.txs)
    && (forall v :: v in s.vouchers ==> v.code < s.nextTx && v.code !in s.txs)
    && (forall i, j :: 0 <= i < j < |s.payments| ==> s.payments[i].id != s.payments[j].id)
    && (forall i, j :: 0 <= i < j < |s.vouchers| ==> s.vouchers[i].code != s.vouchers[j].code)
    && (forall t :: HasWritten(s, t) && !s.txs[t].phase.sale.NoSale? ==> s.txs[t].phase.sale.payment.id == t)
    && (forall t :: HasWritten(s, t) && s.txs[t].phase.sale.Issued? ==> s.txs[t].phase.sale.voucher.code == t)
  }

  lemma IdsKept(s: State, step: Step)
    requires IdsOk(s) && Enabled(s, step)
    ensures IdsOk(Apply(s, step))
  {
    var s' := Apply(s, step);
    forall t | HasWritten(s', t) ensures HasWritten(s, t) || step == Insert(t) {
    }
    if step.Commit? {
      assert HasWritten(s, step.t);
    } else {
      OnlyCommitWrites(s, step);
    }
  }

  // ---------------------------------------------------------------- money

  /** The sum of a reseller's committed top-ups or debits. */
  function Total(ledger: seq<Entry>, key: Key, kind: Kind): int {
    if ledger == [] then 0
    else
      var n := |ledger| - 1;
      var line := ledger[n].line;
      Total(ledger[..n], key, kind) + (if line.key == key && line.kind == kind then line.amount else 0)
  }

  /** The payment is paid by a debit of this reseller's wallet. */
  predicate PaidFrom(ledger: seq<Entry>, key: Key, p: Payment) {
    exists i :: 0 <= i < |ledger| && ledger[i].line.kind == Debit && ledger[i].line.key == key
      && ledger[i].line.reference == p.walletRef
  }

  /** The sum of the payments paid from a reseller's wallet. */
  function Spent(payments: seq<Payment>, ledger: seq<Entry>, key: Key): int {
    if payments == [] then 0
    else
      var n := |payments| - 1;
      Spent(payments[..n], ledger, key) + (if PaidFrom(ledger, key, payments[n]) then payments[n].amount else 0)
  }

  ghost predicate MoneyAddsUp(payments: seq<Payment>, ledger: seq<Entry>) {
    && (forall p :: p in payments ==> Used(ledger, p.walletRef))
    && forall key ::
         && GetBalance(ledger, key) == Total(ledger, key, Topup) - Total(ledger, key, Debit)
         && Total(ledger, key, Debit) == Spent(payments, ledger, key)
  }

  ghost predicate MoneyOk(s: State) {
    MoneyAddsUp(s.payments, s.ledger)
  }

  lemma PaidFromAppend(ledger: seq<Entry>, row: Entry, key: Key, p: Payment)
    ensures PaidFrom(ledger + [row], key, p) <==>
            PaidFrom(ledger, key, p) || (row.line.kind == Debit && row.line.key == key
              && row.line.reference == p.walletRef)
  {
    if PaidFrom(ledger, key, p) {
      var i :| 0 <= i < |ledger| && ledger[i].line.kind == Debit && ledger[i].line.key == key
        && ledger[i].line.reference == p.walletRef;
      assert (ledger + [row])[i] == ledger[i];
    }
    assert (ledger + [row])[|ledger|] == row;
  }

  lemma {:induction false} SpentFrame(payments: seq<Payment>, ledger: seq<Entry>, row: Entry, key: Key)
    requires forall p :: p in payments ==> p.walletRef != row.line.reference
    ensures Spent(payments, ledger + [row], key) == Spent(payments, ledger, key)
  {
    if payments != [] {
      var n := |payments| - 1;
      SpentFrame(payments[..n], ledger, row, key);
      PaidFromAppend(ledger, row, key, payments[n]);
    }
  }

  lemma CommitMoney(payments: seq<Payment>, ledger: seq<Entry>, row: Entry, sold: seq<Payment>, key: Key)
    requires GetBalance(ledger, key) == Total(ledger, key, Topup) - Total(ledger, key, Debit)
    requires Total(ledger, key, Debit) == Spent(payments, ledger, key)
    requires forall p :: p in payments ==> Used(ledger, p.walletRef)
    requires !Used(ledger, row.line.reference)
    requires row.line == MakeLine(RequestOf(row.line), GetBalance(ledger, row.line.key))
    requires forall e :: e in ledger && e.line.key == row.line.key ==> e.seqId < row.seqId
    requires if row.line.kind == Topup then sold == []
             else |sold| == 1 && sold[0].amount == row.line.amount && sold[0].walletRef == row.line.reference
    ensures var l := ledger + [row];
            && GetBalance(l, key) == Total(l, key, Topup) - Total(l, key, Debit)
            && Total(l, key, Debit) == Spent(payments + sold, l, key)
  {
    var l := ledger + [row];
    assert l[..|ledger|] == ledger;
    GetBalanceAppend(ledger, row, key);
    SpentFrame(payments, ledger, row, key);
    if row.line.kind == Debit {
      assert (payments + sold)[..|payments|] == payments;
      PaidFromAppend(ledger, row, key, sold[0]);
      if PaidFrom(ledger, key, sold[0]) {
        assert Used(ledger, row.line.reference);
      }
    } else {
      assert payments + sold == payments;
    }
  }

  lemma MoneyCommitted(payments: seq<Payment>, ledger: seq<Entry>, row: Entry, sold: seq<Payment>)
    requires MoneyAddsUp(payments, ledger) && !Used(ledger, row.line.reference)
    requires row.line == MakeLine(RequestOf(row.line), GetBalance(ledger, row.line.key))
    requires forall e :: e in ledger && e.line.key == row.line.key ==> e.seqId < row.seqId
    requires if row.line.kind == Topup then sold == []
             else |sold| == 1 && sold[0].amount == row.line.amount && sold[0].walletRef == row.line.reference
    ensures MoneyAddsUp(payments + sold, ledger + [row])
  {
    var l := ledger + [row];
    forall key
      ensures GetBalance(l, key) == Total(l, key, Topup) - Total(l, key, Debit)
      ensures Total(l, key, Debit) == Spent(payments + sold, l, key)
    {
      CommitMoney(payments, ledger, row, sold, key);
    }
    forall p | p in payments + sold ensures Used(l, p.walletRef) {
      UsedAppend(ledger, row, p.walletRef);
    }
  }

  lemma UsedAppend(ledger: seq<Entry>, row: Entry, reference: string)
    ensures Used(ledger + [row], reference) <==> Used(ledger, reference) || row.line.reference == reference
  {
    if Used(ledger, reference) {
      var i :| 0 <= i < |ledger| && ledger[i].line.reference == reference;
      assert (ledger + [row])[i] == ledger[i];
    }
    assert (ledger + [row])[|ledger|] == row;
  }

  lemma MoneyKept(s: State, step: Step)
    requires Inv(s) && SalesOk(s) && MoneyOk(s) && Enabled(s, step)
    ensures MoneyOk(Apply(s, step))
  {
    if step.Commit? {
      assert HasWritten(s, step.t);
      var row := s.txs[step.t].phase.row;
      var sale := s.txs[step.t].phase.sale;
      var sold := if sale.Issued? then [sale.payment] else [];
      assert SaleFits(s.txs[step.t]);
      assert Apply(s, step).payments == s.payments + sold;
      MoneyCommitted(s.payments, s.ledger, row, sold);
    } else {
      OnlyCommitWrites(s, step);
    }
  }

  // ---------------------------------------------------------------- every run

  ghost predicate FullInv(s: State) {
    Inv(s) && JournalOk(s) && SalesOk(s) && IdsOk(s) && MoneyOk(s)
  }

  /** The invariants hold after every interleaving of any number of transactions. */
  lemma {:induction false} Reachable(users: set<Key>, steps: seq<Step>, s: State)
    requires Runs(Init(users), steps, s)
    ensures FullInv(s) && s.users == users
    decreases |steps|
  {
    if steps != [] {
      var n := |steps| - 1;
      var mid :| Runs(Init(users), steps[..n], mid) && Enabled(mid, steps[n]) && Apply(mid, steps[n]) == s;
      Reachable(users, steps[..n], mid);
      InvKept(mid, steps[n]);
      JournalKept(mid, steps[n]);
      AlignedKept(mid, steps[n]);
      PendingSalesKept(mid, steps[n]);
      IdsKept(mid, steps[n]);
      MoneyKept(mid, steps[n]);
    }
  }

  /**
   Every interleaving serialises: the committed table reads, line for line, as if the committed
   requests had been run one at a time in commit order, none of them refused.
   */
  lemma InterleavingsSerialise(users: set<Key>, steps: seq<Step>, s: State)
    requires Runs(Init(users), steps, s)
    ensures |s.journal| == |s.ledger| == |SerialLedger(users, s.journal)|
    ensures Lines(s.ledger) == Lines(SerialLedger(users, s.journal))
    ensures forall i :: 0 <= i < |s.ledger| ==> RequestOf(s.ledger[i].line) == s.journal[i]
  {
    Reachable(users, steps, s);
    forall i: nat | i < |s.ledger| ensures RequestOf(s.ledger[i].line) == s.journal[i] {
      assert Continues(s.ledger, s.journal, i);
    }
    assert |Lines(s.ledger)| == |Lines(SerialLedger(users, s.journal))|;
  }

  /**
   The running balance: in `sequence_id` order, each row of a reseller is the balance of the row
   before it (0 for the first) plus or minus the amount.
   */
  lemma RunningBalance(users: set<Key>, steps: seq<Step>, s: State, i: nat)
    requires Runs(Init(users), steps, s) && i < |s.ledger|
    ensures var line := s.ledger[i].line;
            var balance := GetBalance(s.ledger[..i], line.key);
            match line.kind
            case Topup => line.balanceAfter == balance + line.amount
            case Debit => line.amount <= balance && line.balanceAfter == balance - line.amount
    ensures forall j :: 0 <= j < |s.ledger| && s.ledger[j].line.key == s.ledger[i].line.key ==>
              (j < i <==> s.ledger[j].seqId < s.ledger[i].seqId)
  {
    Reachable(users, steps, s);
    ChainedRow(s.ledger, s.journal, i);
  }

  lemma ChainedRow(ledger: seq<Entry>, journal: seq<Request>, i: nat)
    requires Ordered(ledger) && Chained(ledger, journal) && i < |ledger|
    ensures var line := ledger[i].line;
            var balance := GetBalance(ledger[..i], line.key);
            match line.kind
            case Topup => line.balanceAfter == balance + line.amount
            case Debit => line.amount <= balance && line.balanceAfter == balance - line.amount
    ensures forall j :: 0 <= j < |ledger| && ledger[j].line.key == ledger[i].line.key ==>
              (j < i <==> ledger[j].seqId < ledger[i].seqId)
  {
    assert Continues(ledger, journal, i);
  }

  /** No balance ever goes negative when no top-up is negative, whatever the debits ask for. */
  lemma {:induction false} NeverNegative(users: set<Key>, steps: seq<Step>, s: State)
    requires Runs(Init(users), steps, s)
    requires forall i :: 0 <= i < |s.journal| && s.journal[i].kind == Topup ==> 0 <= s.journal[i].amount
    ensures forall e :: e in s.ledger ==> 0 <= e.line.balanceAfter
  {
    Reachable(users, steps, s);
    NonNegativeChain(s.ledger, s.journal, |s.ledger|);
    assert s.ledger[..|s.ledger|] == s.ledger;
  }

  ghost predicate NonNegative(ledger: seq<Entry>) {
    forall e :: e in ledger ==> 0 <= e.line.balanceAfter
  }

  lemma NextNonNegative(ledger: seq<Entry>, req: Request, e: Entry)
    requires NonNegative(ledger) && (req.kind == Topup ==> 0 <= req.amount)
    requires e.line == MakeLine(req, GetBalance(ledger, req.key)) && Sufficient(req, GetBalance(ledger, req.key))
    ensures NonNegative(ledger + [e])
  {
    assert GetBalance(ledger, req.key) >= 0;
  }

  lemma {:induction false} NonNegativeChain(ledger: seq<Entry>, journal: seq<Request>, n: nat)
    requires Chained(ledger, journal) && n <= |ledger|
    requires forall i :: 0 <= i < |journal| && journal[i].kind == Topup ==> 0 <= journal[i].amount
    ensures NonNegative(ledger[..n])
  {
    if n != 0 {
      NonNegativeChain(ledger, journal, n - 1);
      assert Continues(ledger, journal, n - 1);
      NextNonNegative(ledger[..n - 1], journal[n - 1], ledger[n - 1]);
      assert ledger[..n] == ledger[..n - 1] + [ledger[n - 1]];
    }
  }

  /**
   Money is conserved: what a reseller topped up, each transaction id counted once, is the current
   balance plus the payments made from the wallet.
   */
  lemma MoneyConserved(users: set<Key>, steps: seq<Step>, s: State, key: Key)
    requires Runs(Init(users), steps, s)
    ensures Total(s.ledger, key, Topup) == GetBalance(s.ledger, key) + Spent(s.payments, s.ledger, key)
    ensures forall i, j :: 0 <= i < |s.ledger| && 0 <= j < |s.ledger| && i != j ==>
              s.ledger[i].line.reference != s.ledger[j].line.reference
  {
    Reachable(users, steps, s);
  }

  /** Each committed debit has exactly one payment, one voucher and one credential set; a rolled-back one has none. */
  lemma SalesPaired(users: set<Key>, steps: seq<Step>, s: State)
    requires Runs(Init(users), steps, s)
    ensures Aligned(s)
    ensures forall i, j :: 0 <= i < j < |s.payments| ==>
              s.payments[i].id != s.payments[j].id && s.vouchers[i].code != s.vouchers[j].code
              && s.vouchers[i].payment != s.vouchers[j].payment
  {
    Reachable(users, steps, s);
  }

  // ---------------------------------------------------------------- one transaction alone

  ghost predicate Quiet(s: State) {
    s.txs == map[] && s.locks == map[]
  }

  /** Only transaction `t` is open, it holds its lock, and it has inserted `row`. */
  ghost predicate WroteAlone(s: State, t: nat, req: Request, row: Entry) {
    s.txs == map[t := Tx(req, Wrote(row, NoSale))] && s.locks == map[req.key := t]
  }

  /** A lone top-up commits at once, a lone sale after its payment and its voucher; both leave exactly their row. */
  lemma AloneCommits(s: State, t: nat, req: Request, row: Entry)
    requires WroteAlone(s, t, req, row)
    ensures Enabled(s, Commit(t)) <==> req.kind == Topup
    ensures req.kind == Topup ==> Apply(s, Commit(t)).ledger == s.ledger + [row] && Quiet(Apply(s, Commit(t)))
    ensures req.kind == Debit ==>
              Enabled(s, InsertPayment(t)) &&
              var paid := Apply(s, InsertPayment(t));
              Enabled(paid, IssueVoucher(t)) &&
              var issued := Apply(paid, IssueVoucher(t));
              Enabled(issued, Commit(t)) &&
              Apply(issued, Commit(t)).ledger == s.ledger + [row] && Quiet(Apply(issued, Commit(t)))
  {
    if req.kind == Debit {
      var paid := Apply(s, InsertPayment(t));
      assert paid.txs.Keys == {t} && paid.locks == s.locks;
      var issued := Apply(paid, IssueVoucher(t));
      assert issued.txs.Keys == {t} && issued.locks == s.locks;
    }
  }

  /**
   With nothing else running, the statements of a transaction do what the service call does: they get past the lock
   and the INSERT exactly when the call succeeds, and it is the call's row that they insert.
   */
  lemma AloneIsTheServiceCall(s: State, req: Request)
    requires Quiet(s)
    ensures var t := s.nextTx;
            var call := Execute(s.users, s.ledger, req, s.nextSeq);
            var begun := Apply(s, Begin(t, req));
            && (Enabled(begun, Lock(t)) <==> req.key in s.users)
            && (req.key in s.users ==>
                  var locked := Apply(begun, Lock(t));
                  Enabled(locked, ReadBalance(t)) &&
                  var read := Apply(locked, ReadBalance(t));
                  && (Enabled(read, Insert(t)) <==> call.Ok?)
                  && (call.Ok? ==>
                        && Apply(read, Insert(t)).ledger == s.ledger
                        && WroteAlone(Apply(read, Insert(t)), t, req, call.value)))
  {
    var t := s.nextTx;
    var begun := Apply(s, Begin(t, req));
    assert begun.txs == map[t := Tx(req, Waiting)];
    if req.key in s.users {
      var locked := Apply(begun, Lock(t));
      assert locked.txs == map[t := Tx(req, Locked)] && locked.locks == map[req.key := t];
      var read := Apply(locked, ReadBalance(t));
      assert read.txs == map[t := Tx(req, Read(GetBalance(s.ledger, req.key)))];
      assert !PendingElsewhere(read, t, req.reference);
    }
  }
}
