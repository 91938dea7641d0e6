/** A reseller's sale as the handler writes it: checks, then debit, payment and voucher in one transaction. */
module ResellerSale {
  import opened Common
  import opened WalletLedger
  import opened WalletConcurrency
  import opened WalletTheorems

  datatype Package = Package(price: int, isActive: bool)

  datatype SaleError =
    CustomerNotFound | PackageNotFound | PackageInactive | DebitRefused(reason: WalletError) | Interrupted

  /** The tables after a sale: one row in each of them. */
  function Sold(s: State, req: Request, row: Entry): State {
    var t := s.nextTx;
    s.(ledger := s.ledger + [row],
       payments := s.payments + [Payment(t, req.key.tenant, req.amount, req.reference)],
       vouchers := s.vouchers + [Voucher(t, req.key.tenant, t)],
       credentials := s.credentials + [Credential(req.key.tenant, t)],
       nextSeq := s.nextSeq + 1, nextTx := t + 1, journal := s.journal + [req])
  }

  lemma RunsOn(first: State, steps: seq<Step>, s: State, step: Step) returns (longer: seq<Step>)
    requires Runs(first, steps, s) && Enabled(s, step)
    ensures Runs(first, longer, Apply(s, step))
  {
    longer := steps + [step];
    assert longer[..|steps|] == steps;
  }

  /** What the last three steps of a lone sale write. */
  lemma RowsOfSale(s: State, t: nat, req: Request, row: Entry, wrote: State)
    requires Quiet(s) && req.kind == Debit && WroteAlone(wrote, t, req, row) && t == s.nextTx
    requires wrote == s.(txs := wrote.txs, locks := wrote.locks, nextSeq := s.nextSeq + 1, nextTx := t + 1)
    ensures Enabled(wrote, InsertPayment(t)) && Enabled(Apply(wrote, InsertPayment(t)), IssueVoucher(t))
    ensures var issued := Apply(Apply(wrote, InsertPayment(t)), IssueVoucher(t));
            Enabled(issued, Commit(t)) && Apply(issued, Commit(t)) == Sold(s, req, row)
  {
    AloneCommits(wrote, t, req, row);
    var issued := Apply(Apply(wrote, InsertPayment(t)), IssueVoucher(t));
    assert Quiet(Apply(issued, Commit(t)));
  }

  /** The first four steps of a lone sale leave it with its row inserted. */
  lemma SaleBegins(s: State, req: Request, row: Entry) returns (steps: seq<Step>, wrote: State)
    requires Quiet(s) && Execute(s.users, s.ledger, req, s.nextSeq) == Ok(row)
    ensures Runs(s, steps, wrote) && WroteAlone(wrote, s.nextTx, req, row)
    ensures wrote == s.(txs := wrote.txs, locks := wrote.locks, nextSeq := s.nextSeq + 1, nextTx := s.nextTx + 1)
  {
    var t := s.nextTx;
    AloneIsTheServiceCall(s, req);
    var begun := Apply(s, Begin(t, req));
    var locked := Apply(begun, Lock(t));
    var read := Apply(locked, ReadBalance(t));
    wrote := Apply(read, Insert(t));
    steps := RunsOn(s, [], s, Begin(t, req));
    steps := RunsOn(s, steps, begun, Lock(t));
    steps := RunsOn(s, steps, locked, ReadBalance(t));
    steps := RunsOn(s, steps, read, Insert(t));
  }

  /** The seven steps of a lone sale, run in order, make exactly its rows. */
  lemma SaleIsItsSteps(s: State, req: Request, row: Entry) returns (steps: seq<Step>)
    requires Quiet(s) && req.kind == Debit && Execute(s.users, s.ledger, req, s.nextSeq) == Ok(row)
    ensures Runs(s, steps, Sold(s, req, row))
  {
    var t := s.nextTx;
    var wrote;
    steps, wrote := SaleBegins(s, req, row);
    RowsOfSale(s, t, req, row, wrote);
    var paid := Apply(wrote, InsertPayment(t));
    var issued := Apply(paid, IssueVoucher(t));
    steps := RunsOn(s, steps, wrote, InsertPayment(t));
    steps := RunsOn(s, steps, paid, IssueVoucher(t));
    steps := RunsOn(s, steps, issued, Commit(t));
  }

  class Desk {
    const wallet: WalletTable
    var payments: seq<Payment>
    var vouchers: seq<Voucher>
    var credentials: seq<Credential>
    var nextTx: nat
    ghost var journal: seq<Request>

    ghost function Tables(): State
      reads this, wallet
    {
      State(wallet.users, wallet.ledger, payments, vouchers, credentials, map[], map[], wallet.nextSeq, nextTx, journal)
    }

    constructor (users: set<Key>)
      ensures Tables() == Init(users) && fresh(wallet)
    {
      wallet := new WalletTable(users);
      payments, vouchers, credentials, nextTx, journal := [], [], [], 0, [];
    }

    /**
     `reference` is the new voucher's id; `customerTenant` and `package` are what the two SELECTs find;
     `interrupted` says that a statement after the debit fails, so that the transaction is rolled back. A serial
     number that was drawn stays drawn.
     */
    method GenerateResellerVoucher(key: Key, customerTenant: Option<nat>, package: Option<Package>, reference: string,
                                   interrupted: bool) returns (r: Result<nat, SaleError>)
      modifies this, wallet
      ensures var sellable := customerTenant == Some(key.tenant) && package.Some? && package.value.isActive;
              if !sellable then r.Err? && !r.error.DebitRefused? && Tables() == old(Tables())
              else
                var req := Request(Debit, key, package.value.price, reference);
                var debit := Execute(wallet.users, old(wallet.ledger), req, old(wallet.nextSeq));
                var drawn := old(wallet.nextSeq) + (if Draws(debit) then 1 else 0);
                match debit
                case Err(reason) => r == Err(DebitRefused(reason)) && Tables() == old(Tables()).(nextSeq := drawn)
                case Ok(row) =>
                  if interrupted then r == Err(Interrupted) && Tables() == old(Tables()).(nextSeq := drawn)
                  else r == Ok(old(nextTx)) && Tables() == Sold(old(Tables()), req, row)
      ensures r == Err(CustomerNotFound) <==> customerTenant != Some(key.tenant)
      ensures r == Err(PackageNotFound) <==> customerTenant == Some(key.tenant) && package.None?
      ensures r == Err(PackageInactive) <==>
              customerTenant == Some(key.tenant) && package.Some? && !package.value.isActive
      ensures r == Err(DebitRefused(InsufficientBalance)) <==>
              && customerTenant == Some(key.tenant) && package.Some? && package.value.isActive
              && key in wallet.users && package.value.price > GetBalance(old(wallet.ledger), key)
      ensures r.Ok? ==>
                && package.Some? && r.value == old(nextTx) && nextTx == old(nextTx) + 1
                && payments == old(payments) + [Payment(r.value, key.tenant, package.value.price, reference)]
                && vouchers == old(vouchers) + [Voucher(r.value, key.tenant, r.value)]
                && credentials == old(credentials) + [Credential(key.tenant, r.value)]
                && wallet.ledger == old(wallet.ledger)
                     + [Entry(old(wallet.nextSeq),
                              Line(Debit, key, package.value.price,
                                   GetBalance(old(wallet.ledger), key) - package.value.price, reference))]
      ensures r.Err? ==>
                && payments == old(payments) && vouchers == old(vouchers) && credentials == old(credentials)
                && wallet.ledger == old(wallet.ledger) && nextTx == old(nextTx)
    {
      if customerTenant != Some(key.tenant) { return Err(CustomerNotFound); }
      if package.None? { return Err(PackageNotFound); }
      if !package.value.isActive { return Err(PackageInactive); }
      var before := wallet.ledger;
      var debit := wallet.DebitWallet(key, package.value.price, reference);
      if debit.Err? { return Err(DebitRefused(debit.error)); }
      if interrupted {
        wallet.ledger := before;
        return Err(Interrupted);
      }
      payments := payments + [Payment(nextTx, key.tenant, package.value.price, reference)];
      vouchers := vouchers + [Voucher(nextTx, key.tenant, nextTx)];
      credentials := credentials + [Credential(key.tenant, nextTx)];
      journal := journal + [Request(Debit, key, package.value.price, reference)];
      r := Ok(nextTx);
      nextTx := nextTx + 1;
    }
  }
}
