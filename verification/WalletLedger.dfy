/**
 The reseller wallet: a running-balance ledger guarded by a row lock, and the sale that
 spends it. Amounts are in cents. The concurrent system interleaves the single SQL
 statements of any number of transactions; a transaction can be rolled back at any point.
 */
module WalletLedger {
  import opened Common

  /** A row of `users`: the ledger of a reseller is scoped by tenant. */
  datatype Key = Key(tenant: nat, reseller: nat)

  datatype Kind = Topup | Debit

  /** A call of `topup_wallet` or `debit_wallet`. */
  datatype Request = Request(kind: Kind, key: Key, amount: int, reference: string)

  /** What a `wallet_transactions` row says, apart from its serial number. */
  datatype Line = Line(kind: Kind, key: Key, amount: int, balanceAfter: int, reference: string)

  datatype Entry = Entry(seqId: nat, line: Line)

  datatype WalletError = ResellerNotFound | InsufficientBalance | OutOfRange | DuplicateReference

  // NUMERIC(10, 2) holds at most eight digits before the point.
  const LIMIT := 10_000_000_000

  predicate Fits(cents: int) {
    -LIMIT < cents < LIMIT
  }

  // ---------------------------------------------------------------- the serial operations

  /** `ORDER BY sequence_id DESC LIMIT 1` over the rows of `key`. */
  function Newest(ledger: seq<Entry>, key: Key): (r: Option<Entry>)
    ensures r.None? ==> forall e :: e in ledger ==> e.line.key != key
    ensures r.Some? ==> r.value in ledger && r.value.line.key == key
    ensures r.Some? ==> forall e :: e in ledger && e.line.key == key ==> e.seqId <= r.value.seqId
  {
    if ledger == [] then None
    else
      var e := ledger[|ledger| - 1];
      assert ledger == ledger[..|ledger| - 1] + [e];
      var rest := Newest(ledger[..|ledger| - 1], key);
      if e.line.key == key && (rest.None? || rest.value.seqId <= e.seqId) then Some(e) else rest
  }

  function GetBalance(ledger: seq<Entry>, key: Key): int {
    match Newest(ledger, key)
    case None => 0
    case Some(e) => e.line.balanceAfter
  }

  /** A reseller with no row has nothing; any other has what the row of the greatest serial number says. */
  lemma BalanceIsNewest(ledger: seq<Entry>, key: Key)
    ensures (forall e :: e in ledger ==> e.line.key != key) ==> GetBalance(ledger, key) == 0
    ensures (exists e :: e in ledger && e.line.key == key) ==>
              exists e ::
                && e in ledger && e.line.key == key && e.line.balanceAfter == GetBalance(ledger, key)
                && forall other :: other in ledger && other.line.key == key ==> other.seqId <= e.seqId
  {
    var newest := Newest(ledger, key);
    if newest.Some? { assert newest.value in ledger; }
  }

  predicate Used(ledger: seq<Entry>, reference: string) {
    exists i :: 0 <= i < |ledger| && ledger[i].line.reference == reference
  }

  function After(req: Request, balance: int): int {
    if req.kind == Topup then balance + req.amount else balance - req.amount
  }

  predicate Sufficient(req: Request, balance: int) {
    req.kind == Debit ==> req.amount <= balance
  }

  function MakeLine(req: Request, balance: int): Line {
    Line(req.kind, req.key, req.amount, After(req, balance), req.reference)
  }

  /** One whole call, run alone: the row it inserts, or the error it raises. */
  function Execute(users: set<Key>, ledger: seq<Entry>, req: Request, seqId: nat): Result<Entry, WalletError> {
    var balance := GetBalance(ledger, req.key);
    if req.key !in users then Err(ResellerNotFound)
    else if !Sufficient(req, balance) then Err(InsufficientBalance)
    else if !Fits(req.amount) || !Fits(After(req, balance)) then Err(OutOfRange)
    else if Used(ledger, req.reference) then Err(DuplicateReference)
    else Ok(Entry(seqId, MakeLine(req, balance)))
  }

  /** A row of a new serial number is its reseller's newest, and nobody else's. */
  lemma NewestAppended(ledger: seq<Entry>, row: Entry)
    requires forall e :: e in ledger ==> e.seqId < row.seqId
    ensures GetBalance(ledger + [row], row.line.key) == row.line.balanceAfter
    ensures forall other :: other != row.line.key ==> GetBalance(ledger + [row], other) == GetBalance(ledger, other)
  {
    assert (ledger + [row])[..|ledger|] == ledger;
  }

  lemma Appended(before: seq<Entry>, after: seq<Entry>, key: Key, r: Result<Entry, WalletError>)
    requires after == if r.Ok? then before + [r.value] else before
    requires r.Ok? ==> r.value.line.key == key
    ensures r.Ok? && (forall e :: e in before ==> e.seqId < r.value.seqId) ==>
              && GetBalance(after, key) == r.value.line.balanceAfter
              && forall other :: other != key ==> GetBalance(after, other) == GetBalance(before, other)
  {
    if r.Ok? && (forall e :: e in before ==> e.seqId < r.value.seqId) {
      NewestAppended(before, r.value);
    }
  }

  /** Whether the call came to its INSERT, which draws a serial number even if a constraint refuses the row. */
  predicate Draws(r: Result<Entry, WalletError>) {
    r.Ok? || r.error == OutOfRange || r.error == DuplicateReference
  }

  /** What a top-up's result says, written out. */
  lemma TopupMeans(users: set<Key>, before: seq<Entry>, after: seq<Entry>, req: Request, seqId: nat,
      r: Result<Entry, WalletError>)
    requires req.kind == Topup && r == Execute(users, before, req, seqId)
    requires after == if r.Ok? then before + [r.value] else before
    ensures r == Err(ResellerNotFound) <==> req.key !in users
    ensures r != Err(InsufficientBalance)
    ensures req.key in users ==>
              var balance := GetBalance(before, req.key);
              var fits := -10_000_000_000 < req.amount < 10_000_000_000
                          && -10_000_000_000 < balance + req.amount < 10_000_000_000;
              var taken := exists i :: 0 <= i < |before| && before[i].line.reference == req.reference;
              r == if !fits then Err(OutOfRange) else if taken then Err(DuplicateReference)
                   else Ok(Entry(seqId, Line(Topup, req.key, req.amount, balance + req.amount, req.reference)))
    ensures r.Ok? && (forall e :: e in before ==> e.seqId < seqId) ==>
              && GetBalance(after, req.key) == GetBalance(before, req.key) + req.amount
              && forall other :: other != req.key ==> GetBalance(after, other) == GetBalance(before, other)
    ensures Draws(r) <==> req.key in users
  {
    Appended(before, after, req.key, r);
  }

  /** And a debit's. */
  lemma DebitMeans(users: set<Key>, before: seq<Entry>, after: seq<Entry>, req: Request, seqId: nat,
      r: Result<Entry, WalletError>)
    requires req.kind == Debit && r == Execute(users, before, req, seqId)
    requires after == if r.Ok? then before + [r.value] else before
    ensures r == Err(ResellerNotFound) <==> req.key !in users
    ensures r == Err(InsufficientBalance) <==> req.key in users && req.amount > GetBalance(before, req.key)
    ensures req.key in users && req.amount <= GetBalance(before, req.key) ==>
              var balance := GetBalance(before, req.key);
              var fits := -10_000_000_000 < req.amount < 10_000_000_000
                          && -10_000_000_000 < balance - req.amount < 10_000_000_000;
              var taken := exists i :: 0 <= i < |before| && before[i].line.reference == req.reference;
              r == if !fits then Err(OutOfRange) else if taken then Err(DuplicateReference)
                   else Ok(Entry(seqId, Line(Debit, req.key, req.amount, balance - req.amount, req.reference)))
    ensures r.Ok? && (forall e :: e in before ==> e.seqId < seqId) ==>
              && GetBalance(after, req.key) == GetBalance(before, req.key) - req.amount
              && forall other :: other != req.key ==> GetBalance(after, other) == GetBalance(before, other)
    ensures Draws(r) <==> req.key in users && req.amount <= GetBalance(before, req.key)
  {
    Appended(before, after, req.key, r);
  }

  /** The ledger after running the requests one at a time, refused ones leaving no row. */
  function SerialLedger(users: set<Key>, requests: seq<Request>): seq<Entry> {
    if requests == [] then []
    else
      var n := |requests| - 1;
      var before := SerialLedger(users, requests[..n]);
      match Execute(users, before, requests[n], n)
      case Ok(e) => before + [e]
      case Err(_) => before
  }

  /** The table and the two service calls, statement by statement. */
  class WalletTable {
    const users: set<Key>
    var ledger: seq<Entry>
    var nextSeq: nat

    constructor (users: set<Key>)
      ensures this.users == users && ledger == [] && nextSeq == 0
    {
      this.users := users;
      ledger := [];
      nextSeq := 0;
    }

    /** The INSERT: the serial number is drawn even when a constraint then refuses the row. */
    method InsertRow(line: Line) returns (r: Result<Entry, WalletError>)
      modifies this
      ensures r == Err(OutOfRange) <==> !(-10_000_000_000 < line.amount < 10_000_000_000)
                                        || !(-10_000_000_000 < line.balanceAfter < 10_000_000_000)
      ensures r == Err(DuplicateReference) ==>
                exists i :: 0 <= i < |old(ledger)| && old(ledger)[i].line.reference == line.reference
      ensures r.Ok? ==> forall i :: 0 <= i < |old(ledger)| ==> old(ledger)[i].line.reference != line.reference
      ensures r == (if !Fits(line.amount) || !Fits(line.balanceAfter) then Err(OutOfRange)
                    else if Used(old(ledger), line.reference) then Err(DuplicateReference)
                    else Ok(Entry(old(nextSeq), line)))
      ensures ledger == (if r.Ok? then old(ledger) + [r.value] else old(ledger))
      ensures nextSeq == old(nextSeq) + 1
    {
      var seqId := nextSeq;
      nextSeq := nextSeq + 1;
      if !Fits(line.amount) || !Fits(line.balanceAfter) {
        return Err(OutOfRange);
      }
      var i := 0;
      while i < |ledger|
        invariant 0 <= i <= |ledger|
        invariant forall j :: 0 <= j < i ==> ledger[j].line.reference != line.reference
      {
        if ledger[i].line.reference == line.reference {
          return Err(DuplicateReference);
        }
        i := i + 1;
      }
      ledger := ledger + [Entry(seqId, line)];
      r := Ok(Entry(seqId, line));
    }

    method TopupWallet(key: Key, amount: int, reference: string) returns (r: Result<Entry, WalletError>)
      modifies this
      ensures r == Execute(users, old(ledger), Request(Topup, key, amount, reference), old(nextSeq))
      ensures nextSeq == if Draws(r) then old(nextSeq) + 1 else old(nextSeq)
      ensures ledger == (if r.Ok? then old(ledger) + [r.value] else old(ledger))
      ensures r == Err(ResellerNotFound) <==> key !in users
      ensures r != Err(InsufficientBalance)
      ensures key in users ==>
                var balance := GetBalance(old(ledger), key);
                var fits := -10_000_000_000 < amount < 10_000_000_000
                            && -10_000_000_000 < balance + amount < 10_000_000_000;
                var taken := exists i :: 0 <= i < |old(ledger)| && old(ledger)[i].line.reference == reference;
                r == if !fits then Err(OutOfRange) else if taken then Err(DuplicateReference)
                     else Ok(Entry(old(nextSeq), Line(Topup, key, amount, balance + amount, reference)))
      ensures r.Ok? && (forall e :: e in old(ledger) ==> e.seqId < old(nextSeq)) ==>
                && GetBalance(ledger, key) == GetBalance(old(ledger), key) + amount
                && forall other :: other != key ==> GetBalance(ledger, other) == GetBalance(old(ledger), other)
      ensures nextSeq == old(nextSeq) + (if key in users then 1 else 0)
    {
      if key !in users {
        r := Err(ResellerNotFound);
      } else {
        var currentBalance := GetBalance(ledger, key);
        var newBalance := currentBalance + amount;
        r := InsertRow(Line(Topup, key, amount, newBalance, reference));
      }
      TopupMeans(users, old(ledger), ledger, Request(Topup, key, amount, reference), old(nextSeq), r);
    }

    method DebitWallet(key: Key, amount: int, reference: string) returns (r: Result<Entry, WalletError>)
      modifies this
      ensures r == Execute(users, old(ledger), Request(Debit, key, amount, reference), old(nextSeq))
      ensures nextSeq == if Draws(r) then old(nextSeq) + 1 else old(nextSeq)
      ensures ledger == (if r.Ok? then old(ledger) + [r.value] else old(ledger))
      ensures r == Err(ResellerNotFound) <==> key !in users
      ensures r == Err(InsufficientBalance) <==> key in users && amount > GetBalance(old(ledger), key)
      ensures key in users && amount <= GetBalance(old(ledger), key) ==>
                var balance := GetBalance(old(ledger), key);
                var fits := -10_000_000_000 < amount < 10_000_000_000
                            && -10_000_000_000 < balance - amount < 10_000_000_000;
                var taken := exists i :: 0 <= i < |old(ledger)| && old(ledger)[i].line.reference == reference;
                r == if !fits then Err(OutOfRange) else if taken then Err(DuplicateReference)
                     else Ok(Entry(old(nextSeq), Line(Debit, key, amount, balance - amount, reference)))
      ensures r.Ok? && (forall e :: e in old(ledger) ==> e.seqId < old(nextSeq)) ==>
                && GetBalance(ledger, key) == GetBalance(old(ledger), key) - amount
                && forall other :: other != key ==> GetBalance(ledger, other) == GetBalance(old(ledger), other)
      ensures nextSeq == old(nextSeq) + (if key in users && amount <= GetBalance(old(ledger), key) then 1 else 0)
    {
      if key !in users {
        r := Err(ResellerNotFound);
      } else {
        var currentBalance := GetBalance(ledger, key);
        if currentBalance < amount {
          r := Err(InsufficientBalance);
        } else {
          var newBalance := currentBalance - amount;
          r := InsertRow(Line(Debit, key, amount, newBalance, reference));
        }
      }
      DebitMeans(users, old(ledger), ledger, Request(Debit, key, amount, reference), old(nextSeq), r);
    }
  }
}
