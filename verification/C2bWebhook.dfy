/** The C2B callback that tops a wallet up: validation, confirmation and redelivery. */
module C2bWebhook {
  import opened Common
  import opened WalletLedger

  /** A callback body; a missing text field is "", a missing or zero amount is 0. */
  datatype Callback = Callback(transType: string, billRef: string, transId: string, amount: int)

  const VALIDATION := "Pay Bill Validation"

  /** The top-up a callback asks for, if it is a complete confirmation for a known reseller. */
  function Confirmation(resellers: map<string, Key>, body: Callback): Option<Request> {
    if body.billRef == "" || body.billRef !in resellers || body.transType == VALIDATION
       || body.transId == "" || body.amount == 0 then None
    else Some(Request(Topup, resellers[body.billRef], body.amount, body.transId))
  }

  /** The ledger after the callback: a refused top-up is absorbed. */
  function Deliver(users: set<Key>, resellers: map<string, Key>, ledger: seq<Entry>, body: Callback,
      seqId: nat): seq<Entry> {
    match Confirmation(resellers, body)
    case None => ledger
    case Some(req) =>
      match Execute(users, ledger, req, seqId)
      case Ok(row) => ledger + [row]
      case Err(_) => ledger
  }

  /** `process_daraja_c2b_webhook`; `resellers` maps a normalised wallet reference to its owner. */
  method ProcessC2bWebhook(table: WalletTable, resellers: map<string, Key>, body: Callback) returns (resultCode: int)
    modifies table
    ensures table.ledger == Deliver(table.users, resellers, old(table.ledger), body, old(table.nextSeq))
    ensures resultCode == (if body.billRef in resellers && body.billRef != "" then 0 else 1)
    ensures var complete := body.billRef != "" && body.billRef in resellers && body.transType != "Pay Bill Validation"
                            && body.transId != "" && body.amount != 0;
            if !complete || resellers[body.billRef] !in table.users then table.ledger == old(table.ledger)
            else
              var owner := resellers[body.billRef];
              var balance := GetBalance(old(table.ledger), owner) + body.amount;
              var fits := -10_000_000_000 < body.amount < 10_000_000_000 && -10_000_000_000 < balance < 10_000_000_000;
              var credited := exists i ::
                0 <= i < |old(table.ledger)| && old(table.ledger)[i].line.reference == body.transId;
              table.ledger == old(table.ledger)
                + if fits && !credited
                  then [Entry(old(table.nextSeq), Line(Topup, owner, body.amount, balance, body.transId))] else []
  {
    if body.billRef == "" {
      return 1;
    }
    if body.billRef !in resellers {
      return 1;
    }
    if body.transType == VALIDATION {
      return 0;
    }
    if body.transId == "" || body.amount == 0 {
      return 0;
    }
    var _ := table.TopupWallet(resellers[body.billRef], body.amount, body.transId);
    resultCode := 0;
  }

  /** The callbacks of a run, each drawing a serial number. */
  function DeliverAll(users: set<Key>, resellers: map<string, Key>, bodies: seq<Callback>): seq<Entry> {
    if bodies == [] then []
    else
      var n := |bodies| - 1;
      Deliver(users, resellers, DeliverAll(users, resellers, bodies[..n]), bodies[n], n)
  }

  lemma {:induction false} DeliveredStays(users: set<Key>, resellers: map<string, Key>, bodies: seq<Callback>, n: nat)
    requires n <= |bodies|
    ensures DeliverAll(users, resellers, bodies[..n]) <= DeliverAll(users, resellers, bodies)
    decreases |bodies|
  {
    if n < |bodies| {
      var m := |bodies| - 1;
      DeliveredStays(users, resellers, bodies[..m], n);
      assert bodies[..m][..n] == bodies[..n];
    } else {
      assert bodies[..n] == bodies;
    }
  }

  /** Once a transaction id has been credited, no later delivery of it adds anything. */
  lemma RedeliveryAbsorbed(users: set<Key>, resellers: map<string, Key>, bodies: seq<Callback>, n: nat, body: Callback)
    requires n <= |bodies| && Used(DeliverAll(users, resellers, bodies[..n]), body.transId)
    ensures DeliverAll(users, resellers, bodies + [body]) == DeliverAll(users, resellers, bodies)
  {
    DeliveredStays(users, resellers, bodies, n);
    var early := DeliverAll(users, resellers, bodies[..n]);
    var i :| 0 <= i < |early| && early[i].line.reference == body.transId;
    var late := DeliverAll(users, resellers, bodies);
    assert late[i] == early[i];
    assert (bodies + [body])[..|bodies|] == bodies;
  }

  /** A complete confirmation that is not yet credited is credited in full, unless the amount does not fit. */
  lemma FirstDeliveryCredits(users: set<Key>, resellers: map<string, Key>, ledger: seq<Entry>, body: Callback,
      seqId: nat)
    requires Confirmation(resellers, body).Some? && resellers[body.billRef] in users && !Used(ledger, body.transId)
    requires forall e :: e in ledger ==> e.seqId < seqId
    ensures var key := resellers[body.billRef];
            var balance := GetBalance(ledger, key);
            var after := Deliver(users, resellers, ledger, body, seqId);
            if Fits(body.amount) && Fits(balance + body.amount)
            then GetBalance(after, key) == balance + body.amount && Used(after, body.transId)
            else after == ledger
  {
    var after := Deliver(users, resellers, ledger, body, seqId);
    if after != ledger {
      assert after[..|ledger|] == ledger;
      assert after[|ledger|].line.reference == body.transId;
    }
  }
}
