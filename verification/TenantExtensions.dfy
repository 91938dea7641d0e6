/**
 The month that a platform payment buys. The webhook and the poller each read a pending row and settle it later, and
 neither looks at how many rows its first `UPDATE` has hit before it moves the tenant's billing date.
 */
module TenantExtensions {
  import opened Common

  datatype Status = Pending | Confirmed | Failed

  datatype Actor = Webhook | Poller

  /** A webhook call, or the poller's turn on a row, that has found the payment pending. */
  datatype Call = Call(payment: nat, actor: Actor)

  /** `months` is what the tenant's billing date has moved; `extended` tells for which payment each call moved it. */
  datatype World = World(
    payments: map<nat, Status>, open: map<nat, Call>, nextCall: nat, months: nat, extended: map<nat, nat>)

  datatype Event =
    | Push(payment: nat)
    | Read(payment: nat, actor: Actor)
    | Write(c: nat)
    | Stop(c: nat)

  const NEW := World(map[], map[], 0, 0, map[])

  /** A call that finds the payment settled ends at once and is no step. */
  predicate Can(w: World, e: Event) {
    match e
    case Push(payment) => payment !in w.payments
    case Read(payment, _) => payment in w.payments && w.payments[payment] == Pending
    case Write(c) => c in w.open && w.open[c].payment in w.payments
    case Stop(c) => c in w.open
  }

  /** The webhook's `UPDATE` of the payment names its id only; the poller's also wants it pending. */
  function Settled(payments: map<nat, Status>, call: Call, status: Status): map<nat, Status>
    requires call.payment in payments
  {
    if call.actor == Webhook || payments[call.payment] == Pending then payments[call.payment := status] else payments
  }

  /** The two `UPDATE`s of one transaction; a colliding receipt rolls both back, which is a `Stop`. */
  function Written(confirms: nat -> bool, w: World, c: nat): World
    requires Can(w, Write(c))
  {
    var call := w.open[c];
    var paid := confirms(call.payment);
    w.(payments := Settled(w.payments, call, if paid then Confirmed else Failed),
       open := w.open - {c},
       months := if paid then w.months + 1 else w.months,
       extended := if paid then w.extended[c := call.payment] else w.extended)
  }

  /** `confirms` is what the provider says of each payment. */
  function Step(confirms: nat -> bool, w: World, e: Event): World
    requires Can(w, e)
  {
    match e
    case Push(payment) => w.(payments := w.payments[payment := Pending])
    case Read(payment, actor) =>
      w.(open := w.open[w.nextCall := Call(payment, actor)], nextCall := w.nextCall + 1)
    case Write(c) => Written(confirms, w, c)
    case Stop(c) => w.(open := w.open - {c})
  }

  predicate Possible(confirms: nat -> bool, w: World, events: seq<Event>)
    decreases |events|, 0
  {
    events == []
    || (Possible(confirms, w, events[..|events| - 1])
        && Can(Run(confirms, w, events[..|events| - 1]), events[|events| - 1]))
  }

  function Run(confirms: nat -> bool, w: World, events: seq<Event>): World
    requires Possible(confirms, w, events)
    decreases |events|, 1
  {
    if events == [] then w
    else Step(confirms, Run(confirms, w, events[..|events| - 1]), events[|events| - 1])
  }

  // ---------------------------------------------------------------- the invariant

  function OpenOn(w: World, payment: nat): set<nat> {
    set c | c in w.open && w.open[c].payment == payment
  }

  /** The calls that have moved the billing date for this payment. */
  function Extenders(w: World, payment: nat): set<nat> {
    set c | c in w.extended && w.extended[c] == payment
  }

  function Paid(w: World): set<nat> {
    set p | p in w.payments && w.payments[p] == Confirmed
  }

  ghost predicate CallsOk(w: World) {
    && (forall c :: c in w.open ==> c < w.nextCall && c !in w.extended && w.open[c].payment in w.payments)
    && (forall c :: c in w.extended ==> c < w.nextCall)
  }

  ghost predicate Inv(confirms: nat -> bool, w: World) {
    && CallsOk(w)
    && w.extended.Values == Paid(w)
    && (forall p :: p in w.payments && w.payments[p] == Confirmed ==> confirms(p))
    && (forall p :: p in w.payments && w.payments[p] == Failed ==> !confirms(p))
    && w.months == |w.extended|
  }

  /** Whoever settles a payment, and however often, settles it as the provider says. */
  lemma SettledAsSaid(confirms: nat -> bool, w: World, c: nat)
    requires Inv(confirms, w) && Can(w, Write(c))
    ensures var status := if confirms(w.open[c].payment) then Confirmed else Failed;
            Written(confirms, w, c).payments == w.payments[w.open[c].payment := status]
  {
    var p := w.open[c].payment;
  }

  lemma PaidKeeps(confirms: nat -> bool, w: World, w': World, c: nat, p: nat)
    requires Inv(confirms, w) && c in w.open && p == w.open[c].payment && confirms(p)
    requires w' == World(w.payments[p := Confirmed], w.open - {c}, w.nextCall, w.months + 1, w.extended[c := p])
    ensures Inv(confirms, w')
  {
    PaidAfter(w, w', p);
    ValuesAfter(w.extended, c, p);
  }

  lemma PaidAfter(w: World, w': World, p: nat)
    requires w'.payments == w.payments[p := Confirmed]
    ensures Paid(w') == Paid(w) + {p}
  {
  }

  lemma ValuesAfter(m: map<nat, nat>, c: nat, p: nat)
    requires c !in m
    ensures m[c := p].Values == m.Values + {p} && |m[c := p]| == |m| + 1
  {
    var after := m[c := p];
    assert after[c] == p;
    forall q | q in m.Values ensures q in after.Values {
      var d :| d in m && m[d] == q;
      assert d != c && after[d] == q;
    }
    assert after.Keys == m.Keys + {c};
  }

  lemma UnpaidKeeps(confirms: nat -> bool, w: World, w': World, c: nat, p: nat)
    requires Inv(confirms, w) && c in w.open && p == w.open[c].payment && !confirms(p)
    requires w' == World(w.payments[p := Failed], w.open - {c}, w.nextCall, w.months, w.extended)
    ensures Inv(confirms, w')
  {
    assert p !in Paid(w);
    assert Paid(w') == Paid(w);
  }

  lemma WriteKeeps(confirms: nat -> bool, w: World, c: nat)
    requires Inv(confirms, w) && Can(w, Write(c))
    ensures Inv(confirms, Written(confirms, w, c))
  {
    var p := w.open[c].payment;
    SettledAsSaid(confirms, w, c);
    if confirms(p) {
      PaidKeeps(confirms, w, Written(confirms, w, c), c, p);
    } else {
      UnpaidKeeps(confirms, w, Written(confirms, w, c), c, p);
    }
  }

  lemma StepKeeps(confirms: nat -> bool, w: World, e: Event)
    requires Inv(confirms, w) && Can(w, e)
    ensures Inv(confirms, Step(confirms, w, e))
  {
    if e.Write? {
      WriteKeeps(confirms, w, e.c);
    } else {
      assert Paid(Step(confirms, w, e)) == Paid(w);
    }
  }

  lemma {:induction false} RunKeeps(confirms: nat -> bool, events: seq<Event>)
    requires Possible(confirms, NEW, events)
    ensures Inv(confirms, Run(confirms, NEW, events))
    decreases |events|
  {
    if events != [] {
      RunKeeps(confirms, events[..|events| - 1]);
      StepKeeps(confirms, Run(confirms, NEW, events[..|events| - 1]), events[|events| - 1]);
    }
  }

  // ---------------------------------------------------------------- how many months a payment buys

  predicate IsSettled(w: World, payment: nat) {
    payment in w.payments && w.payments[payment] != Pending
  }

  /** Once a payment is settled no call finds it pending; those open may each still move the date, once. */
  lemma SettledStep(confirms: nat -> bool, w: World, e: Event, payment: nat)
    requires Can(w, e) && IsSettled(w, payment)
    ensures IsSettled(Step(confirms, w, e), payment)
    ensures OpenOn(Step(confirms, w, e), payment) <= OpenOn(w, payment)
    ensures Extenders(Step(confirms, w, e), payment) <= Extenders(w, payment) + OpenOn(w, payment)
  {
    if e.Write? {
      ExtendersAfter(w, Written(confirms, w, e.c), e.c, payment);
    }
  }

  lemma ExtendersAfter(w: World, w': World, c: nat, payment: nat)
    requires c in w.open && w'.open == w.open - {c}
    requires w'.extended == w.extended || w'.extended == w.extended[c := w.open[c].payment]
    ensures OpenOn(w', payment) <= OpenOn(w, payment)
    ensures Extenders(w', payment) <= Extenders(w, payment) + OpenOn(w, payment)
  {
  }

  lemma Unextended(confirms: nat -> bool, w: World, payment: nat)
    requires Inv(confirms, w) && payment !in Paid(w)
    ensures Extenders(w, payment) == {}
  {
    forall c | c in w.extended ensures w.extended[c] != payment {
      assert w.extended[c] in w.extended.Values;
    }
  }

  lemma SettlingStep(confirms: nat -> bool, w: World, e: Event, payment: nat)
    requires Inv(confirms, w) && Can(w, e) && !IsSettled(w, payment) && IsSettled(Step(confirms, w, e), payment)
    ensures Extenders(Step(confirms, w, e), payment) <= OpenOn(w, payment)
    ensures OpenOn(Step(confirms, w, e), payment) <= OpenOn(w, payment)
  {
    Unextended(confirms, w, payment);
    if e.Write? {
      SettledAsSaid(confirms, w, e.c);
      ExtendersAfter(w, Written(confirms, w, e.c), e.c, payment);
    }
  }

  /** In every run there is an instant at which all calls that have moved the date for the payment were open on it. */
  lemma {:induction false} ExtendersOverlap(confirms: nat -> bool, events: seq<Event>, payment: nat)
      returns (k: nat)
    requires Possible(confirms, NEW, events)
    ensures k <= |events| && Possible(confirms, NEW, events[..k])
    ensures Extenders(Run(confirms, NEW, events), payment) <= OpenOn(Run(confirms, NEW, events[..k]), payment)
    ensures IsSettled(Run(confirms, NEW, events), payment) ==>
              OpenOn(Run(confirms, NEW, events), payment) <= OpenOn(Run(confirms, NEW, events[..k]), payment)
    decreases |events|
  {
    RunKeeps(confirms, events);
    k := |events|;
    assert events[..k] == events;
    if !IsSettled(Run(confirms, NEW, events), payment) {
      Unextended(confirms, Run(confirms, NEW, events), payment);
    }
    if IsSettled(Run(confirms, NEW, events), payment) {
      var n := |events| - 1;
      RunKeeps(confirms, events[..n]);
      var before := Run(confirms, NEW, events[..n]);
      if IsSettled(before, payment) {
        k := ExtendersOverlap(confirms, events[..n], payment);
        assert events[..n][..k] == events[..k];
        SettledStep(confirms, before, events[n], payment);
      } else {
        k := n;
        SettlingStep(confirms, before, events[n], payment);
      }
    }
  }

  /** A payment never buys more months than there are calls open on it at some one instant. */
  lemma {:induction false} MonthsBoundedByOverlap(confirms: nat -> bool, events: seq<Event>, payment: nat)
      returns (k: nat)
    requires Possible(confirms, NEW, events)
    ensures k <= |events| && Possible(confirms, NEW, events[..k])
    ensures |Extenders(Run(confirms, NEW, events), payment)| <= |OpenOn(Run(confirms, NEW, events[..k]), payment)|
  {
    k := ExtendersOverlap(confirms, events, payment);
    Smaller(Extenders(Run(confirms, NEW, events), payment), OpenOn(Run(confirms, NEW, events[..k]), payment));
  }

  lemma Smaller(a: set<nat>, b: set<nat>)
    requires a <= b
    ensures |a| <= |b|
  {
    assert b == a + (b - a);
  }

  /** A map has as many keys as values exactly if it is injective, and never fewer. */
  lemma {:induction false} KeysAndValues(m: map<nat, nat>)
    ensures |m.Values| <= |m|
    ensures |m.Values| == |m| <==> forall c, d :: c in m && d in m && m[c] == m[d] ==> c == d
    decreases |m|
  {
    if m != map[] {
      var c :| c in m;
      var rest := m - {c};
      KeysAndValues(rest);
      assert m == rest[c := m[c]];
      assert m.Keys == rest.Keys + {c} && m.Values == rest.Values + {m[c]};
      if m[c] in rest.Values {
        var d :| d in rest && rest[d] == m[c];
        assert m[c] == m[d] && c != d;
      }
      forall a, b | a in rest && b in rest ensures rest[a] == m[a] && rest[b] == m[b] {}
    }
  }

  /** The tenant never gets less than a month a paid payment, and exactly that iff no two calls moved it for one. */
  lemma {:induction false} MonthEachExactlyWhen(confirms: nat -> bool, events: seq<Event>)
    requires Possible(confirms, NEW, events)
    ensures var w := Run(confirms, NEW, events);
            && |Paid(w)| <= w.months
            && (|Paid(w)| == w.months <==> forall p :: p in Paid(w) ==> |Extenders(w, p)| == 1)
  {
    var w := Run(confirms, NEW, events);
    RunKeeps(confirms, events);
    assert Paid(w) == w.extended.Values;
    KeysAndValues(w.extended);
    forall p | p in Paid(w)
      ensures |Extenders(w, p)| == 1 <==>
              forall c, d :: c in Extenders(w, p) && d in Extenders(w, p) ==> c == d
    {
      var c :| c in w.extended && w.extended[c] == p;
      OneMember(Extenders(w, p), c);
    }
    if forall p :: p in Paid(w) ==> |Extenders(w, p)| == 1 {
      forall c, d | c in w.extended && d in w.extended && w.extended[c] == w.extended[d] ensures c == d {
        assert c in Extenders(w, w.extended[c]) && d in Extenders(w, w.extended[c]);
        assert w.extended[c] in Paid(w);
      }
    }
  }

  lemma OneMember(s: set<nat>, c: nat)
    requires c in s
    ensures |s| == 1 <==> forall a, b :: a in s && b in s ==> a == b
  {
    assert s == {c} + (s - {c});
    if |s| == 1 {
      assert s - {c} == {};
    } else {
      var d :| d in s - {c};
    }
  }

  ghost predicate OneCallAtATime(confirms: nat -> bool, events: seq<Event>)
    requires Possible(confirms, NEW, events)
  {
    forall k: nat, p: nat :: k <= |events| && Possible(confirms, NEW, events[..k]) ==>
      |OpenOn(Run(confirms, NEW, events[..k]), p)| <= 1
  }

  /** If calls on a payment do not overlap, the date has moved by a month for each confirmed payment. */
  lemma {:induction false} MonthEachWithoutOverlap(confirms: nat -> bool, events: seq<Event>)
    requires Possible(confirms, NEW, events) && OneCallAtATime(confirms, events)
    ensures Run(confirms, NEW, events).months == |Paid(Run(confirms, NEW, events))|
  {
    var w := Run(confirms, NEW, events);
    RunKeeps(confirms, events);
    forall p | p in Paid(w) ensures |Extenders(w, p)| == 1 {
      var k := MonthsBoundedByOverlap(confirms, events, p);
      var c :| c in w.extended && w.extended[c] == p;
      assert c in Extenders(w, p);
    }
    MonthEachExactlyWhen(confirms, events);
  }

  // ---------------------------------------------------------------- runs that overlap

  lemma {:induction false} NoOpenStays(confirms: nat -> bool, first: World, events: seq<Event>, payment: nat)
    requires Inv(confirms, first) && Possible(confirms, first, events)
    requires IsSettled(first, payment) && OpenOn(first, payment) == {}
    ensures var w := Run(confirms, first, events);
            && Inv(confirms, w) && IsSettled(w, payment) && OpenOn(w, payment) == {}
            && Extenders(w, payment) <= Extenders(first, payment)
    decreases |events|
  {
    if events != [] {
      var n := |events| - 1;
      NoOpenStays(confirms, first, events[..n], payment);
      StepKeeps(confirms, Run(confirms, first, events[..n]), events[n]);
      SettledStep(confirms, Run(confirms, first, events[..n]), events[n], payment);
    }
  }

  ghost predicate Extends(confirms: nat -> bool, w: World, events: seq<Event>, payment: nat) {
    Possible(confirms, w, events) && !(Extenders(Run(confirms, w, events), payment) <= Extenders(w, payment))
  }

  /** A confirmed payment can still move the date exactly while another call that found it pending is open. */
  lemma {:induction false} ExtendsAgainExactlyWhen(confirms: nat -> bool, before: seq<Event>, payment: nat)
    requires Possible(confirms, NEW, before) && payment in Paid(Run(confirms, NEW, before))
    ensures var w := Run(confirms, NEW, before);
            (exists events :: Extends(confirms, w, events, payment)) <==> OpenOn(w, payment) != {}
  {
    var w := Run(confirms, NEW, before);
    RunKeeps(confirms, before);
    if OpenOn(w, payment) != {} {
      var c :| c in OpenOn(w, payment);
      OneStep(confirms, w, Write(c));
      assert c in Extenders(Step(confirms, w, Write(c)), payment) && c !in Extenders(w, payment);
      assert Extends(confirms, w, [Write(c)], payment);
    } else {
      forall events | Possible(confirms, w, events) ensures !Extends(confirms, w, events, payment) {
        NoOpenStays(confirms, w, events, payment);
      }
    }
  }

  lemma OneStep(confirms: nat -> bool, w: World, e: Event)
    requires Can(w, e)
    ensures Possible(confirms, w, [e]) && Run(confirms, w, [e]) == Step(confirms, w, e)
  {
    assert [e][..0] == [];
  }

  lemma Then(confirms: nat -> bool, events: seq<Event>, w: World, e: Event) returns (longer: seq<Event>)
    requires Possible(confirms, NEW, events) && Run(confirms, NEW, events) == w && Can(w, e)
    ensures Possible(confirms, NEW, longer) && Run(confirms, NEW, longer) == Step(confirms, w, e)
  {
    longer := events + [e];
    assert longer[..|events|] == events;
  }

  /** A run in which one payment buys two months: the webhook comes while the poller asks the provider. */
  lemma TwoMonthsForOne(confirms: nat -> bool) returns (events: seq<Event>, w: World)
    requires confirms(0)
    ensures Possible(confirms, NEW, events) && w == Run(confirms, NEW, events)
    ensures w.months == 2 && Paid(w) == {0}
  {
    events := Then(confirms, [], NEW, Push(0));
    var w1 := Step(confirms, NEW, Push(0));
    events := Then(confirms, events, w1, Read(0, Poller));
    var w2 := Step(confirms, w1, Read(0, Poller));
    events := Then(confirms, events, w2, Read(0, Webhook));
    var w3 := Step(confirms, w2, Read(0, Webhook));
    events := Then(confirms, events, w3, Write(1));
    var w4 := Step(confirms, w3, Write(1));
    events := Then(confirms, events, w4, Write(0));
    w := Step(confirms, w4, Write(0));
  }

  // ---------------------------------------------------------------- the two handlers, undisturbed

  /** The tables before the call, with nothing open. */
  function Quiet(payments: map<nat, Status>, months: nat): World {
    World(payments, map[], 0, months, map[])
  }

  /** A read and a write back to back; what is settled is left alone. */
  function Handled(confirms: nat -> bool, w: World, payment: nat, actor: Actor): World
    requires w.open == map[] && payment in w.payments
  {
    if w.payments[payment] != Pending then w
    else
      var read := Step(confirms, w, Read(payment, actor));
      Step(confirms, read, Write(w.nextCall))
  }

  class Ledger {
    var payments: map<nat, Status>
    var months: nat

    constructor ()
      ensures payments == map[] && months == 0
    {
      payments, months := map[], 0;
    }

    /**
     The platform branch of the webhook: `payment` is the row of the checkout id, if there is one. A confirmation
     without a receipt is dropped, and a receipt that is another row's rolls the transaction back.
     */
    method ProcessDarajaWebhook(payment: Option<nat>, confirms: nat -> bool, hasReceipt: bool, collides: bool)
      requires payment.Some? ==> payment.value in payments
      modifies this
      ensures payment.None? ==> payments == old(payments) && months == old(months)
      ensures payment.Some? ==>
                var dropped := confirms(payment.value) && (!hasReceipt || collides);
                var before := Quiet(old(payments), old(months));
                var after := if dropped then before else Handled(confirms, before, payment.value, Webhook);
                payments == after.payments && months == after.months
      ensures payment.Some? ==>
                var id := payment.value;
                var open := old(payments)[id] == Pending;
                if open && confirms(id) && hasReceipt && !collides then
                  payments == old(payments)[id := Confirmed] && months == old(months) + 1
                else if open && !confirms(id) then payments == old(payments)[id := Failed] && months == old(months)
                else payments == old(payments) && months == old(months)
    {
      if payment.None? || payments[payment.value] != Pending { return; }
      var id := payment.value;
      if confirms(id) {
        if !hasReceipt || collides { return; }
        payments, months := payments[id := Confirmed], months + 1;
      } else {
        payments := payments[id := Failed];
      }
    }

    /** The poller's turn on a pending platform payment whose outcome the provider knows. */
    method PollPlatformPayment(payment: nat, confirms: nat -> bool, collides: bool)
      requires payment in payments && payments[payment] == Pending
      modifies this
      ensures var before := Quiet(old(payments), old(months));
              var after := if confirms(payment) && collides then before
                           else Handled(confirms, before, payment, Poller);
              payments == after.payments && months == after.months
      ensures if confirms(payment) && !collides then
                payments == old(payments)[payment := Confirmed] && months == old(months) + 1
              else if confirms(payment) then payments == old(payments) && months == old(months)
              else payments == old(payments)[payment := Failed] && months == old(months)
    {
      if confirms(payment) {
        if collides { return; }
        payments, months := payments[payment := Confirmed], months + 1;
      } else {
        payments := payments[payment := Failed];
      }
    }
  }
}
