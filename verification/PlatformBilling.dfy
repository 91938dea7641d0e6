/**
 Billing the tenants of the platform. The daily cron fetches a tenant's row, decides on it, and may push a payment
 request; the owner may ask to pay at any time; the payment provider reports each request's outcome.
 */
module PlatformBilling {
  import opened Common

  /** Microseconds. */
  const DAY := 86_400_000_000

  /** `INTERVAL '1 month'` adds from 28 to 31 days. */
  const SHORTEST := 28 * DAY
  const LONGEST := 31 * DAY

  datatype TenantStatus = Active | Suspended | Cancelled

  datatype PushStatus = Pending | Confirmed | Failed

  /** Which rows the cron had counted, and when, before it inserted this one; `None` for a row of the owner's. */
  datatype Count = Count(at: int, rows: nat)

  datatype Push = Push(at: int, status: PushStatus, reachable: bool, count: Option<Count>)

  /** Where the cron is with this tenant; `confirmed` is how many months had been paid. */
  datatype Cron =
    | Idle
    | Fetched(status: TenantStatus, billingDate: int, at: int, confirmed: nat)
    | Counted(count: Count)

  /** `months` are the lengths that confirmations have added to the billing date, one after the other. */
  datatype World = World(
    now: int, status: TenantStatus, billingDate: int, pushes: seq<Push>, months: seq<nat>, cron: Cron)

  datatype Event =
    | Wait(micros: nat)
    | PayNow
    | PayNowAnswer(i: nat, ok: bool)
    | Outcome(i: nat, ok: bool, month: nat)
    | CronFetch
    | CronDecide
    | CronPush(ok: bool)

  /** What the dashboard shows. */
  datatype BillingStatus = Paid | InGrace | Overdue

  function Billing(status: TenantStatus, billingDate: int, now: int): BillingStatus {
    if status == Suspended || status == Cancelled then Overdue
    else if billingDate < now then if billingDate >= now - 7 * DAY then InGrace else Overdue
    else Paid
  }

  /** The cron's own test, on whole days. */
  predicate PastGrace(billingDate: int, now: int) {
    billingDate <= now && (now - billingDate) / DAY > 7
  }

  predicate Recent(p: Push, now: int) {
    p.at > now - DAY && (p.status == Pending || p.status == Confirmed)
  }

  /** A row without a checkout id is out of the provider's reach; the owner's request is answered once. */
  predicate Can(w: World, e: Event) {
    match e
    case Wait(_) => true
    case PayNow => true
    case PayNowAnswer(i, _) => i < |w.pushes| && !w.pushes[i].reachable && w.pushes[i].status == Pending
    case Outcome(i, _, month) => i < |w.pushes| && w.pushes[i].reachable && SHORTEST <= month <= LONGEST
    case CronFetch => w.cron.Idle?
    case CronDecide => w.cron.Fetched?
    case CronPush(_) => w.cron.Counted?
  }

  predicate NoneRecent(pushes: seq<Push>, now: int) {
    forall i :: 0 <= i < |pushes| ==> !Recent(pushes[i], now)
  }

  function SetPush(pushes: seq<Push>, i: nat, status: PushStatus, reachable: bool): seq<Push>
    requires i < |pushes|
  {
    pushes[i := pushes[i].(status := status, reachable := reachable)]
  }

  /** The unguarded `UPDATE` that suspends, the count that may lead to a push, or nothing. */
  function Decide(w: World): World
    requires w.cron.Fetched?
  {
    var c := w.cron;
    if c.status != Active || c.billingDate > c.at then w.(cron := Idle)
    else if PastGrace(c.billingDate, c.at) then w.(status := Suspended, cron := Idle)
    else if NoneRecent(w.pushes, w.now) then w.(cron := Counted(Count(w.now, |w.pushes|)))
    else w.(cron := Idle)
  }

  function Step(w: World, e: Event): World
    requires Can(w, e)
  {
    match e
    case Wait(micros) => w.(now := w.now + micros)
    case PayNow => w.(pushes := w.pushes + [Push(w.now, Pending, false, None)])
    case PayNowAnswer(i, ok) => w.(pushes := SetPush(w.pushes, i, if ok then Pending else Failed, ok))
    case Outcome(i, ok, month) =>
      if w.pushes[i].status != Pending then w
      else if ok then
        w.(pushes := SetPush(w.pushes, i, Confirmed, true), billingDate := w.billingDate + month, status := Active,
           months := w.months + [month])
      else w.(pushes := SetPush(w.pushes, i, Failed, true))
    case CronFetch => w.(cron := Fetched(w.status, w.billingDate, w.now, |w.months|))
    case CronDecide => Decide(w)
    case CronPush(ok) =>
      if ok then w.(pushes := w.pushes + [Push(w.now, Pending, true, Some(w.cron.count))], cron := Idle)
      else w.(cron := Idle)
  }

  predicate Possible(w: World, events: seq<Event>)
    decreases |events|, 0
  {
    events == []
    || (Possible(w, events[..|events| - 1]) && Can(Run(w, events[..|events| - 1]), events[|events| - 1]))
  }

  function Run(w: World, events: seq<Event>): World
    requires Possible(w, events)
    decreases |events|, 1
  {
    if events == [] then w else Step(Run(w, events[..|events| - 1]), events[|events| - 1])
  }

  function Registered(now: int, billingDate: int): World {
    World(now, Active, billingDate, [], [], Idle)
  }

  ghost predicate Reachable(w: World) {
    exists now: int, billingDate: int, events: seq<Event> ::
      Possible(Registered(now, billingDate), events) && w == Run(Registered(now, billingDate), events)
  }

  // ---------------------------------------------------------------- the invariant

  /** What a count of the first rows found, and that whatever came after them is the owner's. */
  ghost predicate Sifted(pushes: seq<Push>, upTo: nat, c: Count)
    requires upTo <= |pushes|
  {
    && c.rows <= upTo
    && (forall j :: 0 <= j < c.rows && pushes[j].at > c.at - DAY ==> pushes[j].status == Failed)
    && (forall j :: c.rows <= j < upTo ==> pushes[j].count.None? && c.at <= pushes[j].at)
  }

  ghost predicate Timed(w: World) {
    && (forall i :: 0 <= i < |w.pushes| ==> w.pushes[i].at <= w.now)
    && (w.cron.Counted? ==> w.cron.count.at <= w.now)
    && (forall i :: 0 <= i < |w.pushes| && w.pushes[i].count.Some? ==> w.pushes[i].count.value.at <= w.pushes[i].at)
  }

  ghost predicate AllSifted(w: World) {
    && (w.cron.Counted? ==> Sifted(w.pushes, |w.pushes|, w.cron.count))
    && (forall i :: 0 <= i < |w.pushes| && w.pushes[i].count.Some? ==> Sifted(w.pushes, i, w.pushes[i].count.value))
  }

  function Sum(months: seq<nat>): nat {
    if months == [] then 0 else Sum(months[..|months| - 1]) + months[|months| - 1]
  }

  lemma SumOfMore(months: seq<nat>, from: nat, month: nat)
    requires from <= |months|
    ensures Sum((months + [month])[from..]) == Sum(months[from..]) + month
  {
    assert (months + [month])[from..] == months[from..] + [month];
    assert (months[from..] + [month])[..|months[from..]|] == months[from..];
  }

  /** A fetched row is stale only by the months paid since. */
  ghost predicate FreshUnlessPaid(w: World) {
    w.cron.Fetched? ==>
      && w.cron.at <= w.now && w.cron.confirmed <= |w.months|
      && w.billingDate == w.cron.billingDate + Sum(w.months[w.cron.confirmed..])
      && (w.cron.confirmed == |w.months| ==> w.status == w.cron.status)
  }

  /** Rows keep their instant and origin, and a failed row stays failed. */
  ghost predicate Settling(before: seq<Push>, after: seq<Push>) {
    && |before| <= |after|
    && forall i :: 0 <= i < |before| ==>
         && after[i].at == before[i].at && after[i].count == before[i].count
         && (before[i].status == Failed ==> after[i].status == Failed)
  }

  lemma StepSettles(w: World, e: Event)
    requires Can(w, e)
    ensures Settling(w.pushes, Step(w, e).pushes)
  {
  }

  lemma SiftedSettles(before: seq<Push>, after: seq<Push>, upTo: nat, c: Count)
    requires Settling(before, after) && upTo <= |before| && Sifted(before, upTo, c)
    ensures Sifted(after, upTo, c)
  {
  }

  lemma StepTimed(w: World, e: Event)
    requires Can(w, e) && Timed(w)
    ensures Timed(Step(w, e))
  {
  }

  lemma StepFresh(w: World, e: Event)
    requires Can(w, e) && FreshUnlessPaid(w)
    ensures FreshUnlessPaid(Step(w, e))
  {
    if e.Outcome? && w.cron.Fetched? { SumOfMore(w.months, w.cron.confirmed, e.month); }
  }

  lemma StepSifted(w: World, e: Event)
    requires Can(w, e) && Timed(w) && AllSifted(w)
    ensures AllSifted(Step(w, e))
  {
    var w' := Step(w, e);
    StepSettles(w, e);
    forall i | 0 <= i < |w.pushes| && w.pushes[i].count.Some? ensures Sifted(w'.pushes, i, w.pushes[i].count.value) {
      SiftedSettles(w.pushes, w'.pushes, i, w.pushes[i].count.value);
    }
    if w.cron.Counted? {
      SiftedSettles(w.pushes, w'.pushes, |w.pushes|, w.cron.count);
    }
  }

  lemma {:induction false} RunKeeps(w: World, events: seq<Event>)
    requires Possible(w, events) && Timed(w) && AllSifted(w) && FreshUnlessPaid(w)
    ensures Timed(Run(w, events)) && AllSifted(Run(w, events)) && FreshUnlessPaid(Run(w, events))
    decreases |events|
  {
    if events != [] {
      var n := |events| - 1;
      RunKeeps(w, events[..n]);
      StepTimed(Run(w, events[..n]), events[n]);
      StepSifted(Run(w, events[..n]), events[n]);
      StepFresh(Run(w, events[..n]), events[n]);
    }
  }

  lemma ReachableKeeps(w: World)
    requires Reachable(w)
    ensures Timed(w) && AllSifted(w) && FreshUnlessPaid(w)
  {
    var now: int, billingDate: int, events: seq<Event> :|
      Possible(Registered(now, billingDate), events) && w == Run(Registered(now, billingDate), events);
    RunKeeps(Registered(now, billingDate), events);
  }

  // ---------------------------------------------------------------- what every run keeps

  /**
   A push of the cron's: every other push of the 24 hours before has failed, but for requests of the owner's that
   came in after the cron had counted.
   */
  lemma PushesOnlyAfterFailures(w: World, i: nat, j: nat)
    requires Reachable(w) && j < i < |w.pushes| && w.pushes[i].count.Some?
    requires w.pushes[j].at > w.pushes[i].count.value.at - DAY
    ensures w.pushes[j].status == Failed || (w.pushes[j].count.None? && w.pushes[i].count.value.rows <= j)
  {
    ReachableKeeps(w);
    assert Sifted(w.pushes, i, w.pushes[i].count.value);
  }

  /** Two pushes of the cron's that have not failed are at least a day apart. */
  lemma CronPushesADayApart(w: World, i: nat, j: nat)
    requires Reachable(w) && j < i < |w.pushes| && w.pushes[i].count.Some? && w.pushes[j].count.Some?
    requires w.pushes[i].status != Failed && w.pushes[j].status != Failed
    ensures w.pushes[i].at - w.pushes[j].at >= DAY
  {
    ReachableKeeps(w);
    assert Sifted(w.pushes, i, w.pushes[i].count.value);
  }

  /** Whether the cron's next step suspends the tenant. */
  predicate Suspends(w: World) {
    w.cron.Fetched? && w.cron.status == Active && PastGrace(w.cron.billingDate, w.cron.at)
  }

  /**
   When the cron suspends, the row it fetched was overdue by the dashboard's rule; and the row it writes still is,
   unless a payment was confirmed in between. A row that is in grace by that rule is not suspended.
   */
  lemma SuspendsOnlyOverdue(w: World)
    requires Reachable(w) && Suspends(w)
    ensures Billing(w.cron.status, w.cron.billingDate, w.cron.at) == Overdue
    ensures |w.months| == w.cron.confirmed ==> Billing(w.status, w.billingDate, w.now) == Overdue
    ensures Step(w, CronDecide).status == Suspended
  {
    ReachableKeeps(w);
  }

  /** The two rules differ during the eighth day: overdue on the dashboard, and not yet suspended. */
  lemma RulesDifferExactlyWhen(billingDate: int, now: int)
    ensures PastGrace(billingDate, now) ==> Billing(Active, billingDate, now) == Overdue
    ensures Billing(Active, billingDate, now) == Overdue && !PastGrace(billingDate, now)
            <==> 7 * DAY < now - billingDate < 8 * DAY
  {
  }

  /** The cron is about to suspend a tenant that is not overdue. */
  predicate Wrong(w: World) {
    Suspends(w) && Billing(Active, w.billingDate, w.now) != Overdue
  }

  /**
   The suspending `UPDATE` does not look at the row again. It hits a tenant that is not overdue exactly when the months
   paid since the fetch carry the billing date that was fetched into the last seven days or beyond.
   */
  lemma WronglySuspendsExactlyWhen(w: World)
    requires Reachable(w) && Suspends(w)
    ensures w.cron.confirmed <= |w.months|
    ensures Wrong(w) <==> w.cron.billingDate + Sum(w.months[w.cron.confirmed..]) >= w.now - 7 * DAY
    ensures Wrong(w) ==> w.cron.confirmed < |w.months|
  {
    ReachableKeeps(w);
  }

  function PendingRows(pushes: seq<Push>): set<nat> {
    set i: nat | i < |pushes| && pushes[i].status == Pending
  }

  /** The cron has not decided yet, and the owner asks for no new request. */
  predicate Waiting(events: seq<Event>) {
    forall k :: 0 <= k < |events| ==> !events[k].CronDecide? && !events[k].PayNow?
  }

  /** The furthest that the billing date can be carried by the requests pending. */
  function Reach(w: World): int {
    w.billingDate + LONGEST * |PendingRows(w.pushes)|
  }

  lemma PendingAfter(pushes: seq<Push>, i: nat, p: Push)
    requires i < |pushes| && pushes[i].status == Pending
    ensures PendingRows(pushes[i := p])
            == if p.status == Pending then PendingRows(pushes) else PendingRows(pushes) - {i}
    ensures |PendingRows(pushes) - {i}| == |PendingRows(pushes)| - 1
  {
    assert PendingRows(pushes) == PendingRows(pushes) - {i} + {i};
  }

  lemma StepReach(w: World, e: Event)
    requires Can(w, e) && w.cron.Fetched? && !e.CronDecide? && !e.PayNow?
    ensures Reach(Step(w, e)) <= Reach(w) && w.now <= Step(w, e).now && Step(w, e).cron == w.cron
  {
    match e
    case PayNowAnswer(i, ok) => PendingAfter(w.pushes, i, Step(w, e).pushes[i]);
    case Outcome(i, ok, month) =>
      if w.pushes[i].status == Pending { PendingAfter(w.pushes, i, Step(w, e).pushes[i]); }
    case _ =>
  }

  lemma {:induction false} RunReach(w: World, events: seq<Event>)
    requires Possible(w, events) && w.cron.Fetched? && Waiting(events)
    ensures Reach(Run(w, events)) <= Reach(w) && w.now <= Run(w, events).now && Run(w, events).cron == w.cron
    decreases |events|
  {
    if events != [] {
      RunReach(w, events[..|events| - 1]);
      StepReach(Run(w, events[..|events| - 1]), events[|events| - 1]);
    }
  }

  /** Every pending request is answered, if need be, and then confirmed with the longest month. */
  lemma {:induction false} ConfirmAll(first: World, events: seq<Event>, w: World)
      returns (longer: seq<Event>, w': World)
    requires Possible(first, events) && Run(first, events) == w && Waiting(events) && w.cron.Fetched?
    ensures Possible(first, longer) && Run(first, longer) == w' && Waiting(longer)
    ensures w'.billingDate == Reach(w) && w'.now == w.now && w'.cron == w.cron
    decreases |PendingRows(w.pushes)|
  {
    longer, w' := events, w;
    if PendingRows(w.pushes) != {} {
      var i :| i in PendingRows(w.pushes);
      longer, w' := MakeReachable(first, events, w, i);
      var e := Outcome(i, true, LONGEST);
      PendingAfter(w'.pushes, i, Step(w', e).pushes[i]);
      longer := Continued(first, longer, w', e);
      longer, w' := ConfirmAll(first, longer, Step(w', e));
    }
  }

  lemma MakeReachable(first: World, events: seq<Event>, w: World, i: nat) returns (longer: seq<Event>, w': World)
    requires Possible(first, events) && Run(first, events) == w && Waiting(events) && i in PendingRows(w.pushes)
    ensures Possible(first, longer) && Run(first, longer) == w' && Waiting(longer)
    ensures w' == w.(pushes := w'.pushes) && PendingRows(w'.pushes) == PendingRows(w.pushes)
    ensures i < |w'.pushes| && w'.pushes[i].reachable && w'.pushes[i].status == Pending
  {
    longer, w' := events, w;
    if !w.pushes[i].reachable {
      var e := PayNowAnswer(i, true);
      PendingAfter(w.pushes, i, Step(w, e).pushes[i]);
      longer := Continued(first, events, w, e);
      w' := Step(w, e);
    }
  }

  /**
   Before the decision, and without new requests of the owner's, the suspension can still go wrong exactly when the
   requests pending, a month of 31 days each, can carry the date far enough.
   */
  lemma {:induction false} CanGoWrongExactlyWhen(w: World)
    requires Suspends(w)
    ensures (exists events :: Possible(w, events) && Waiting(events) && Wrong(Run(w, events)))
            <==> w.billingDate + 31 * 86_400_000_000 * |PendingRows(w.pushes)| >= w.now - 7 * 86_400_000_000
  {
    if Reach(w) >= w.now - 7 * DAY {
      var events, last := ConfirmAll(w, [], w);
      assert Wrong(last);
    } else {
      forall events | Possible(w, events) && Waiting(events) ensures !Wrong(Run(w, events)) {
        RunReach(w, events);
      }
    }
  }

  /** Such a run: the owner pays late and the confirmation arrives between the cron's fetch and its suspension. */
  lemma WronglySuspendsOnce() returns (w: World)
    ensures Reachable(w) && Suspends(w) && w.status == Active
    ensures Billing(w.status, w.billingDate, w.now) == Paid && Step(w, CronDecide).status == Suspended
  {
    var start := Registered(0, 0);
    var w1 := Step(start, PayNow);
    var w2 := Step(w1, PayNowAnswer(0, true));
    var w3 := Step(w2, Wait(9 * DAY));
    var w4 := Step(w3, CronFetch);
    w := Step(w4, Outcome(0, true, 30 * DAY));
    var e1 := Continued(start, [], start, PayNow);
    var e2 := Continued(start, e1, w1, PayNowAnswer(0, true));
    var e3 := Continued(start, e2, w2, Wait(9 * DAY));
    var e4 := Continued(start, e3, w3, CronFetch);
    var e5 := Continued(start, e4, w4, Outcome(0, true, 30 * DAY));
  }

  lemma Continued(first: World, events: seq<Event>, w: World, e: Event) returns (longer: seq<Event>)
    requires Possible(first, events) && Run(first, events) == w && Can(w, e)
    ensures Possible(first, longer) && Run(first, longer) == Step(w, e) && longer == events + [e]
  {
    longer := events + [e];
    assert longer[..|events|] == events;
  }

  /**
   A tenant fetched as active whose date has come: suspended after eight whole days, and before that asked to pay
   exactly if no request of the last 24 hours is pending or confirmed.
   */
  lemma DueIsAskedOrSuspended(w: World)
    requires w.cron.Fetched? && w.cron.status == Active && w.cron.billingDate <= w.cron.at
    ensures var day, w' := 86_400_000_000, Step(w, CronDecide);
            var over := w.cron.at - w.cron.billingDate >= 8 * day;
            && w'.status == (if over then Suspended else w.status) && w'.pushes == w.pushes
            && (w'.cron.Counted? <==> !over && forall i :: 0 <= i < |w.pushes| ==>
                  w.pushes[i].at <= w.now - day || w.pushes[i].status == Failed)
            && (w'.cron.Counted? ==>
                  && Step(w', CronPush(true)).pushes
                     == w.pushes + [Push(w.now, Pending, true, Some(Count(w.now, |w.pushes|)))]
                  && Step(w', CronPush(false)).pushes == w.pushes)
  {
  }

  /** The dashboard's three words. */
  lemma BillingExactly(status: TenantStatus, billingDate: int, now: int)
    ensures var week := 7 * 86_400_000_000;
            && (Billing(status, billingDate, now) == Overdue <==> status != Active || billingDate < now - week)
            && (Billing(status, billingDate, now) == InGrace <==> status == Active && now - week <= billingDate < now)
            && (Billing(status, billingDate, now) == Paid <==> status == Active && now <= billingDate)
  {
  }

  // ---------------------------------------------------------------- the cron and the payment, undisturbed

  class Account {
    var now: int
    var status: TenantStatus
    var billingDate: int
    var pushes: seq<Push>
    ghost var months: seq<nat>

    ghost function State(): World
      reads this
    {
      World(now, status, billingDate, pushes, months, Idle)
    }

    constructor (at: int, due: int)
      ensures State() == Registered(at, due)
    {
      now, status, billingDate, pushes, months := at, Active, due, [], [];
    }

    /** One tenant's turn in the cron with nothing else happening meanwhile. */
    method TenantBillingCron(pushAccepted: bool)
      modifies this`status, this`pushes
      ensures var fetched := Step(old(State()), CronFetch);
              var decided := Step(fetched, CronDecide);
              State() == if decided.cron.Counted? then Step(decided, CronPush(pushAccepted)) else decided
      ensures var day := 86_400_000_000;
              var due := old(status) == Active && billingDate <= now;
              var asked := due && now - billingDate < 8 * day && pushAccepted
                           && forall i :: 0 <= i < |old(pushes)| ==>
                                old(pushes)[i].at <= now - day || old(pushes)[i].status == Failed;
              && status == (if due && now - billingDate >= 8 * day then Suspended else old(status))
              && pushes == if asked then old(pushes) + [Push(now, Pending, true, Some(Count(now, |old(pushes)|)))]
                           else old(pushes)
    {
      if status != Active { return; }
      var daysOverdue := (now - billingDate) / DAY;
      if billingDate <= now {
        if daysOverdue > 7 {
          status := Suspended;
        } else {
          var recentPush := CountRecent();
          if recentPush == 0 && pushAccepted {
            pushes := pushes + [Push(now, Pending, true, Some(Count(now, |pushes|)))];
          }
        }
      }
    }

    /** `SELECT COUNT(*)` of the pending and confirmed pushes of the last 24 hours. */
    method CountRecent() returns (n: nat)
      ensures n == 0 <==> NoneRecent(pushes, now)
      ensures n == 0 <==> forall i :: 0 <= i < |pushes| ==>
                pushes[i].at <= now - 86_400_000_000 || pushes[i].status == Failed
    {
      n := 0;
      var i := 0;
      while i < |pushes|
        invariant i <= |pushes|
        invariant n == 0 <==> forall j :: 0 <= j < i ==> !Recent(pushes[j], now)
      {
        if Recent(pushes[i], now) { n := n + 1; }
        i := i + 1;
      }
    }

    method InitiatePlatformBillingPayment(pushAccepted: bool) returns (ok: bool)
      modifies this`pushes
      ensures ok == pushAccepted
      ensures State() == Step(Step(old(State()), PayNow), PayNowAnswer(|old(pushes)|, pushAccepted))
      ensures pushes == old(pushes) + [Push(now, if pushAccepted then Pending else Failed, pushAccepted, None)]
    {
      var i := |pushes|;
      pushes := pushes + [Push(now, Pending, false, None)];
      pushes := pushes[i := pushes[i].(status := if pushAccepted then Pending else Failed, reachable := pushAccepted)];
      ok := pushAccepted;
    }
  }
}
