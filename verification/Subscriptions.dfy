/**
 PPPoE subscriptions: a daily cron that ages them by whole days left, and renewals at any instant. The cron reads its
 rows once and writes them one by one later, so a renewal can fall between a row's reading and its writing.
 */
module Subscriptions {
  import opened Common

  /** Microseconds, the resolution of the timestamps compared. */
  const DAY := 86_400_000_000

  datatype Status = Active | Grace | Suspended | Cancelled

  datatype Subscription = Subscription(status: Status, end: int, autoRenew: bool)

  /** `timedelta.days` floors, so half a day past the end is -1. */
  function DaysLeft(sub: Subscription, now: int): int {
    (sub.end - now) / DAY
  }

  /** The text messages, named by the days left at which they go out. */
  datatype Message = ThreeDays | Tomorrow | InGrace | Stopped

  predicate IsDue(m: Message, days: int) {
    match m
    case ThreeDays => days == 3
    case Tomorrow => days == 1
    case InGrace => days == 0
    case Stopped => days < 0
  }

  /** What the cron does with one fetched row. */
  function Age(sub: Subscription, now: int): (Subscription, Option<Message>) {
    var days := DaysLeft(sub, now);
    if sub.status != Active && sub.status != Grace then (sub, None)
    else if days == 3 && sub.autoRenew then (sub, Some(ThreeDays))
    else if days == 1 && sub.autoRenew then (sub, Some(Tomorrow))
    else if days == 0 && sub.status == Active then (sub.(status := Grace), Some(InGrace))
    else if days < 0 then (sub.(status := Suspended), Some(Stopped))
    else (sub, None)
  }

  /** A renewal as its comment means it. */
  function Renew(sub: Subscription, now: int, days: nat): Subscription {
    var running := sub.end > now && (sub.status == Active || sub.status == Grace);
    sub.(status := Active, end := (if running then sub.end else now) + days * DAY)
  }

  /** A renewal as it is written: on the first branch `datetime.timedelta` is looked up on the class and raises. */
  function RenewAsWritten(sub: Subscription, now: int, days: nat): Option<Subscription> {
    if sub.end > now && (sub.status == Active || sub.status == Grace) then None
    else Some(sub.(status := Active, end := now + days * DAY))
  }

  // ---------------------------------------------------------------- runs of one subscription

  datatype Event =
    | Fetch
    | Write(at: int, told: bool)
    | Skip(at: int)
    | Renewal(at: int, days: nat)
    | AutoRenew(at: int, on: bool)

  /** The row as the cron read it, the tick, and the paid period it was read in. */
  datatype Fetched = Fetched(sub: Subscription, at: int, period: nat)

  /** A message handed over to be sent, with the paid period and its end, and the tick. */
  datatype Notice = Notice(message: Message, period: nat, end: int, at: int)

  /**
   `missed` is what the last run of the cron had read when it broke off before this row. `lost` is paid time that a
   renewal has cut off; `raced` tells that one fell between a reading and its writing.
   */
  datatype World = World(
    sub: Subscription, now: int, nextTick: int, period: nat, fetched: Option<Fetched>, sent: seq<Notice>,
    missed: Option<Fetched>, start: int, paid: int, lapsed: int, lost: int, raced: bool)

  /** A customer's first payment creates the subscription; the next tick comes within a day. */
  function Created(now: int, days: nat, autoRenew: bool, nextTick: int): World {
    World(Subscription(Active, now + days * DAY, autoRenew), now, nextTick, 0, None, [], None, now, days * DAY, 0, 0,
          false)
  }

  /**
   Packages last at least a day; instants do not run backwards, the cron starts daily and ends before the next start. A
   router that cannot be reached keeps the message of a suspension from being sent, and the rows after that one from
   being written.
   */
  predicate Can(w: World, e: Event) {
    match e
    case Fetch => w.fetched.None?
    case Write(at, told) =>
      w.fetched.Some? && w.now <= at <= w.nextTick && (told || Verdict(w.fetched.value) == Some(Suspended))
    case Skip(at) => w.fetched.Some? && w.now <= at <= w.nextTick
    case Renewal(at, days) => w.now <= at <= w.nextTick && days >= 1
    case AutoRenew(at, _) => w.now <= at <= w.nextTick
  }

  /** The status the cron is going to write, if any: its `UPDATE` names the row by id only. */
  function Verdict(f: Fetched): Option<Status> {
    var aged := Age(f.sub, f.at).0;
    if aged.status == f.sub.status then None else Some(aged.status)
  }

  function Notices(f: Fetched): seq<Notice> {
    match Age(f.sub, f.at).1
    case None => []
    case Some(m) => [Notice(m, f.period, f.sub.end, f.at)]
  }

  function Renewed(w: World, at: int, days: nat): World {
    w.(sub := Renew(w.sub, at, days), now := at, period := w.period + 1, paid := w.paid + days * DAY,
       lapsed := w.lapsed + (if w.sub.end < at then at - w.sub.end else 0),
       lost := w.lost + (if w.sub.status == Suspended && at < w.sub.end then w.sub.end - at else 0),
       raced := w.raced || (w.fetched.Some? && Verdict(w.fetched.value).Some?))
  }

  /** The query picks active rows and rows in grace. */
  function Step(w: World, e: Event): World
    requires Can(w, e)
  {
    match e
    case Fetch =>
      var picked := w.sub.status == Active || w.sub.status == Grace;
      w.(now := w.nextTick, nextTick := w.nextTick + DAY,
         fetched := if picked then Some(Fetched(w.sub, w.nextTick, w.period)) else None, missed := None)
    case Write(at, told) =>
      var f := w.fetched.value;
      var sub := match Verdict(f) case None => w.sub case Some(status) => w.sub.(status := status);
      w.(sub := sub, now := at, fetched := None, sent := w.sent + if told then Notices(f) else [])
    case Skip(at) => w.(now := at, fetched := None, missed := w.fetched)
    case Renewal(at, days) => Renewed(w, at, days)
    case AutoRenew(at, on) => w.(sub := w.sub.(autoRenew := on), now := at)
  }

  predicate Possible(w: World, events: seq<Event>)
    decreases |events|, 0
  {
    events == []
    || (Possible(w, events[..|events| - 1]) && Can(Run(w, events[..|events| - 1]), events[|events| - 1]))
  }

  function Run(w: World, events: seq<Event>): World
    requires Possible(w, events)
    decreases |events|, 1
  {
    if events == [] then w else Step(Run(w, events[..|events| - 1]), events[|events| - 1])
  }

  // ---------------------------------------------------------------- the invariant

  /** The status that the end and the last tick call for. */
  function Standing(end: int, lastTick: int): Status {
    if end < lastTick then Suspended else if end < lastTick + DAY then Grace else Active
  }

  /** After a tick that wrote its row: nobody is let run on, and nobody cut off unless a renewal has raced a write. */
  ghost predicate Settled(w: World) {
    var lastTick := w.nextTick - DAY;
    && w.sub.status != Cancelled
    && (w.sub.status == Active ==> w.nextTick <= w.sub.end)
    && (w.sub.status == Grace ==> lastTick <= w.sub.end)
    && (!w.raced ==> w.sub.status == Standing(w.sub.end, lastTick))
  }

  /** Between a reading and its writing, or after a tick that broke off in between: the row is as read, or renewed. */
  ghost predicate Pending(w: World, f: Fetched) {
    && f.at == w.nextTick - DAY && f.period <= w.period
    && (f.sub.status == Active || f.sub.status == Grace)
    && (!w.raced && f.sub.status == Grace ==> f.sub.end < f.at)
    && (if w.period == f.period then w.sub.end == f.sub.end && w.sub.status == f.sub.status
        else w.sub.status == Active && w.nextTick <= w.sub.end)
  }

  ghost predicate Clocked(w: World) {
    && w.nextTick - DAY <= w.now <= w.nextTick
    && w.sub.end == w.start + w.paid + w.lapsed - w.lost
    && (!w.raced ==> w.lost == 0)
    && (w.fetched.Some? ==> Pending(w, w.fetched.value) && w.missed.None?)
    && (w.fetched.Some? && w.fetched.value.period < w.period ==> w.raced || Verdict(w.fetched.value).None?)
    && (w.missed.Some? ==> Pending(w, w.missed.value))
    && (w.fetched.None? && w.missed.None? ==> Settled(w))
  }

  /** Messages were due on their day and at a tick before, and are for the end of their period. */
  ghost predicate OnDay(w: World) {
    forall i :: 0 <= i < |w.sent| ==>
      && w.sent[i].period <= w.period && IsDue(w.sent[i].message, (w.sent[i].end - w.sent[i].at) / DAY)
      && w.sent[i].at <= w.nextTick - (if w.fetched.None? then DAY else 2 * DAY)
      && (w.sent[i].period == w.period ==> w.sent[i].end == w.sub.end)
      && (w.fetched.Some? && w.sent[i].period == w.fetched.value.period ==>
            w.sent[i].end == w.fetched.value.sub.end)
  }

  /** Two of one period were for one end, on different ticks, and the last message of a period is its last. */
  ghost predicate Apart(w: World) {
    && (forall i, j :: 0 <= i < j < |w.sent| && w.sent[i].period == w.sent[j].period ==>
          && w.sent[i].end == w.sent[j].end && w.sent[i].at <= w.sent[j].at - DAY
          && w.sent[i].message != Stopped)
    && (forall i :: 0 <= i < |w.sent| && w.sent[i].message == Stopped ==> Closed(w, w.sent[i].period))
  }

  ghost predicate Sparing(w: World) {
    OnDay(w) && Apart(w)
  }

  /** No message of this period can follow. */
  predicate Closed(w: World, period: nat) {
    && (w.period == period ==> w.sub.status == Suspended)
    && (w.fetched.Some? ==> w.fetched.value.period != period)
  }

  /** What the cron makes of a row, however long it has not been written. */
  lemma TickDays(sub: Subscription, tick: int)
    requires sub.status == Active || sub.status == Grace
    ensures var aged := Age(sub, tick).0;
            && aged.end == sub.end && aged.status != Cancelled
            && (aged.status == Active ==> tick + DAY <= sub.end) && (aged.status == Grace ==> tick <= sub.end)
            && (aged.status == Suspended <==> sub.end < tick)
            && (sub.status == Active || sub.end < tick ==> aged.status == Standing(sub.end, tick))
    ensures Age(sub, tick).1.Some? ==> IsDue(Age(sub, tick).1.value, DaysLeft(sub, tick))
    ensures Age(sub, tick).1 == Some(Stopped) <==> sub.end < tick
  {
  }

  lemma RenewalReaches(sub: Subscription, at: int, days: nat)
    requires days >= 1
    ensures Renew(sub, at, days).end >= at + DAY
  {
    AtLeastADay(days);
  }

  lemma WriteClocked(w: World, at: int, told: bool)
    requires Clocked(w) && Can(w, Write(at, told))
    ensures Clocked(Step(w, Write(at, told)))
  {
    var f := w.fetched.value;
    TickDays(f.sub, f.at);
  }

  lemma RenewalClocked(w: World, at: int, days: nat)
    requires Clocked(w) && Can(w, Renewal(at, days))
    ensures Clocked(Step(w, Renewal(at, days)))
  {
    RenewalReaches(w.sub, at, days);
  }

  lemma StepClocked(w: World, e: Event)
    requires Clocked(w) && Can(w, e)
    ensures Clocked(Step(w, e))
  {
    match e
    case Fetch =>
    case Write(at, told) => WriteClocked(w, at, told);
    case Skip(_) =>
    case Renewal(at, days) => RenewalClocked(w, at, days);
    case AutoRenew(_, _) =>
  }

  lemma WriteOnDay(w: World, at: int, told: bool)
    requires Clocked(w) && OnDay(w) && Can(w, Write(at, told))
    ensures OnDay(Step(w, Write(at, told)))
  {
    TickDays(w.fetched.value.sub, w.fetched.value.at);
  }

  lemma WriteApart(w: World, at: int, told: bool)
    requires Clocked(w) && OnDay(w) && Apart(w) && Can(w, Write(at, told))
    ensures Apart(Step(w, Write(at, told)))
  {
    var f := w.fetched.value;
    TickDays(f.sub, f.at);
    forall i | 0 <= i < |w.sent| && w.sent[i].period == f.period
      ensures w.sent[i].end == f.sub.end && w.sent[i].at <= f.at - DAY && w.sent[i].message != Stopped
    {
      assert w.sent[i].message == Stopped ==> Closed(w, w.sent[i].period);
    }
    forall i | 0 <= i < |w.sent| && w.sent[i].message == Stopped
      ensures Closed(Step(w, Write(at, told)), w.sent[i].period)
    {
      assert Closed(w, w.sent[i].period);
    }
  }

  lemma RenewalSparing(w: World, at: int, days: nat)
    requires Clocked(w) && Sparing(w) && Can(w, Renewal(at, days))
    ensures Sparing(Step(w, Renewal(at, days)))
  {
  }

  lemma FetchSparing(w: World)
    requires Clocked(w) && Sparing(w) && Can(w, Fetch)
    ensures Sparing(Step(w, Fetch))
  {
  }

  lemma StepSparing(w: World, e: Event)
    requires Clocked(w) && Sparing(w) && Can(w, e)
    ensures Sparing(Step(w, e))
  {
    match e
    case Fetch => FetchSparing(w);
    case Write(at, told) =>
      WriteOnDay(w, at, told);
      WriteApart(w, at, told);
    case Renewal(at, days) => RenewalSparing(w, at, days);
    case _ =>
  }

  lemma {:induction false} RunKeeps(w: World, events: seq<Event>)
    requires Clocked(w) && Sparing(w) && Possible(w, events)
    ensures Clocked(Run(w, events)) && Sparing(Run(w, events))
    decreases |events|
  {
    if events != [] {
      var n := |events| - 1;
      RunKeeps(w, events[..n]);
      StepClocked(Run(w, events[..n]), events[n]);
      StepSparing(Run(w, events[..n]), events[n]);
    }
  }

  ghost predicate Begins(w: World) {
    exists now: int, days: nat, autoRenew: bool, nextTick: int ::
      days >= 1 && now <= nextTick <= now + DAY && w == Created(now, days, autoRenew, nextTick)
  }

  ghost predicate Reachable(w: World) {
    exists first: World, events: seq<Event> :: Begins(first) && Possible(first, events) && w == Run(first, events)
  }

  lemma BeginsClocked(w: World)
    requires Begins(w)
    ensures Clocked(w) && Sparing(w)
  {
    var now: int, days: nat, autoRenew: bool, nextTick: int :|
      days >= 1 && now <= nextTick <= now + DAY && w == Created(now, days, autoRenew, nextTick);
    AtLeastADay(days);
    CreatedClocked(w, now, days * DAY);
  }

  lemma AtLeastADay(days: nat)
    requires days >= 1
    ensures days * DAY >= DAY
  {
  }

  lemma CreatedClocked(w: World, now: int, length: int)
    requires length >= DAY && now <= w.nextTick <= now + DAY && w.now == now
    requires w.sub.status == Active && w.sub.end == now + length && w.start == now && w.paid == length
    requires w.lapsed == 0 && w.lost == 0 && !w.raced && w.sent == [] && w.fetched.None? && w.missed.None?
    ensures Clocked(w) && Sparing(w)
  {
  }

  lemma ReachableKeeps(w: World)
    requires Reachable(w)
    ensures Clocked(w) && Sparing(w)
  {
    var first: World, events: seq<Event> :| Begins(first) && Possible(first, events) && w == Run(first, events);
    BeginsClocked(first);
    RunKeeps(first, events);
  }

  // ---------------------------------------------------------------- suspensions

  /**
   As long as no renewal has fallen between a row's reading and its writing, the status after a tick that wrote its row
   is a function of the period's end and that tick, so no suspension is early or late.
   */
  lemma SuspendedExactlyWhen(w: World)
    requires Reachable(w) && w.fetched.None? && w.missed.None? && !w.raced
    ensures w.sub.status == Suspended <==> w.sub.end < w.nextTick - DAY
    ensures w.sub.status == Grace <==> w.nextTick - DAY <= w.sub.end < w.nextTick
    ensures w.sub.status == Active <==> w.nextTick <= w.sub.end
    ensures w.sub.status == Suspended ==> w.sub.end < w.now
  {
    ReachableKeeps(w);
  }

  /**
   Whatever races and breaks off, a suspension is late exactly when the last tick broke off before a row that it had
   read as over and that has not been renewed since; the next tick that gets to the row makes up for it.
   */
  lemma LateExactlyWhen(w: World)
    requires Reachable(w) && w.fetched.None?
    ensures w.sub.end < w.nextTick - DAY && w.sub.status != Suspended
            <==> && w.missed.Some? && Verdict(w.missed.value) == Some(Suspended)
                 && w.missed.value.period == w.period
    ensures var next := Tick(w);
            next.missed.None? && (next.sub.end < next.nextTick - DAY ==> next.sub.status == Suspended)
  {
    ReachableKeeps(w);
    TickClocked(w);
    if w.missed.Some? {
      TickDays(w.missed.value.sub, w.missed.value.at);
    }
  }

  /** A suspending write hits a subscription that has not expired exactly when it was renewed since it was read. */
  lemma WronglySuspendsExactlyWhen(w: World, at: int, told: bool)
    requires Reachable(w) && Can(w, Write(at, told)) && Verdict(w.fetched.value) == Some(Suspended)
    ensures Step(w, Write(at, told)).sub.status == Suspended
    ensures at <= w.sub.end <==> w.fetched.value.period < w.period
  {
    ReachableKeeps(w);
    TickDays(w.fetched.value.sub, w.fetched.value.at);
  }

  /** And a write of grace hits one that is not in its last day exactly then. */
  lemma WronglyGracesExactlyWhen(w: World, at: int, told: bool)
    requires Reachable(w) && Can(w, Write(at, told)) && Verdict(w.fetched.value) == Some(Grace)
    ensures Step(w, Write(at, told)).sub.status == Grace
    ensures w.nextTick <= w.sub.end <==> w.fetched.value.period < w.period
  {
    ReachableKeeps(w);
    TickDays(w.fetched.value.sub, w.fetched.value.at);
  }

  lemma Then(first: World, events: seq<Event>, w: World, e: Event) returns (longer: seq<Event>)
    requires Possible(first, events) && Run(first, events) == w && Can(w, e)
    ensures Possible(first, longer) && Run(first, longer) == Step(w, e)
  {
    longer := events + [e];
    assert longer[..|events|] == events;
  }

  /**
   A run that suspends a customer who has just paid for thirty days: the payment comes after the cron has read the
   row and before it writes it. Paying once more then cuts off what was left.
   */
  lemma SuspendsThePaidUp() returns (w: World)
    ensures Reachable(w) && w.sub.status == Suspended && w.now + 29 * DAY < w.sub.end
    ensures Can(w, Renewal(w.now, 30)) && Step(w, Renewal(w.now, 30)).lost > 29 * DAY
  {
    var half := DAY / 2;
    var first := Created(0, 1, true, half);
    assert Begins(first);
    var w1 := Step(first, Fetch);
    var e1 := Then(first, [], first, Fetch);
    var w2 := Step(w1, Write(half, true));
    var e2 := Then(first, e1, w1, Write(half, true));
    var w3 := Step(w2, Fetch);
    var e3 := Then(first, e2, w2, Fetch);
    var w4 := Step(w3, Renewal(half + DAY, 30));
    var e4 := Then(first, e3, w3, Renewal(half + DAY, 30));
    w := Step(w4, Write(half + DAY + 1, true));
    var e5 := Then(first, e4, w4, Write(half + DAY + 1, true));
  }

  /** A run that leaves an ended subscription in grace: the cron breaks off before it gets to the row. */
  lemma LeftInGrace() returns (w: World)
    ensures Reachable(w) && w.fetched.None? && w.sub.status == Grace && w.sub.end < w.nextTick - DAY
  {
    var half := DAY / 2;
    var first := Created(0, 1, true, half);
    assert Begins(first);
    var w1 := Step(first, Fetch);
    var e1 := Then(first, [], first, Fetch);
    var w2 := Step(w1, Write(half, true));
    var e2 := Then(first, e1, w1, Write(half, true));
    var w3 := Step(w2, Fetch);
    var e3 := Then(first, e2, w2, Fetch);
    w := Step(w3, Skip(half + DAY));
    var e4 := Then(first, e3, w3, Skip(half + DAY));
  }

  // ---------------------------------------------------------------- grace

  /** A tick that gets to the row, and whose write no renewal races. */
  function Tick(w: World): (next: World)
    requires w.fetched.None?
    ensures next.fetched.None? && next.missed.None?
  {
    var read := Step(w, Fetch);
    if read.fetched.None? then read else Step(read, Write(read.now, true))
  }

  lemma TickClocked(w: World)
    requires Clocked(w) && w.fetched.None?
    ensures Clocked(Tick(w)) && Tick(w).fetched.None? && Tick(w).missed.None?
    ensures Tick(w).sub.end == w.sub.end && Tick(w).nextTick == w.nextTick + DAY && Tick(w).raced == w.raced
    ensures Tick(w).now == w.nextTick
  {
    StepClocked(w, Fetch);
    var read := Step(w, Fetch);
    if read.fetched.Some? { StepClocked(read, Write(read.now, true)); }
  }

  /** A tick sends each message of a subscription in its day, and the reminders only on auto-renewal. */
  lemma SentAtTheTick(w: World)
    requires w.fetched.None? && (w.sub.status == Active || w.sub.status == Grace)
    ensures var left, day := w.sub.end - w.nextTick, 86_400_000_000;
            Tick(w).sent == w.sent
              + (if 3 * day <= left < 4 * day && w.sub.autoRenew
                 then [Notice(ThreeDays, w.period, w.sub.end, w.nextTick)]
                 else if day <= left < 2 * day && w.sub.autoRenew
                 then [Notice(Tomorrow, w.period, w.sub.end, w.nextTick)]
                 else if 0 <= left < day && w.sub.status == Active
                 then [Notice(InGrace, w.period, w.sub.end, w.nextTick)]
                 else if left < 0 then [Notice(Stopped, w.period, w.sub.end, w.nextTick)] else [])
  {
  }

  /** Grace lasts one tick interval: a subscription that enters it and is not renewed is suspended at the next tick. */
  lemma GraceIsOneInterval(w: World)
    requires Reachable(w) && w.fetched.None? && w.missed.None? && !w.raced
    ensures w.sub.status == Grace ==> Tick(w).sub.status == Suspended
    ensures w.sub.status == Active ==> Tick(w).sub.status != Suspended
    ensures w.sub.status == Active && Tick(w).sub.status == Grace ==>
              w.nextTick <= w.sub.end < w.nextTick + DAY && Tick(w).fetched.None?
                && Tick(Tick(w)).sub.status == Suspended
  {
    ReachableKeeps(w);
    TickClocked(w);
    TickClocked(Tick(w));
  }

  /** The world after `k` ticks with no renewal. */
  function Wait(w: World, k: nat): (waited: World)
    requires w.fetched.None?
    ensures waited.fetched.None?
  {
    if k == 0 then w else Tick(Wait(w, k - 1))
  }

  lemma {:induction false} WaitClocked(w: World, k: nat)
    requires Clocked(w) && w.fetched.None?
    ensures Clocked(Wait(w, k)) && Wait(w, k).raced == w.raced && (k > 0 ==> Wait(w, k).missed.None?)
    ensures Wait(w, k).sub.end == w.sub.end && Wait(w, k).nextTick == w.nextTick + k * DAY
    ensures k > 0 ==> Wait(w, k).now == Wait(w, k).nextTick - DAY
  {
    if k != 0 {
      WaitClocked(w, k - 1);
      TickClocked(Wait(w, k - 1));
    }
  }

  /**
   The tick that suspends an unrenewed subscription, and the grace it got. The message at the start of grace speaks of
   an ended period and of 24 more hours; it goes out no later than the end, and the customer has 24 hours past the
   end exactly when the end falls on a tick.
   */
  lemma GraceIsFullExactlyWhen(w: World) returns (k: nat)
    requires Reachable(w) && w.fetched.None? && w.missed.None? && !w.raced
    requires w.sub.status == Active || w.sub.status == Grace
    ensures k >= 1 && Wait(w, k).sub.status == Suspended && Wait(w, k - 1).sub.status == Grace
    ensures forall i: nat :: i < k ==> Wait(w, i).sub.status != Suspended
    ensures var suspendedAt := Wait(w, k).now;
            && 0 < suspendedAt - w.sub.end <= DAY
            && (suspendedAt - w.sub.end == DAY <==> (w.sub.end - w.nextTick) % DAY == 0)
  {
    ReachableKeeps(w);
    k := (w.sub.end - w.nextTick) / DAY + 2;
    WaitClocked(w, k);
    WaitClocked(w, k - 1);
    forall i: nat | i < k ensures Wait(w, i).sub.status != Suspended {
      WaitClocked(w, i);
      assert i * DAY <= (k - 1) * DAY;
    }
  }

  // ---------------------------------------------------------------- messages and paid time

  /** In every run, raced or not, no message is sent twice in one paid period. */
  lemma OnceAPeriod(w: World, i: nat, j: nat)
    requires Reachable(w) && i < j < |w.sent| && w.sent[i].message == w.sent[j].message
    ensures w.sent[i].period != w.sent[j].period
  {
    ReachableKeeps(w);
  }

  /**
   The end is the start, plus all durations paid for, plus the time between periods, less what renewals cut off; and
   they cut something off only of a subscription that a raced write had suspended.
   */
  lemma PaidTimeGranted(w: World)
    requires Reachable(w)
    ensures w.sub.end == w.start + w.paid + w.lapsed - w.lost
    ensures !w.raced ==> w.sub.end == w.start + w.paid + w.lapsed
  {
    ReachableKeeps(w);
  }

  /** As written, a renewal raises exactly when the running period has not ended, but for a raced suspension. */
  lemma RenewalRaisesExactlyWhen(w: World, at: int, days: nat)
    requires Reachable(w) && Can(w, Renewal(at, days))
    ensures RenewAsWritten(w.sub, at, days) == None <==> at < w.sub.end && w.sub.status != Suspended
    ensures !w.raced ==> (RenewAsWritten(w.sub, at, days) == None <==> at < w.sub.end)
    ensures at >= w.sub.end || w.sub.status == Suspended ==>
              RenewAsWritten(w.sub, at, days) == Some(Step(w, Renewal(at, days)).sub)
  {
    ReachableKeeps(w);
  }

  // ---------------------------------------------------------------- the cron and the renewal

  datatype Sms = Sms(id: nat, message: Message)

  datatype RenewalError = PackageNotFound | AttributeError | RouterError

  function Texts(id: nat, message: Option<Message>): seq<Sms> {
    match message case None => [] case Some(m) => [Sms(id, m)]
  }

  /** What the `SELECT` returns, each row once, with the columns it read. */
  ghost predicate Selects(fetched: seq<(nat, Subscription)>, rows: map<nat, Subscription>) {
    && (forall i :: 0 <= i < |fetched| ==>
          && fetched[i].0 in rows && fetched[i].1 == rows[fetched[i].0]
          && (fetched[i].1.status == Active || fetched[i].1.status == Grace))
    && (forall id :: id in rows && (rows[id].status == Active || rows[id].status == Grace) ==>
          exists i :: 0 <= i < |fetched| && fetched[i].0 == id)
    && (forall i, j :: 0 <= i < j < |fetched| ==> fetched[i].0 != fetched[j].0)
  }

  /** The cron's `UPDATE` of a row, by what it had read of it. */
  function WriteBack(row: Subscription, seen: Subscription, now: int): Subscription {
    var aged := Age(seen, now).0;
    if aged.status == seen.status then row else row.(status := aged.status)
  }

  /** The rows after the first `k` fetched ones are written. */
  function RowsAfter(rows: map<nat, Subscription>, fetched: seq<(nat, Subscription)>, k: nat, now: int)
    : map<nat, Subscription>
    requires k <= |fetched|
  {
    if k == 0 then rows
    else
      var before := RowsAfter(rows, fetched, k - 1, now);
      var (id, seen) := fetched[k - 1];
      if id in before then before[id := WriteBack(before[id], seen, now)] else before
  }

  /** The messages for the first `k` fetched rows. */
  function TextsAfter(fetched: seq<(nat, Subscription)>, k: nat, now: int): seq<Sms>
    requires k <= |fetched|
  {
    if k == 0 then []
    else TextsAfter(fetched, k - 1, now) + Texts(fetched[k - 1].0, Age(fetched[k - 1].1, now).1)
  }

  /** The PPPoE secrets that are disabled after the first `k` fetched rows; only some customers have a router. */
  function OffAfter(off: set<nat>, fetched: seq<(nat, Subscription)>, routed: set<nat>, k: nat, now: int): set<nat>
    requires k <= |fetched|
  {
    if k == 0 then off
    else
      OffAfter(off, fetched, routed, k - 1, now)
      + if Age(fetched[k - 1].1, now).1 == Some(Stopped) && fetched[k - 1].0 in routed then {fetched[k - 1].0} else {}
  }

  lemma UndisturbedWrite(sub: Subscription, now: int)
    ensures WriteBack(sub, sub, now) == Age(sub, now).0
  {
  }

  lemma {:induction false} RestKept(rows: map<nat, Subscription>, fetched: seq<(nat, Subscription)>, k: nat, now: int,
      id: nat)
    requires k <= |fetched| && id in rows && forall i :: 0 <= i < k ==> fetched[i].0 != id
    ensures id in RowsAfter(rows, fetched, k, now) && RowsAfter(rows, fetched, k, now)[id] == rows[id]
  {
    if k != 0 {
      RestKept(rows, fetched, k - 1, now, id);
    }
  }

  /** If nothing else writes meanwhile, each fetched row is aged. */
  lemma {:induction false} UndisturbedAges(rows: map<nat, Subscription>, fetched: seq<(nat, Subscription)>, k: nat,
      now: int, i: nat)
    requires Selects(fetched, rows) && i < k <= |fetched|
    ensures var after := RowsAfter(rows, fetched, k, now);
            fetched[i].0 in after && after[fetched[i].0] == Age(rows[fetched[i].0], now).0
  {
    if i == k - 1 {
      RestKept(rows, fetched, i, now, fetched[i].0);
      UndisturbedWrite(fetched[i].1, now);
    } else {
      UndisturbedAges(rows, fetched, k - 1, now, i);
      assert fetched[k - 1].0 != fetched[i].0;
    }
  }

  lemma {:induction false} TextSent(fetched: seq<(nat, Subscription)>, k: nat, now: int, i: nat)
    requires i < k <= |fetched|
    ensures forall m :: Age(fetched[i].1, now).1 == Some(m) ==> Sms(fetched[i].0, m) in TextsAfter(fetched, k, now)
  {
    if i < k - 1 { TextSent(fetched, k - 1, now, i); }
  }

  lemma {:induction false} SecretOff(off: set<nat>, fetched: seq<(nat, Subscription)>, routed: set<nat>, k: nat,
      now: int, i: nat)
    requires i < k <= |fetched|
    ensures Age(fetched[i].1, now).1 == Some(Stopped) && fetched[i].0 in routed ==>
              fetched[i].0 in OffAfter(off, fetched, routed, k, now)
  {
    if i < k - 1 { SecretOff(off, fetched, routed, k - 1, now, i); }
  }

  lemma {:induction false} RowWritten(rows: map<nat, Subscription>, fetched: seq<(nat, Subscription)>, k: nat, now: int,
      i: nat)
    requires i < k <= |fetched| && fetched[i].0 in rows
    requires forall i, j :: 0 <= i < j < |fetched| ==> fetched[i].0 != fetched[j].0
    ensures var after := RowsAfter(rows, fetched, k, now);
            fetched[i].0 in after && after[fetched[i].0] == WriteBack(rows[fetched[i].0], fetched[i].1, now)
  {
    if i == k - 1 {
      RestKept(rows, fetched, i, now, fetched[i].0);
    } else {
      RowWritten(rows, fetched, k - 1, now, i);
    }
  }

  /** Every message is the one that some row's days left call for. */
  lemma {:induction false} TextsOnly(fetched: seq<(nat, Subscription)>, k: nat, now: int, sms: Sms)
    requires k <= |fetched| && sms in TextsAfter(fetched, k, now)
    ensures exists i :: 0 <= i < k && fetched[i].0 == sms.id && Age(fetched[i].1, now).1 == Some(sms.message)
  {
    if sms in TextsAfter(fetched, k - 1, now) {
      TextsOnly(fetched, k - 1, now, sms);
    } else {
      assert fetched[k - 1].0 == sms.id;
    }
  }

  ghost predicate OneEach(texts: seq<Sms>) {
    forall p, q :: 0 <= p < q < |texts| ==> texts[p].id != texts[q].id
  }

  lemma OneMore(texts: seq<Sms>, more: seq<Sms>, id: nat)
    requires OneEach(texts) && forall p :: 0 <= p < |texts| ==> texts[p].id != id
    requires |more| <= 1 && forall p :: 0 <= p < |more| ==> more[p].id == id
    ensures OneEach(texts + more)
  {
  }

  lemma {:induction false} TextsOnce(fetched: seq<(nat, Subscription)>, k: nat, now: int)
    requires k <= |fetched|
    requires forall i, j :: 0 <= i < j < |fetched| ==> fetched[i].0 != fetched[j].0
    ensures OneEach(TextsAfter(fetched, k, now))
  {
    if k != 0 {
      TextsOnce(fetched, k - 1, now);
      var texts := TextsAfter(fetched, k - 1, now);
      var more := Texts(fetched[k - 1].0, Age(fetched[k - 1].1, now).1);
      forall p | 0 <= p < |texts| ensures texts[p].id != fetched[k - 1].0 {
        TextsOnly(fetched, k - 1, now, texts[p]);
      }
      OneMore(texts, more, fetched[k - 1].0);
    }
  }

  lemma {:induction false} SecretsExactly(off: set<nat>, fetched: seq<(nat, Subscription)>, routed: set<nat>, k: nat,
      now: int)
    requires k <= |fetched|
    requires forall i :: 0 <= i < |fetched| ==> fetched[i].1.status == Active || fetched[i].1.status == Grace
    ensures OffAfter(off, fetched, routed, k, now)
            == off + set i | 0 <= i < k && fetched[i].1.end < now && fetched[i].0 in routed :: fetched[i].0
  {
    if k != 0 {
      SecretsExactly(off, fetched, routed, k - 1, now);
    }
  }

  lemma {:induction false} RowsSameKeys(rows: map<nat, Subscription>, fetched: seq<(nat, Subscription)>, k: nat,
      now: int)
    requires k <= |fetched|
    ensures RowsAfter(rows, fetched, k, now).Keys == rows.Keys
  {
    if k != 0 { RowsSameKeys(rows, fetched, k - 1, now); }
  }

  /** What the loop has done, in so many words. */
  lemma CronMeans(rows: map<nat, Subscription>, fetched: seq<(nat, Subscription)>, routed: set<nat>, off: set<nat>,
      written: nat, told: nat, now: int)
    requires told <= written <= |fetched|
    requires forall i :: 0 <= i < |fetched| ==> fetched[i].1.status == Active || fetched[i].1.status == Grace
    ensures forall i :: 0 <= i < told ==>
              var (id, seen) := fetched[i];
              var left, day := seen.end - now, 86_400_000_000;
              var texts := TextsAfter(fetched, told, now);
              && (3 * day <= left < 4 * day && seen.autoRenew ==> Sms(id, ThreeDays) in texts)
              && (day <= left < 2 * day && seen.autoRenew ==> Sms(id, Tomorrow) in texts)
              && (0 <= left < day && seen.status == Active ==> Sms(id, InGrace) in texts)
              && (left < 0 ==>
                    Sms(id, Stopped) in texts && (id in routed ==> id in OffAfter(off, fetched, routed, told, now)))
    ensures (forall i, j :: 0 <= i < j < |fetched| ==> fetched[i].0 != fetched[j].0) ==>
              forall i :: 0 <= i < written && fetched[i].0 in rows ==>
                var (id, seen) := fetched[i];
                var left, day := seen.end - now, 86_400_000_000;
                var after := RowsAfter(rows, fetched, written, now);
                id in after && after[id] == rows[id].(status :=
                  if left < 0 then Suspended else if 0 <= left < day && seen.status == Active then Grace
                  else rows[id].status)
  {
    forall i | 0 <= i < told
      ensures forall m :: Age(fetched[i].1, now).1 == Some(m) ==> Sms(fetched[i].0, m) in TextsAfter(fetched, told, now)
      ensures Age(fetched[i].1, now).1 == Some(Stopped) && fetched[i].0 in routed ==>
                fetched[i].0 in OffAfter(off, fetched, routed, told, now)
    {
      TextSent(fetched, told, now, i);
      SecretOff(off, fetched, routed, told, now, i);
    }
    if forall i, j :: 0 <= i < j < |fetched| ==> fetched[i].0 != fetched[j].0 {
      forall i | 0 <= i < written && fetched[i].0 in rows
        ensures fetched[i].0 in RowsAfter(rows, fetched, written, now)
        ensures RowsAfter(rows, fetched, written, now)[fetched[i].0]
                == WriteBack(rows[fetched[i].0], fetched[i].1, now)
      {
        RowWritten(rows, fetched, written, now, i);
      }
    }
  }

  /** The texts since `before` are those of the first rows, one a row at most, and no other row changes. */
  lemma CronSpares(rows: map<nat, Subscription>, fetched: seq<(nat, Subscription)>, before: seq<Sms>, written: nat,
      told: nat, now: int)
    requires told <= written <= |fetched|
    ensures var texts := before + TextsAfter(fetched, told, now);
            && (forall p :: |before| <= p < |texts| ==> exists i :: 0 <= i < told && fetched[i].0 == texts[p].id)
            && ((forall i, j :: 0 <= i < j < |fetched| ==> fetched[i].0 != fetched[j].0) ==>
                  forall p, q :: |before| <= p < q < |texts| ==> texts[p].id != texts[q].id)
    ensures RowsAfter(rows, fetched, written, now).Keys == rows.Keys
    ensures forall id :: id in rows && (forall i :: 0 <= i < written ==> fetched[i].0 != id) ==>
              RowsAfter(rows, fetched, written, now)[id] == rows[id]
  {
    var more := TextsAfter(fetched, told, now);
    RowsSameKeys(rows, fetched, written, now);
    forall id | id in rows && forall i :: 0 <= i < written ==> fetched[i].0 != id {
      RestKept(rows, fetched, written, now, id);
    }
    forall p | 0 <= p < |more| ensures exists i :: 0 <= i < told && fetched[i].0 == more[p].id {
      TextsOnly(fetched, told, now, more[p]);
    }
    if forall i, j :: 0 <= i < j < |fetched| ==> fetched[i].0 != fetched[j].0 {
      TextsOnce(fetched, told, now);
    }
  }

  class Database {
    var rows: map<nat, Subscription>
    var texts: seq<Sms>
    var secretsOff: set<nat>

    constructor ()
      ensures rows == map[] && texts == [] && secretsOff == {}
    {
      rows, texts, secretsOff := map[], [], {};
    }

    /** `fetched` is what the `SELECT` returned; the row may have changed since, and is written by its id only. */
    method WriteRow(id: nat, seen: Subscription, now: int) returns (message: Option<Message>)
      modifies this`rows
      ensures rows == if id in old(rows) then old(rows)[id := WriteBack(old(rows)[id], seen, now)] else old(rows)
      ensures message == Age(seen, now).1
      ensures var left, day := seen.end - now, 86_400_000_000;
              && (message == Some(ThreeDays) <==> 3 * day <= left < 4 * day && seen.autoRenew)
              && (message == Some(Tomorrow) <==> day <= left < 2 * day && seen.autoRenew)
              && (message == Some(InGrace) <==> 0 <= left < day && seen.status == Active)
              && (message == Some(Stopped) <==> left < 0)
      ensures id in old(rows) ==>
                var left, day := seen.end - now, 86_400_000_000;
                rows == old(rows)[id := old(rows)[id].(status :=
                  if left < 0 then Suspended else if 0 <= left < day && seen.status == Active then Grace
                  else old(rows)[id].status)]
      requires seen.status == Active || seen.status == Grace
    {
      message := None;
      var days := DaysLeft(seen, now);
      var status := seen.status;
      if days == 3 && seen.autoRenew {
        message := Some(ThreeDays);
      } else if days == 1 && seen.autoRenew {
        message := Some(Tomorrow);
      } else if days == 0 && seen.status == Active {
        status, message := Grace, Some(InGrace);
      } else if days < 0 {
        status, message := Suspended, Some(Stopped);
      }
      if id in rows && status != seen.status {
        rows := rows[id := rows[id].(status := status)];
      }
      assert id in old(rows) ==> old(rows) == old(rows)[id := old(rows)[id]];
    }

    /** One pass of the loop; `fails` says that the router raises. `send_sms` never does. */
    method AgeRow(id: nat, seen: Subscription, routed: set<nat>, now: int, fails: bool) returns (ok: bool)
      requires seen.status == Active || seen.status == Grace
      modifies this
      ensures rows == if id in old(rows) then old(rows)[id := WriteBack(old(rows)[id], seen, now)] else old(rows)
      ensures ok == !(fails && Age(seen, now).1 == Some(Stopped) && id in routed)
      ensures texts == old(texts) + (if ok then Texts(id, Age(seen, now).1) else [])
      ensures var left, day := seen.end - now, 86_400_000_000;
              && (ok <==> !(fails && left < 0 && id in routed))
              && texts == old(texts)
                   + (if 3 * day <= left < 4 * day && seen.autoRenew then [Sms(id, ThreeDays)]
                      else if day <= left < 2 * day && seen.autoRenew then [Sms(id, Tomorrow)]
                      else if 0 <= left < day && seen.status == Active then [Sms(id, InGrace)]
                      else if left < 0 && ok then [Sms(id, Stopped)] else [])
              && secretsOff == old(secretsOff) + (if left < 0 && ok && id in routed then {id} else {})
      ensures secretsOff ==
              old(secretsOff) + (if ok && Age(seen, now).1 == Some(Stopped) && id in routed then {id} else {})
    {
      var message := WriteRow(id, seen, now);
      ok := true;
      if message.Some? {
        if message == Some(Stopped) && id in routed {
          if fails { return false; }
          secretsOff := secretsOff + {id};
        }
        texts := texts + [Sms(id, message.value)];
      }
    }

    /** The loop: when it ends, `told` rows have been done with and `written` have been written. */
    method WorkOff(fetched: seq<(nat, Subscription)>, routed: set<nat>, now: int, failing: nat)
      returns (written: nat, told: nat)
      requires forall i :: 0 <= i < |fetched| ==> fetched[i].1.status == Active || fetched[i].1.status == Grace
      modifies this
      ensures (written, told) ==
              if failing < |fetched| && Age(fetched[failing].1, now).1 == Some(Stopped) && fetched[failing].0 in routed
              then (failing + 1, failing) else (|fetched|, |fetched|)
      ensures rows == RowsAfter(old(rows), fetched, written, now)
      ensures texts == old(texts) + TextsAfter(fetched, told, now)
      ensures secretsOff == OffAfter(old(secretsOff), fetched, routed, told, now)
    {
      told := 0;
      while told < |fetched|
        invariant told <= |fetched|
        invariant failing < told ==>
                    !(Age(fetched[failing].1, now).1 == Some(Stopped) && fetched[failing].0 in routed)
        invariant rows == RowsAfter(old(rows), fetched, told, now)
        invariant texts == old(texts) + TextsAfter(fetched, told, now)
        invariant secretsOff == OffAfter(old(secretsOff), fetched, routed, told, now)
      {
        var ok := AgeRow(fetched[told].0, fetched[told].1, routed, now, told == failing);
        if !ok {
          written := told + 1;
          return;
        }
        told := told + 1;
      }
      written := told;
    }

    /**
     The loop over the rows as fetched. The router of row `failing` cannot be reached, which ends the loop after that
     row's `UPDATE` if the row is suspended; nothing else raises. `routed` are the customers who have a router.
     */
    method PppoeBillingCron(fetched: seq<(nat, Subscription)>, routed: set<nat>, now: int, failing: nat)
      returns (written: nat, told: nat)
      requires forall i :: 0 <= i < |fetched| ==> fetched[i].1.status == Active || fetched[i].1.status == Grace
      modifies this
      ensures (written, told) ==
              if failing < |fetched| && Age(fetched[failing].1, now).1 == Some(Stopped) && fetched[failing].0 in routed
              then (failing + 1, failing) else (|fetched|, |fetched|)
      ensures rows == RowsAfter(old(rows), fetched, written, now)
      ensures texts == old(texts) + TextsAfter(fetched, told, now)
      ensures secretsOff == OffAfter(old(secretsOff), fetched, routed, told, now)
      ensures told < |fetched| ==>
                told == failing && written == told + 1 && fetched[told].1.end < now && fetched[told].0 in routed
      ensures forall i :: 0 <= i < told ==>
                var (id, seen) := fetched[i];
                var left, day := seen.end - now, 86_400_000_000;
                && (3 * day <= left < 4 * day && seen.autoRenew ==> Sms(id, ThreeDays) in texts[|old(texts)|..])
                && (day <= left < 2 * day && seen.autoRenew ==> Sms(id, Tomorrow) in texts[|old(texts)|..])
                && (0 <= left < day && seen.status == Active ==> Sms(id, InGrace) in texts[|old(texts)|..])
                && (left < 0 ==> Sms(id, Stopped) in texts[|old(texts)|..] && (id in routed ==> id in secretsOff))
      ensures (forall i, j :: 0 <= i < j < |fetched| ==> fetched[i].0 != fetched[j].0) ==>
                forall i :: 0 <= i < written && fetched[i].0 in old(rows) ==>
                  var (id, seen) := fetched[i];
                  var left, day := seen.end - now, 86_400_000_000;
                  id in rows && rows[id] == old(rows)[id].(status :=
                    if left < 0 then Suspended else if 0 <= left < day && seen.status == Active then Grace
                    else old(rows)[id].status)
      ensures forall p :: |old(texts)| <= p < |texts| ==>
                exists i :: 0 <= i < told && fetched[i].0 == texts[p].id
      ensures |texts| >= |old(texts)| && texts[..|old(texts)|] == old(texts)
      ensures (forall i, j :: 0 <= i < j < |fetched| ==> fetched[i].0 != fetched[j].0) ==>
                forall p, q :: |old(texts)| <= p < q < |texts| ==> texts[p].id != texts[q].id
      ensures secretsOff == old(secretsOff)
                + set i | 0 <= i < told && fetched[i].1.end < now && fetched[i].0 in routed :: fetched[i].0
      ensures rows.Keys == old(rows).Keys
      ensures forall id :: id in rows && (forall i :: 0 <= i < written ==> fetched[i].0 != id) ==>
                rows[id] == old(rows)[id]
    {
      written, told := WorkOff(fetched, routed, now, failing);
      SecretsExactly(old(secretsOff), fetched, routed, told, now);
      CronSpares(old(rows), fetched, old(texts), written, told, now);
      CronMeans(old(rows), fetched, routed, old(secretsOff), written, told, now);
      assert texts[|old(texts)|..] == TextsAfter(fetched, told, now);
    }

    /**
     `days` is the package's duration, if the tenant has the package; there is at most one row per customer. A
     suspended customer with a router gets the secret back, unless the router cannot be reached: that raises, with
     the row already written.
     */
    method ProcessRenewalPayment(id: nat, days: Option<nat>, now: int, routed: bool, reachable: bool)
      returns (r: Result<(), RenewalError>)
      modifies this`rows, this`secretsOff
      ensures days.None? ==> r == Err(PackageNotFound)
      ensures days.Some? && id in old(rows) ==>
                match RenewAsWritten(old(rows)[id], now, days.value)
                case None => r == Err(AttributeError)
                case Some(sub) =>
                  var enabling := old(rows)[id].status == Suspended && routed;
                  && rows == old(rows)[id := sub]
                  && r == (if enabling && !reachable then Err(RouterError) else Ok(()))
                  && secretsOff == old(secretsOff) - (if enabling && reachable then {id} else {})
      ensures days.Some? && id in old(rows) ==>
                var sub := old(rows)[id];
                if (sub.status == Active || sub.status == Grace) && sub.end > now then
                  r == Err(AttributeError) && rows == old(rows)
                else
                  rows == old(rows)[id := Subscription(Active, now + days.value * 86_400_000_000, sub.autoRenew)]
      ensures days.Some? && id !in old(rows) ==>
                && r == Ok(()) && rows == old(rows)[id := Subscription(Active, now + days.value * DAY, true)]
                && secretsOff == old(secretsOff)
      ensures r == Err(PackageNotFound) || r == Err(AttributeError) ==>
                rows == old(rows) && secretsOff == old(secretsOff)
    {
      if days.None? { return Err(PackageNotFound); }
      if id in rows {
        var sub := rows[id];
        if sub.end > now && (sub.status == Active || sub.status == Grace) {
          return Err(AttributeError);
        }
        rows := rows[id := sub.(status := Active, end := now + days.value * DAY)];
        if sub.status == Suspended && routed {
          if !reachable { return Err(RouterError); }
          secretsOff := secretsOff - {id};
        }
      } else {
        rows := rows[id := Subscription(Active, now + days.value * DAY, true)];
      }
      r := Ok(());
    }
  }
}
