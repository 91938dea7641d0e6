/**
 WireGuard addresses 10.8.0.2 to 10.8.0.254, named by their last octet. An onboarding reads the addresses in use and
 inserts its router later; nothing in the database keeps two routers from the same address.
 */
module PeerAddresses {
  import opened Common

  const FIRST: int := 2
  const LAST: int := 254

  /** Routers by id, with their address if they have one, and the addresses onboardings in progress have been given. */
  datatype State = State(routers: map<nat, Option<int>>, drawn: map<nat, int>)

  datatype Event =
    | Read(request: nat)
    | Insert(request: nat, id: nat)
    | InsertPlain(id: nat)
    | Delete(id: nat)
    | Abandon(request: nat)        // an onboarding that fails after its read

  function Held(routers: map<nat, Option<int>>): set<int> {
    set id | id in routers && routers[id].Some? :: routers[id].value
  }

  /** The routers that hold an address. */
  function Holders(routers: map<nat, Option<int>>): set<nat> {
    set id | id in routers && routers[id].Some?
  }

  function Range(low: int, high: int): (r: set<int>)
    ensures forall i :: i in r <==> low <= i <= high
    decreases high + 1 - low
  {
    if low > high then {} else {low} + Range(low + 1, high)
  }

  /** The least address not held, from `i` on. */
  function LeastFree(held: set<int>, i: int): (r: Option<int>)
    requires FIRST <= i <= LAST + 1
    ensures r.Some? ==> i <= r.value <= LAST && r.value !in held && forall j :: i <= j < r.value ==> j in held
    ensures r.None? <==> forall j :: i <= j <= LAST ==> j in held
    decreases LAST + 1 - i
  {
    if i > LAST then None else if i !in held then Some(i) else LeastFree(held, i + 1)
  }

  method AssignPeerIp(taken: set<int>) returns (r: Option<int>)
    ensures r == LeastFree(taken, FIRST)
    ensures r.Some? ==> 2 <= r.value <= 254 && r.value !in taken && forall j :: 2 <= j < r.value ==> j in taken
    ensures r.None? <==> forall j :: 2 <= j <= 254 ==> j in taken
  {
    var i := FIRST;
    while i <= LAST && i in taken
      invariant FIRST <= i <= LAST + 1
      invariant LeastFree(taken, FIRST) == LeastFree(taken, i)
    {
      i := i + 1;
    }
    r := if i <= LAST then Some(i) else None;
  }

  predicate Can(s: State, e: Event) {
    match e
    case Read(request) => request !in s.drawn
    case Insert(request, id) => request in s.drawn && id !in s.routers
    case InsertPlain(id) => id !in s.routers
    case Delete(_) => true
    case Abandon(request) => request in s.drawn
  }

  /** A read that finds nothing free raises and the onboarding is over. */
  function Step(s: State, e: Event): State
    requires Can(s, e)
  {
    match e
    case Read(request) =>
      (match LeastFree(Held(s.routers), FIRST)
       case None => s
       case Some(octet) => s.(drawn := s.drawn[request := octet]))
    case Insert(request, id) => State(s.routers[id := Some(s.drawn[request])], s.drawn - {request})
    case InsertPlain(id) => s.(routers := s.routers[id := None])
    case Delete(id) => s.(routers := s.routers - {id})
    case Abandon(request) => s.(drawn := s.drawn - {request})
  }

  predicate Possible(events: seq<Event>)
    decreases |events|, 0
  {
    events == [] || (Possible(events[..|events| - 1]) && Can(Run(events[..|events| - 1]), events[|events| - 1]))
  }

  function Run(events: seq<Event>): State
    requires Possible(events)
    decreases |events|, 1
  {
    if events == [] then State(map[], map[]) else Step(Run(events[..|events| - 1]), events[|events| - 1])
  }

  /** Allocation atomic with its insert: an onboarding reads only when no other is between its read and its insert. */
  ghost predicate OneAtATime(events: seq<Event>)
    requires Possible(events)
  {
    forall k {:trigger events[k]} :: 0 <= k < |events| && events[k].Read? && Possible(events[..k]) ==>
        Run(events[..k]).drawn == map[]
  }

  ghost predicate InRange(s: State) {
    && (forall id :: id in s.routers && s.routers[id].Some? ==> FIRST <= s.routers[id].value <= LAST)
    && (forall q :: q in s.drawn ==> FIRST <= s.drawn[q] <= LAST)
  }

  ghost predicate Distinct(routers: map<nat, Option<int>>) {
    forall a, b :: a in routers && b in routers && a != b && routers[a].Some? ==> routers[a] != routers[b]
  }

  /** What is drawn is still free, and nobody else has drawn. */
  ghost predicate Reserved(s: State) {
    && (forall q :: q in s.drawn ==> s.drawn[q] !in Held(s.routers))
    && (forall p, q :: p in s.drawn && q in s.drawn ==> p == q)
  }

  lemma {:induction false} AlwaysInRange(events: seq<Event>)
    requires Possible(events)
    ensures InRange(Run(events))
    ensures forall id :: id in Run(events).routers && Run(events).routers[id].Some? ==>
              2 <= Run(events).routers[id].value <= 254
    decreases |events|
  {
    if events != [] {
      AlwaysInRange(events[..|events| - 1]);
    }
  }

  lemma StepDistinct(s: State, e: Event)
    requires Can(s, e) && Distinct(s.routers) && Reserved(s) && (e.Read? ==> s.drawn == map[])
    ensures Distinct(Step(s, e).routers) && Reserved(Step(s, e))
  {
    var s' := Step(s, e);
    if e.Insert? {
      assert s.drawn[e.request] !in Held(s.routers);
      forall a | a in s.routers && s.routers[a].Some? ensures s.routers[a].value != s.drawn[e.request] {
        assert s.routers[a].value in Held(s.routers);
      }
    } else if e.Delete? {
      assert Held(s'.routers) <= Held(s.routers);
    } else if e.InsertPlain? {
      assert Held(s'.routers) <= Held(s.routers);
    }
  }

  lemma {:induction false} RunDistinct(events: seq<Event>)
    requires Possible(events) && OneAtATime(events)
    ensures Distinct(Run(events).routers) && Reserved(Run(events))
    decreases |events|
  {
    if events != [] {
      var n := |events| - 1;
      assert forall k :: 0 <= k < n ==> events[..n][..k] == events[..k];
      RunDistinct(events[..n]);
      StepDistinct(Run(events[..n]), events[n]);
    }
  }

  /**
   With onboardings one at a time, live routers hold distinct addresses of the range and a read fails exactly when
   253 do.
   */
  lemma AddressesDistinct(events: seq<Event>)
    requires Possible(events) && OneAtATime(events)
    ensures InRange(Run(events)) && Distinct(Run(events).routers)
    ensures LeastFree(Held(Run(events).routers), FIRST).None? <==> |Holders(Run(events).routers)| == 253
  {
    var routers := Run(events).routers;
    AlwaysInRange(events);
    RunDistinct(events);
    Pigeonhole(Held(routers));
    assert Held(routers) * Range(FIRST, LAST) == Held(routers);
    HoldersCount(routers);
  }

  /** Without that, from any state: two reads with no insert between them give two routers the same address. */
  lemma OverlapCollides(s: State, p: nat, q: nat, a: nat, b: nat)
    requires p != q && a != b && p !in s.drawn && q !in s.drawn && a !in s.routers && b !in s.routers
    requires LeastFree(Held(s.routers), FIRST).Some?
    ensures Can(s, Read(p)) && Can(Step(s, Read(p)), Read(q))
    ensures var drawn := Step(Step(s, Read(p)), Read(q));
            Can(drawn, Insert(p, a)) && Can(Step(drawn, Insert(p, a)), Insert(q, b))
            && !Distinct(Step(Step(drawn, Insert(p, a)), Insert(q, b)).routers)
  {
    var drawn := Step(Step(s, Read(p)), Read(q));
    var routers := Step(Step(drawn, Insert(p, a)), Insert(q, b)).routers;
    assert routers[a] == routers[b] == LeastFree(Held(s.routers), FIRST);
  }

  /** An insert keeps the addresses distinct exactly when what was drawn is not held by then. */
  lemma InsertKeepsDistinctExactlyWhen(s: State, request: nat, id: nat)
    requires Can(s, Insert(request, id)) && Distinct(s.routers)
    ensures Distinct(Step(s, Insert(request, id)).routers) <==> s.drawn[request] !in Held(s.routers)
  {
    var routers := Step(s, Insert(request, id)).routers;
    if s.drawn[request] in Held(s.routers) {
      var a :| a in s.routers && s.routers[a] == Some(s.drawn[request]);
      assert routers[a] == routers[id];
    } else {
      forall a | a in s.routers && s.routers[a].Some? ensures s.routers[a].value != s.drawn[request] {
        assert s.routers[a].value in Held(s.routers);
      }
    }
  }

  /** A deleted router's address is free at once, and the least free one never lies above it. */
  lemma DeleteFrees(s: State, id: nat)
    requires InRange(s) && Distinct(s.routers) && id in s.routers && s.routers[id].Some?
    ensures var octet := s.routers[id].value;
            var free := LeastFree(Held(Step(s, Delete(id)).routers), FIRST);
            octet !in Held(Step(s, Delete(id)).routers) && free.Some? && free.value <= octet
  {
    var octet := s.routers[id].value;
    var left := Step(s, Delete(id)).routers;
    forall a | a in left && left[a].Some? ensures left[a].value != octet {
      assert s.routers[a] != s.routers[id];
    }
  }

  // ---------------------------------------------------------------- the handlers, undisturbed

  datatype RouterError = NameTaken | RangeExhausted | NotFound

  class RouterTable {
    var routers: map<nat, Option<int>>
    var owner: map<nat, nat>         // router to tenant

    constructor ()
      ensures routers == map[] && owner == map[]
    {
      routers, owner := map[], map[];
    }

    /** `id` is the new row's generated id. */
    method OnboardingInit(tenant: nat, nameTaken: bool, id: nat) returns (r: Result<int, RouterError>)
      requires id !in routers
      modifies this
      ensures owner == if r.Ok? then old(owner)[id := tenant] else old(owner)
      ensures r == if nameTaken then Err(NameTaken)
                   else match LeastFree(Held(old(routers)), FIRST)
                        case None => Err(RangeExhausted)
                        case Some(octet) => Ok(octet)
      ensures routers == if r.Ok? then old(routers)[id := Some(r.value)] else old(routers)
      ensures r.Ok? ==>
                && 2 <= r.value <= 254
                && (forall a :: a in old(routers) ==> old(routers)[a] != Some(r.value))
                && forall j :: 2 <= j < r.value ==> exists a :: a in old(routers) && old(routers)[a] == Some(j)
      ensures r == Err(RangeExhausted) <==>
              !nameTaken && forall j :: 2 <= j <= 254 ==> exists a :: a in old(routers) && old(routers)[a] == Some(j)
      ensures old(Distinct(routers)) ==> Distinct(routers)
    {
      if nameTaken { return Err(NameTaken); }
      var octet := AssignPeerIp(Held(routers));
      HeldBySome(routers);
      if octet.None? { return Err(RangeExhausted); }
      InsertKeepsDistinct(routers, octet.value, id);
      routers, owner := routers[id := octet], owner[id := tenant];
      r := Ok(octet.value);
    }

    /** The lookup and the `DELETE` are both by id and tenant: another tenant's router is not found. */
    method DeleteRouter(tenant: nat, id: nat) returns (r: Result<(), RouterError>)
      modifies this
      ensures r == if id in old(routers) && id in old(owner) && old(owner)[id] == tenant then Ok(()) else Err(NotFound)
      ensures routers == if r.Ok? then old(routers) - {id} else old(routers)
      ensures owner == if r.Ok? then old(owner) - {id} else old(owner)
      ensures old(Distinct(routers)) ==> Distinct(routers)
    {
      if id !in routers || id !in owner || owner[id] != tenant { return Err(NotFound); }
      routers, owner := routers - {id}, owner - {id};
      r := Ok(());
    }
  }

  lemma InsertKeepsDistinct(routers: map<nat, Option<int>>, octet: int, id: nat)
    requires id !in routers && octet !in Held(routers)
    ensures Distinct(routers) ==> Distinct(routers[id := Some(octet)])
  {
    if Distinct(routers) {
      InsertKeepsDistinctExactlyWhen(State(routers, map[0 := octet]), 0, id);
    }
  }

  lemma HeldBySome(routers: map<nat, Option<int>>)
    ensures forall j :: j in Held(routers) <==> exists a :: a in routers && routers[a] == Some(j)
  {
    forall j ensures j in Held(routers) <==> exists a :: a in routers && routers[a] == Some(j) {
      if j in Held(routers) {
        var a :| a in routers && routers[a].Some? && routers[a].value == j;
        assert routers[a] == Some(j);
      }
    }
  }

  // ---------------------------------------------------------------- counting

  lemma {:induction false} RangeSize(low: int, high: int)
    requires low <= high + 1
    ensures |Range(low, high)| == high + 1 - low
    decreases high + 1 - low
  {
    if low <= high {
      RangeSize(low + 1, high);
    }
  }

  lemma {:induction false} SubsetSize<T>(a: set<T>, b: set<T>)
    requires a <= b
    ensures |a| <= |b| && (|a| == |b| ==> a == b)
  {
    assert b == a + (b - a);
    assert |b| == |a| + |b - a|;
  }

  lemma Pigeonhole(held: set<int>)
    ensures LeastFree(held, FIRST).None? <==> |held * Range(FIRST, LAST)| == 253
  {
    RangeSize(FIRST, LAST);
    SubsetSize(held * Range(FIRST, LAST), Range(FIRST, LAST));
    if LeastFree(held, FIRST).None? {
      assert held * Range(FIRST, LAST) == Range(FIRST, LAST);
    } else {
      var free := LeastFree(held, FIRST).value;
      assert free in Range(FIRST, LAST) && free !in held * Range(FIRST, LAST);
    }
  }

  lemma {:induction false} HoldersCount(routers: map<nat, Option<int>>)
    requires Distinct(routers)
    ensures |Holders(routers)| == |Held(routers)|
    decreases |Holders(routers)|
  {
    if Holders(routers) == {} {
      assert forall id :: id in routers && routers[id].Some? ==> id in Holders(routers);
      assert Held(routers) == {};
    } else {
      var id :| id in Holders(routers);
      var less := routers[id := None];
      assert Holders(less) == Holders(routers) - {id};
      OneLessHeld(routers, id);
      HoldersCount(less);
    }
  }

  lemma OneLessHeld(routers: map<nat, Option<int>>, id: nat)
    requires Distinct(routers) && id in routers && routers[id].Some?
    ensures routers[id].value !in Held(routers[id := None]) && Distinct(routers[id := None])
    ensures Held(routers) == Held(routers[id := None]) + {routers[id].value}
  {
    var less := routers[id := None];
    forall octet | octet in Held(routers) ensures octet in Held(less) + {routers[id].value} {
      var a :| a in routers && routers[a].Some? && routers[a].value == octet;
      if a != id { assert a in less && less[a] == routers[a]; }
    }
    forall octet | octet in Held(less) ensures octet in Held(routers) && octet != routers[id].value {
      var a :| a in less && less[a].Some? && less[a].value == octet;
      assert a != id && routers[a] == less[a];
    }
  }
}
