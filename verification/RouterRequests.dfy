/** One request to a router, retried: what its tries meet, how often the router acts on it, and how long it waits. */
module RouterRequests {
  import opened Common

  const MAX_RETRIES: nat := 3

  /** What one try meets: an answer with a status, or a network error or timeout, the router having acted or not. */
  datatype Try = Answer(status: int) | NetworkError(executed: bool)

  datatype RequestError = AuthFailed | Unreachable

  function Power(k: nat): nat {
    if k == 0 then 1 else 2 * Power(k - 1)
  }

  /** `response.is_success`. */
  predicate Success(status: int) {
    200 <= status < 300
  }

  /** Whether the router acted on this try: any other status means that it refused. */
  predicate Executed(t: Try) {
    match t case Answer(status) => Success(status) case NetworkError(executed) => executed
  }

  /** What the tries of one request meet, by default. */
  type Tries = tries: seq<Try> | |tries| == MAX_RETRIES + 1
    witness [NetworkError(false), NetworkError(false), NetworkError(false), NetworkError(false)]

  /** How many tries are made: up to the first answered one, from `k` on. */
  function UsedFrom(tries: seq<Try>, k: nat): (used: nat)
    requires k <= |tries|
    ensures k <= used <= |tries| && (k < |tries| ==> k < used)
    ensures forall j :: k <= j < used - 1 ==> tries[j].NetworkError?
    ensures used < |tries| ==> k < used && tries[used - 1].Answer?
    decreases |tries| - k
  {
    if k == |tries| then k else if tries[k].Answer? then k + 1 else UsedFrom(tries, k + 1)
  }

  /** How often the router acts on a request. */
  function Times(tries: Tries): nat {
    Executions(tries, UsedFrom(tries, 0))
  }

  /** The request is answered, and with success: `_check_response` lets it pass. */
  predicate Succeeds(tries: Tries) {
    match tries[UsedFrom(tries, 0) - 1] case Answer(status) => Success(status) case NetworkError(_) => false
  }

  /** A request that succeeds was executed, and once exactly if no earlier try was executed and its answer lost. */
  lemma SuccessExecuted(tries: Tries)
    requires Succeeds(tries)
    ensures Times(tries) >= 1
    ensures Times(tries) == 1 <==> forall k :: 0 <= k < UsedFrom(tries, 0) - 1 ==> !Executed(tries[k])
  {
    OnceExactlyWhen(tries, UsedFrom(tries, 0));
  }

  /** How often the router acted on the first `used` tries. */
  function Executions(tries: seq<Try>, used: nat): nat
    requires used <= |tries|
  {
    if used == 0 then 0 else Executions(tries, used - 1) + (if Executed(tries[used - 1]) then 1 else 0)
  }

  /** Backoff is 1, 2, 4, ... seconds. The result is that of the first answered try among `retries + 1`. */
  method Request(tries: seq<Try>, retries: nat) returns (r: Result<int, RequestError>, used: nat, slept: nat)
    requires |tries| == retries + 1
    ensures used == UsedFrom(tries, 0)
    ensures 1 <= used <= retries + 1 && forall k :: 0 <= k < used - 1 ==> tries[k].NetworkError?
    ensures r == Err(Unreachable) <==> forall k :: 0 <= k <= retries ==> tries[k].NetworkError?
    ensures r == Err(Unreachable) ==> used == retries + 1
    ensures r != Err(Unreachable) ==>
              tries[used - 1].Answer?
              && r == if tries[used - 1].status == 401 then Err(AuthFailed) else Ok(tries[used - 1].status)
    ensures slept == Power(used - 1) - 1
  {
    slept := 0;
    used := 0;
    while used <= retries
      invariant 0 <= used <= retries + 1
      invariant forall k :: 0 <= k < used ==> tries[k].NetworkError?
      invariant UsedFrom(tries, used) == UsedFrom(tries, 0)
      invariant slept == Power(if used == 0 then 0 else if used <= retries then used else used - 1) - 1
    {
      match tries[used] {
        case Answer(status) =>
          r := if status == 401 then Err(AuthFailed) else Ok(status);
          used := used + 1;
          return;
        case NetworkError(_) =>
          if used < retries {
            slept := slept + Power(used);
          }
      }
      used := used + 1;
    }
    r := Err(Unreachable);
  }

  /** With the default of three retries a request waits at most seven seconds in all. */
  method RequestByDefault(tries: seq<Try>) returns (r: Result<int, RequestError>, used: nat, slept: nat)
    requires |tries| == MAX_RETRIES + 1
    ensures 1 <= used <= 4 && slept == [0, 1, 3, 7][used - 1]
  {
    r, used, slept := Request(tries, MAX_RETRIES);
    assert Power(1) == 2;
    assert Power(2) == 4;
    assert Power(3) == 8;
  }

  /** An answered request with no earlier try executed is executed once; each lost answer adds one execution. */
  lemma {:induction false} OnceExactlyWhen(tries: seq<Try>, used: nat)
    requires 1 <= used <= |tries| && tries[used - 1].Answer? && Executed(tries[used - 1])
    ensures Executions(tries, used) >= 1
    ensures Executions(tries, used) == 1 <==> forall k :: 0 <= k < used - 1 ==> !Executed(tries[k])
  {
    NoneExactlyWhen(tries, used - 1);
  }

  lemma {:induction false} NoneExactlyWhen(tries: seq<Try>, used: nat)
    requires used <= |tries|
    ensures Executions(tries, used) == 0 <==> forall k :: 0 <= k < used ==> !Executed(tries[k])
  {
    if used != 0 {
      NoneExactlyWhen(tries, used - 1);
    }
  }
}
