/**
 The sliding-window limiter: a sorted set of call instants that is pruned at each call and
 expires as a whole. Instants are integers on one clock that never runs backwards.
 */
module RateLimit {
  import opened Common

  /** A sorted set whose members are their own scores, and the instant its key expires. */
  datatype Bucket = Bucket(entries: set<int>, expiry: int)

  /** The members Redis still has at `now`; a key is gone from its expiry on. */
  function Present(bucket: Option<Bucket>, now: int): set<int> {
    if bucket.None? || bucket.value.expiry <= now then {} else bucket.value.entries
  }

  /** ZADD, ZREMRANGEBYSCORE 0 .. now - window, EXPIRE: one atomic pipeline. */
  function Record(bucket: Option<Bucket>, now: int, window: int): Bucket {
    var added := Present(bucket, now) + {now};
    Bucket((set t | t in added && !(0 <= t <= now - window)), now + window)
  }

  /** The bucket after calls at the given instants. */
  function After(calls: seq<int>, window: int): Option<Bucket> {
    if calls == [] then None
    else
      var n := |calls| - 1;
      Some(Record(After(calls[..n], window), calls[n], window))
  }

  /** ZCARD of the i-th call is within the limit. */
  predicate Admitted(calls: seq<int>, window: int, requests: nat, i: nat)
    requires i < |calls|
  {
    |After(calls[..i + 1], window).value.entries| <= requests
  }

  ghost predicate Monotone(calls: seq<int>) {
    && (forall i :: 0 <= i < |calls| ==> 0 <= calls[i])
    && forall i, j :: 0 <= i < j < |calls| ==> calls[i] <= calls[j]
  }

  ghost predicate Distinct(calls: seq<int>) {
    forall i, j :: 0 <= i < j < |calls| ==> calls[i] != calls[j]
  }

  /** The naive specification: all the instants of the full history within `(now - window, now]`. */
  function InWindow(calls: seq<int>, now: int, window: int): set<int> {
    set i | 0 <= i < |calls| && now - window < calls[i] <= now :: calls[i]
  }

  /** Pruning and expiry never lose a countable call: the bucket is exactly the window of the full history. */
  lemma {:induction false} BucketIsTheWindow(calls: seq<int>, window: int)
    requires Monotone(calls) && calls != [] && 0 < window
    ensures After(calls, window).value.entries == InWindow(calls, calls[|calls| - 1], window)
    ensures After(calls, window).value.expiry == calls[|calls| - 1] + window
  {
    var n := |calls| - 1;
    var now := calls[n];
    var before := After(calls[..n], window);
    if n != 0 {
      BucketIsTheWindow(calls[..n], window);
    }
    forall t ensures t in After(calls, window).value.entries <==> t in InWindow(calls, now, window) {
      if t in InWindow(calls, now, window) && t != now {
        var i :| 0 <= i < |calls| && calls[i] == t;
        assert calls[..n][i] == t;
        assert t in InWindow(calls[..n], calls[n - 1], window);
      }
    }
  }

  /** A call is admitted iff the window that ends with it holds at most `requests` instants, rejected ones included. */
  lemma AdmittedIff(calls: seq<int>, window: int, requests: nat, i: nat)
    requires Monotone(calls) && 0 < window && i < |calls|
    ensures Admitted(calls, window, requests, i) <==> |InWindow(calls[..i + 1], calls[i], window)| <= requests
  {
    BucketIsTheWindow(calls[..i + 1], window);
  }

  /** The window that ends with the last call holds no more than so many instants of calls. */
  ghost predicate WindowHolds(calls: seq<int>, window: int, requests: nat)
    requires calls != []
  {
    var now := calls[|calls| - 1];
    |set i | 0 <= i < |calls| && now - window < calls[i] <= now :: calls[i]| <= requests
  }

  /** The last call of a history, in so many words. */
  lemma AdmittedMeans(calls: seq<int>, window: int, requests: nat)
    requires calls != []
    ensures Monotone(calls) && 0 < window ==>
              (Admitted(calls, window, requests, |calls| - 1) <==> WindowHolds(calls, window, requests))
  {
    if Monotone(calls) && 0 < window {
      AdmittedIff(calls, window, requests, |calls| - 1);
      assert calls[..|calls| - 1 + 1] == calls;
    }
  }

  // ---------------------------------------------------------------- counting calls

  function Instants(calls: seq<int>, indices: set<nat>): set<int>
    requires forall i :: i in indices ==> i < |calls|
  {
    set i | i in indices :: calls[i]
  }

  /** Calls at one instant are one member: they are counted singly iff their instants differ. */
  lemma {:induction false} InstantsCount(calls: seq<int>, indices: set<nat>)
    requires forall i :: i in indices ==> i < |calls|
    ensures |Instants(calls, indices)| <= |indices|
    ensures |Instants(calls, indices)| == |indices| <==> forall i, j :: i in indices && j in indices && i != j ==>
            calls[i] != calls[j]
    decreases |indices|
  {
    if indices != {} {
      var k :| k in indices;
      var rest := indices - {k};
      InstantsCount(calls, rest);
      assert indices == rest + {k};
      assert Instants(calls, indices) == Instants(calls, rest) + {calls[k]};
    }
  }

  function WindowIndices(calls: seq<int>, now: int, window: int): set<nat> {
    set i: nat | i < |calls| && now - window < calls[i] <= now
  }

  /** The limiter counts every call of the window iff no two of them fall on the same instant. */
  lemma EveryCallCounted(calls: seq<int>, window: int)
    requires Monotone(calls) && calls != [] && 0 < window
    ensures var now := calls[|calls| - 1];
            var indices := WindowIndices(calls, now, window);
            |After(calls, window).value.entries| == |indices| <==>
              forall i, j :: i in indices && j in indices && i != j ==> calls[i] != calls[j]
  {
    var now := calls[|calls| - 1];
    var indices := WindowIndices(calls, now, window);
    BucketIsTheWindow(calls, window);
    assert Instants(calls, indices) == InWindow(calls, now, window);
    InstantsCount(calls, indices);
  }

  /** The admitted calls within `(from, from + window]`. */
  function AdmittedWithin(calls: seq<int>, window: int, requests: nat, from: int): set<nat> {
    set i: nat | i < |calls| && from < calls[i] <= from + window && Admitted(calls, window, requests, i)
  }

  /** No interval of the window's length, wherever it starts, admits more than `requests` calls at distinct instants. */
  lemma NoWindowOverflows(calls: seq<int>, window: int, requests: nat, from: int)
    requires Monotone(calls) && Distinct(calls) && 0 < window
    ensures |AdmittedWithin(calls, window, requests, from)| <= requests
  {
    var admitted := AdmittedWithin(calls, window, requests, from);
    if admitted != {} {
      var last := Greatest(admitted);
      InstantsCount(calls, admitted);
      AdmittedIff(calls, window, requests, last);
      var counted := InWindow(calls[..last + 1], calls[last], window);
      forall t | t in Instants(calls, admitted) ensures t in counted {
        var i :| i in admitted && calls[i] == t;
        assert calls[..last + 1][i] == t;
      }
      Subset(Instants(calls, admitted), counted);
    }
  }

  lemma {:induction false} Greatest(s: set<nat>) returns (m: nat)
    requires s != {}
    ensures m in s && forall i :: i in s ==> i <= m
    decreases |s|
  {
    m :| m in s;
    var rest := s - {m};
    if rest != {} {
      var top := Greatest(rest);
      if m < top { m := top; }
    }
    forall i | i in s ensures i <= m {
      assert i in rest || i !in rest;
    }
  }

  lemma {:induction false} Subset(a: set<int>, b: set<int>)
    requires a <= b
    ensures |a| <= |b|
  {
    assert b == a + (b - a);
  }

  /** After a window of silence the next call is admitted. */
  lemma SilenceReopens(calls: seq<int>, window: int, requests: nat, now: int)
    requires Monotone(calls + [now]) && 0 < window && 1 <= requests
    requires calls != [] ==> calls[|calls| - 1] + window <= now
    ensures Admitted(calls + [now], window, requests, |calls|)
  {
    var all := calls + [now];
    assert all[..|calls| + 1] == all;
    BucketIsTheWindow(all, window);
    forall i | 0 <= i < |calls| ensures all[i] <= now - window {
      assert all[i] <= all[|calls| - 1];
    }
    assert InWindow(all, now, window) == {now} by {
      assert all[|calls|] == now;
    }
  }

  // ---------------------------------------------------------------- keys

  /** `RateLimiter.key`; an empty tenant counts as none. */
  function Key(endpoint: string, tenant: string, ip: string): string {
    if tenant != "" then "rate_limit:" + endpoint + ":" + tenant + ":" + ip
    else "rate_limit:" + endpoint + ":" + ip
  }

  lemma {:induction false} SplitAtColon(a: string, b: string, c: string, d: string)
    requires ':' !in a && ':' !in c
    requires a + ":" + b == c + ":" + d
    ensures a == c && b == d
  {
    var s, t := a + ":" + b, c + ":" + d;
    assert forall i :: 0 <= i < |a| ==> s[i] == a[i] && a[i] != ':';
    assert forall i :: 0 <= i < |c| ==> t[i] == c[i] && c[i] != ':';
    assert s[|a|] == ':' && t[|c|] == ':';
    assert |a| == |c|;
    assert a == s[..|a|] && c == t[..|c|];
    assert b == s[|a| + 1..] && d == t[|c| + 1..];
  }

  /**
   Two callers share a bucket iff they are the same caller, or one of them has no tenant and its
   address is the other's tenant and address joined by a colon (an IPv6 address can be).
   */
  lemma SharedBucket(endpoint: string, tenant: string, ip: string, endpoint': string, tenant': string, ip': string)
    requires ':' !in endpoint && ':' !in endpoint' && ':' !in tenant && ':' !in tenant'
    ensures Key(endpoint, tenant, ip) == Key(endpoint', tenant', ip') <==>
              endpoint == endpoint' &&
              (if (tenant == "") == (tenant' == "") then tenant == tenant' && ip == ip'
               else if tenant == "" then ip == tenant' + ":" + ip'
               else ip' == tenant + ":" + ip)
  {
    var rest := if tenant == "" then ip else tenant + ":" + ip;
    var rest' := if tenant' == "" then ip' else tenant' + ":" + ip';
    var k, k' := endpoint + ":" + rest, endpoint' + ":" + rest';
    assert Key(endpoint, tenant, ip) == "rate_limit:" + k;
    assert Key(endpoint', tenant', ip') == "rate_limit:" + k';
    assert ("rate_limit:" + k)[11..] == k && ("rate_limit:" + k')[11..] == k';
    if k == k' {
      SplitAtColon(endpoint, rest, endpoint', rest');
      if tenant != "" && tenant' != "" {
        SplitAtColon(tenant, ip, tenant', ip');
      }
    }
  }

  lemma AfterOneMore(calls: seq<int>, now: int, window: int)
    ensures After(calls + [now], window) == Some(Record(After(calls, window), now, window))
  {
    assert (calls + [now])[..|calls|] == calls;
  }

  lemma KeyIs(endpoint: string, tenant: string, ip: string)
    ensures Key(endpoint, tenant, ip) ==
              if tenant == "" then "rate_limit:" + endpoint + ":" + ip
              else "rate_limit:" + endpoint + ":" + tenant + ":" + ip
  {
  }

  /** The limiter over all its Redis keys; `calls` is the full history of each key. */
  class RateLimiter {
    const requests: nat
    const window: int
    var buckets: map<string, Bucket>
    ghost var calls: map<string, seq<int>>

    ghost predicate Valid()
      reads this
    {
      && buckets.Keys == calls.Keys
      && forall key :: key in calls ==> calls[key] != [] && After(calls[key], window) == Some(buckets[key])
    }

    constructor (requests: nat, window: int)
      ensures Valid() && this.requests == requests && this.window == window && calls == map[]
    {
      this.requests, this.window := requests, window;
      buckets, calls := map[], map[];
    }

    ghost function History(key: string): seq<int>
      reads this
    {
      if key in calls then calls[key] else []
    }

    /** The pipeline on one key: add, prune, count, expire. */
    method Pipeline(bucket: Option<Bucket>, now: int) returns (after: Bucket, count: nat)
      ensures after == Record(bucket, now, window) && count == |after.entries|
    {
      var entries: set<int> := {};
      if bucket.Some? && now < bucket.value.expiry {
        entries := bucket.value.entries;
      }
      entries := entries + {now};
      entries := set t | t in entries && !(0 <= t <= now - window);
      count := |entries|;
      after := Bucket(entries, now + window);
    }

    method CheckKey(key: string, now: int) returns (admitted: bool)
      requires Valid()
      modifies this
      ensures Valid()
      ensures var history := old(History(key)) + [now];
              calls == old(calls)[key := history] && admitted == Admitted(history, window, requests, |history| - 1)
      ensures buckets.Keys == old(buckets).Keys + {key}
      ensures forall other :: other != key && other in buckets ==> buckets[other] == old(buckets)[other]
    {
      ghost var before := History(key);
      var bucket := if key in buckets then Some(buckets[key]) else None;
      AfterOneMore(before, now, window);
      var after, count := Pipeline(bucket, now);
      buckets := buckets[key := after];
      ghost var history := before + [now];
      calls := calls[key := history];
      assert history[..|history| - 1 + 1] == history;
      admitted := count <= requests;
    }

    method Check(endpoint: string, tenant: string, ip: string, now: int) returns (admitted: bool)
      requires Valid()
      modifies this
      ensures Valid()
      ensures var key := if tenant == "" then "rate_limit:" + endpoint + ":" + ip
                         else "rate_limit:" + endpoint + ":" + tenant + ":" + ip;
              var history := old(History(key)) + [now];
              && calls == old(calls)[key := history] && admitted == Admitted(history, window, requests, |history| - 1)
              && (Monotone(history) && 0 < window ==> (admitted <==> WindowHolds(history, window, requests)))
    {
      KeyIs(endpoint, tenant, ip);
      ghost var history := History(Key(endpoint, tenant, ip)) + [now];
      admitted := CheckKey(Key(endpoint, tenant, ip), now);
      AdmittedMeans(history, window, requests);
    }
  }
}
