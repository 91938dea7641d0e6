/** The refresh interceptor of one browser tab and the token store it uses. */
module BrowserTab {
  import opened Common

  /** `localStorage`: the active tenant and the refresh token kept for each tenant. */
  datatype Store = Store(active: Option<nat>, refresh: map<nat, nat>)

  /** How the promise of a queued request was settled. */
  datatype Settled = Settled(promise: nat, resolved: bool)

  /**
   `awaiting` is the token presented by the refresh whose answer is awaited; promises are numbered as they are
   made.
   */
  datatype Tab = Tab(
    store: Store, isRefreshing: bool, failedQueue: seq<nat>, awaiting: Option<nat>, settled: seq<Settled>,
    nextPromise: nat)

  const EMPTY := Store(None, map[])

  function GetRefreshToken(store: Store): Option<nat> {
    if store.active.Some? && store.active.value in store.refresh then Some(store.refresh[store.active.value]) else None
  }

  /** `saveToken` and `saveRefreshToken`. */
  function Save(store: Store, tenant: nat, token: nat): Store {
    Store(Some(tenant), store.refresh[tenant := token])
  }

  /** `clearToken`, after which `clearRefreshToken` finds no active tenant. */
  function Clear(store: Store): Store {
    Store(None, if store.active.Some? then store.refresh - {store.active.value} else store.refresh)
  }

  function SettleAll(queue: seq<nat>, resolved: bool): (r: seq<Settled>)
    ensures |r| == |queue| && forall i :: 0 <= i < |queue| ==> r[i].promise == queue[i] && r[i].resolved == resolved
  {
    seq(|queue|, i requires 0 <= i < |queue| => Settled(queue[i], resolved))
  }

  /** Loading a page starts the script afresh; `localStorage` survives. */
  function Reload(tab: Tab): Tab {
    tab.(isRefreshing := false, failedQueue := [], awaiting := None)
  }

  /** `window.location.href = '/login'`, unless the tab is already there. */
  function GoToLogin(tab: Tab, atLogin: bool): Tab {
    if atLogin then tab else Reload(tab)
  }

  /** A request came back with 401. */
  function Unauthorized(tab: Tab, retried: bool, atLogin: bool): Tab {
    if retried then tab
    else if tab.isRefreshing then
      tab.(failedQueue := tab.failedQueue + [tab.nextPromise], nextPromise := tab.nextPromise + 1)
    else
      match GetRefreshToken(tab.store)
      case None => GoToLogin(tab.(isRefreshing := true, store := Clear(tab.store)), atLogin)
      case Some(token) => tab.(isRefreshing := true, awaiting := Some(token))
  }

  /** The refresh was answered with new tokens; they are stored only if the access token names a tenant. */
  function Refreshed(tab: Tab, tenant: Option<nat>, token: nat): Tab {
    tab.(store := if tenant.Some? then Save(tab.store, tenant.value, token) else tab.store,
         settled := tab.settled + SettleAll(tab.failedQueue, true),
         failedQueue := [], isRefreshing := false, awaiting := None)
  }

  /** The refresh was refused, or its answer was lost. */
  function RefreshFailed(tab: Tab, atLogin: bool): Tab {
    GoToLogin(tab.(store := EMPTY,
                   settled := tab.settled + SettleAll(tab.failedQueue, false),
                   failedQueue := [], isRefreshing := false, awaiting := None), atLogin)
  }

  /** The module variables of `api.ts` and the code that changes them. */
  class Interceptor {
    var store: Store
    var isRefreshing: bool
    var failedQueue: seq<nat>
    var awaiting: Option<nat>
    var settled: seq<Settled>
    var nextPromise: nat

    constructor ()
      ensures View() == Tab(EMPTY, false, [], None, [], 0)
    {
      store, isRefreshing, failedQueue, awaiting, settled, nextPromise := EMPTY, false, [], None, [], 0;
    }

    function View(): Tab
      reads this
    {
      Tab(store, isRefreshing, failedQueue, awaiting, settled, nextPromise)
    }

    method ProcessQueue(error: bool)
      modifies this`failedQueue, this`settled
      ensures settled == old(settled) + SettleAll(old(failedQueue), !error)
      ensures |settled| == |old(settled)| + |old(failedQueue)| && settled[..|old(settled)|] == old(settled)
      ensures forall i :: 0 <= i < |old(failedQueue)| ==>
                settled[|old(settled)| + i] == Settled(old(failedQueue)[i], !error)
      ensures failedQueue == []
    {
      var i := 0;
      while i < |failedQueue|
        invariant 0 <= i <= |failedQueue| && failedQueue == old(failedQueue)
        invariant settled == old(settled) + SettleAll(failedQueue[..i], !error)
      {
        assert SettleAll(failedQueue[..i + 1], !error) ==
          SettleAll(failedQueue[..i], !error) + [Settled(failedQueue[i], !error)];
        if error {
          settled := settled + [Settled(failedQueue[i], false)];
        } else {
          settled := settled + [Settled(failedQueue[i], true)];
        }
        i := i + 1;
      }
      assert failedQueue[..i] == failedQueue;
      failedQueue := [];
    }

    method Navigate(atLogin: bool)
      modifies this
      ensures View() == GoToLogin(old(View()), atLogin)
    {
      if !atLogin {
        isRefreshing, failedQueue, awaiting := false, [], None;
      }
    }

    /** The part before the POST; the result says which token it presents. */
    method OnUnauthorized(retried: bool, atLogin: bool) returns (presented: Option<nat>)
      modifies this
      ensures View() == Unauthorized(old(View()), retried, atLogin)
      ensures presented == (if retried || old(isRefreshing) then None else GetRefreshToken(old(store)))
      ensures retried ==> View() == old(View())
      ensures !retried && old(isRefreshing) ==>
                && failedQueue == old(failedQueue) + [old(nextPromise)] && nextPromise == old(nextPromise) + 1
                && store == old(store) && isRefreshing && awaiting == old(awaiting) && settled == old(settled)
      ensures !retried && !old(isRefreshing) ==>
                var active := old(store).active;
                && settled == old(settled) && nextPromise == old(nextPromise)
                && if active.Some? && active.value in old(store).refresh then
                     && presented == Some(old(store).refresh[active.value]) && awaiting == presented
                     && isRefreshing && store == old(store) && failedQueue == old(failedQueue)
                   else
                     && presented.None? && store.active.None?
                     && store.refresh == old(store).refresh && isRefreshing == atLogin
                     && (if atLogin then awaiting == old(awaiting) && failedQueue == old(failedQueue)
                         else awaiting.None? && failedQueue == [])
    {
      if retried {
        return None;
      }
      if isRefreshing {
        failedQueue := failedQueue + [nextPromise];
        nextPromise := nextPromise + 1;
        return None;
      }
      isRefreshing := true;
      var refreshToken := GetRefreshToken(store);
      if refreshToken.None? {
        store := Clear(store);
        Navigate(atLogin);
        return None;
      }
      awaiting := refreshToken;
      return refreshToken;
    }

    method OnRefreshed(tenant: Option<nat>, token: nat)
      modifies this
      ensures View() == Refreshed(old(View()), tenant, token)
      ensures tenant.Some? ==> store == Store(tenant, old(store).refresh[tenant.value := token])
      ensures tenant.None? ==> store == old(store)
      ensures !isRefreshing && awaiting.None? && failedQueue == [] && nextPromise == old(nextPromise)
      ensures |settled| == |old(settled)| + |old(failedQueue)| && settled[..|old(settled)|] == old(settled)
      ensures forall i :: 0 <= i < |old(failedQueue)| ==>
                settled[|old(settled)| + i] == Settled(old(failedQueue)[i], true)
    {
      if tenant.Some? {
        store := Save(store, tenant.value, token);
      }
      ProcessQueue(false);
      isRefreshing, awaiting := false, None;
    }

    method OnRefreshError(atLogin: bool)
      modifies this
      ensures View() == RefreshFailed(old(View()), atLogin)
      ensures store.active.None? && store.refresh == map[]
      ensures !isRefreshing && awaiting.None? && failedQueue == [] && nextPromise == old(nextPromise)
      ensures |settled| == |old(settled)| + |old(failedQueue)| && settled[..|old(settled)|] == old(settled)
      ensures forall i :: 0 <= i < |old(failedQueue)| ==>
                settled[|old(settled)| + i] == Settled(old(failedQueue)[i], false)
    {
      ProcessQueue(true);
      isRefreshing, awaiting := false, None;
      store := EMPTY;
      Navigate(atLogin);
    }
  }
}
