/** The billing store of `createBillingStore` (src/index.js:42-82): a
    single-slot cache of the status payload, the fetch in flight, and the
    subscribers notified whenever a fetch settles.

    Asynchrony is made explicit: `load` either answers at once or hands back
    the identity of a fetch, and the settlement of each fetch arrives later
    as its own event (`SettleSuccess`/`SettleFailure`), in any order the
    environment chooses. The k-th call of `fetchStatus()` is fetch k. A caller
    that holds fetch k observes the outcome that fetch k settles with.

    The pure functions over `StoreState` state each step once; the `Store`
    class below performs the steps in place and is specified by them. */
module BillingStore {
  import opened Wrappers
  import Json

  type Payload = Json.Value

  /** The identity of one call of `fetchStatus()`: the k-th call is fetch k. */
  type FetchId = nat

  /** The identity (by reference) of a subscriber callback. */
  type CallbackId = nat

  /** The identity of the caller-supplied `fetchStatus` function. */
  type FetchFn = nat

  /** The reason a fetch was rejected with, propagated unchanged. */
  type Reason = string

  const FetchStatusRequired: string := "fetchStatus is required."

  /** What `load` hands back: the cached payload at once, the fetch already
      in flight, or a fetch it has just started. */
  datatype LoadResult = Cached(value: Payload) | Joined(fetch: FetchId) | Started(fetch: FetchId)

  /** One invocation of a subscriber callback with the value it was passed. */
  datatype Notification = Notification(callback: CallbackId, value: Option<Payload>)

  /** The state of one store: the closure variables `cached`, `inflight` and
      `subscribers` (in insertion order), how many fetches were started, which
      of them have not settled yet, and every callback invocation so far.
      JavaScript's one `null` for `cached` appears twice here: `None` is the
      initial `null`, and `Some(Json.Null)` is a fetch that resolved with
      `null`. Nothing observable tells them apart: both are falsy for `load`,
      inactive for `IsSubscriptionActive`, and passed to subscribers as they are. */
  datatype StoreState = StoreState(
    cached: Option<Payload>,
    inflight: Option<FetchId>,
    subscribers: seq<CallbackId>,
    started: nat,
    pending: set<FetchId>,
    calls: seq<Notification>)

  const Initial: StoreState := StoreState(None, None, [], 0, {}, [])

  predicate NoDuplicates(s: seq<CallbackId>)
  {
    forall i, j :: 0 <= i < j < |s| ==> s[i] != s[j]
  }

  /** The store invariant: subscribers form a set; only started fetches are
      pending; the fetch in flight, if any, is the newest one and has not settled. */
  predicate Inv(s: StoreState)
  {
    && NoDuplicates(s.subscribers)
    && (forall id :: id in s.pending ==> id < s.started)
    && (s.inflight.Some? ==> s.inflight.value in s.pending && s.inflight.value + 1 == s.started)
  }

  /** The test `cached` of `load`: a payload is there and is truthy. */
  predicate HasCache(s: StoreState)
  {
    s.cached.Some? && Json.Truthy(s.cached.value)
  }

  /** One callback invocation per subscriber, in subscription order, each
      passed `value`: what `notify(value)` does. */
  function Deliveries(subscribers: seq<CallbackId>, value: Option<Payload>): (d: seq<Notification>)
    ensures |d| == |subscribers|
    ensures forall i :: 0 <= i < |subscribers| ==> d[i] == Notification(subscribers[i], value)
  {
    if subscribers == [] then []
    else Deliveries(subscribers[..|subscribers| - 1], value)
         + [Notification(subscribers[|subscribers| - 1], value)]
  }

  /** The values a given callback was invoked with, in order. */
  function Received(calls: seq<Notification>, callback: CallbackId): seq<Option<Payload>>
  {
    if calls == [] then []
    else Received(calls[..|calls| - 1], callback)
         + (if calls[|calls| - 1].callback == callback then [calls[|calls| - 1].value] else [])
  }

  /** The subscribers with `callback` taken out, the others kept in order. */
  function Without(subscribers: seq<CallbackId>, callback: CallbackId): (r: seq<CallbackId>)
    ensures callback !in r
    ensures forall d :: d != callback ==> (d in r <==> d in subscribers)
    ensures callback !in subscribers ==> r == subscribers
    ensures NoDuplicates(subscribers) ==> NoDuplicates(r)
  {
    if subscribers == [] then []
    else
      var rest := Without(subscribers[1..], callback);
      if subscribers[0] == callback then rest
      else
        assert NoDuplicates(subscribers) ==> NoDuplicates(subscribers[1..]) && subscribers[0] !in subscribers[1..];
        [subscribers[0]] + rest
  }

  datatype LoadStep = LoadStep(next: StoreState, result: LoadResult)

  /** `load(force)`: unless forced, a truthy cache is answered at once and a
      fetch in flight is joined; otherwise a new fetch is started and becomes
      the fetch in flight, replacing any fetch already in flight. */
  function AfterLoad(s: StoreState, force: bool): (t: LoadStep)
    ensures Inv(s) ==> Inv(t.next)
  {
    if !force && HasCache(s) then LoadStep(s, Cached(s.cached.value))
    else if !force && s.inflight.Some? then LoadStep(s, Joined(s.inflight.value))
    else
      var id := s.started;
      LoadStep(s.(inflight := Some(id), started := id + 1, pending := s.pending + {id}), Started(id))
  }

  /** Fetch `id` resolves with `payload`: the payload is cached, every
      subscriber is invoked with it, and the fetch in flight is cleared,
      whichever fetch that is. */
  function AfterSuccess(s: StoreState, id: FetchId, payload: Payload): (t: StoreState)
    requires id in s.pending
    ensures Inv(s) ==> Inv(t)
  {
    s.(cached := Some(payload), inflight := None, pending := s.pending - {id},
       calls := s.calls + Deliveries(s.subscribers, Some(payload)))
  }

  /** Fetch `id` rejects: the cache is kept, every subscriber is invoked with
      it, and the fetch in flight is cleared, whichever fetch that is. */
  function AfterFailure(s: StoreState, id: FetchId): (t: StoreState)
    requires id in s.pending
    ensures t.cached == s.cached
    ensures t.inflight == None && t.pending == s.pending - {id}
    ensures Inv(s) ==> Inv(t)
  {
    s.(inflight := None, pending := s.pending - {id}, calls := s.calls + Deliveries(s.subscribers, s.cached))
  }

  /** `subscribers.add(callback)`: a callback already there stays where it is. */
  function AfterSubscribe(s: StoreState, callback: CallbackId): (t: StoreState)
    ensures Inv(s) ==> Inv(t)
  {
    if callback in s.subscribers then s else s.(subscribers := s.subscribers + [callback])
  }

  /** `subscribers.delete(callback)`, the unsubscribe function `subscribe` returns. */
  function AfterUnsubscribe(s: StoreState, callback: CallbackId): (t: StoreState)
    ensures Inv(s) ==> Inv(t)
  {
    s.(subscribers := Without(s.subscribers, callback))
  }

  datatype LoadsStep = LoadsStep(next: StoreState, results: seq<LoadResult>)

  /** `n` calls of `getStatus()` made one after the other before anything
      settles: together they call `fetchStatus` at most once, and not at all
      when a truthy payload is cached or a fetch is in flight. */
  function LoadAll(s: StoreState, n: nat): (t: LoadsStep)
    ensures |t.results| == n
    ensures t.next.started <= s.started + 1
    ensures n == 0 || HasCache(s) || s.inflight.Some? ==> t.next.started == s.started
    ensures t.next.cached == s.cached && t.next.subscribers == s.subscribers && t.next.calls == s.calls
    decreases n
  {
    if n == 0 then LoadsStep(s, [])
    else
      var first := AfterLoad(s, false);
      var rest := LoadAll(first.next, n - 1);
      LoadsStep(rest.next, [first.result] + rest.results)
  }

  // ---------------------------------------------------------------------
  // Loading

  /** With a fetch in flight and no truthy cache, every unforced load joins
      that fetch and changes nothing. */
  lemma {:induction false} LoadsJoinInflight(s: StoreState, n: nat)
    requires !HasCache(s) && s.inflight.Some?
    ensures LoadAll(s, n).next == s
    ensures forall i :: 0 <= i < n ==> LoadAll(s, n).results[i] == Joined(s.inflight.value)
  {
    if n > 0 {
      LoadsJoinInflight(s, n - 1);
    }
  }

  /** Single flight from idle: of `n` concurrent unforced loads issued with no
      cache and nothing in flight, the first starts the one fetch and every
      other joins it; `fetchStatus` is called exactly once. */
  lemma {:induction false} ConcurrentLoadsShareOneFetch(s: StoreState, n: nat)
    requires !HasCache(s) && s.inflight.None? && n >= 1
    ensures var t := LoadAll(s, n);
            && t.results[0] == Started(s.started)
            && (forall i :: 1 <= i < n ==> t.results[i] == Joined(s.started))
            && t.next.started == s.started + 1
            && t.next.inflight == Some(s.started)
            && t.next.pending == s.pending + {s.started}
            && t.next.cached == s.cached && t.next.subscribers == s.subscribers && t.next.calls == s.calls
  {
    var first := AfterLoad(s, false);
    LoadsJoinInflight(first.next, n - 1);
    var t := LoadAll(s, n);
    assert t.results == [first.result] + LoadAll(first.next, n - 1).results;
    forall i | 1 <= i < n
      ensures t.results[i] == Joined(s.started)
    {
      assert t.results[i] == LoadAll(first.next, n - 1).results[i - 1];
    }
  }

  /** With a truthy cache, every unforced load answers the cached payload
      and starts no fetch. */
  lemma {:induction false} LoadsAnswerCache(s: StoreState, n: nat)
    requires HasCache(s)
    ensures LoadAll(s, n).next == s
    ensures forall i :: 0 <= i < n ==> LoadAll(s, n).results[i] == Cached(s.cached.value)
  {
    if n > 0 {
      LoadsAnswerCache(s, n - 1);
    }
  }

  /** After a fetch succeeds with a truthy payload, unforced loads answer
      that payload and call `fetchStatus` no more. */
  lemma SuccessIsServedFromCache(s: StoreState, id: FetchId, payload: Payload, n: nat)
    requires id in s.pending && Json.Truthy(payload)
    ensures var settled := AfterSuccess(s, id, payload);
            && LoadAll(settled, n).next.started == s.started
            && forall i :: 0 <= i < n ==> LoadAll(settled, n).results[i] == Cached(payload)
  {
    LoadsAnswerCache(AfterSuccess(s, id, payload), n);
  }

  /** A forced load (`refresh()`) always calls `fetchStatus`, whether or not
      a payload is cached or a fetch is already in flight, and the new fetch
      replaces the one in flight. */
  lemma ForcedLoadStarts(s: StoreState)
    ensures var t := AfterLoad(s, true);
            && t.result == Started(s.started)
            && t.next.inflight == Some(s.started)
            && t.next.started == s.started + 1
            && t.next.cached == s.cached
  {
  }

  /** A failed settlement never changes the cache; so a fetch that fails
      right after the load that started it leaves the cache as it was then. */
  lemma FailureKeepsCache(s: StoreState, force: bool)
    ensures var t := AfterLoad(s, force);
            t.result.Started? ==>
              t.result.fetch in t.next.pending && AfterFailure(t.next, t.result.fetch).cached == s.cached
  {
  }

  /** The cache at a failure is not the cache at the start of that fetch when
      another fetch succeeded in between: fetch A starts, a forced fetch B
      starts, B succeeds with `payload`, then A fails; the cache holds `payload`. */
  lemma FailureAfterInterveningSuccess(s: StoreState, payload: Payload)
    requires !HasCache(s) && s.inflight.None?
    ensures var a := AfterLoad(s, false);
            var b := AfterLoad(a.next, true);
            s.started + 1 in b.next.pending &&
            var succeeded := AfterSuccess(b.next, s.started + 1, payload);
            s.started in succeeded.pending &&
            var failed := AfterFailure(succeeded, s.started);
            && a.result == Started(s.started)
            && b.result == Started(s.started + 1)
            && failed.cached == Some(payload)
            && (Json.Truthy(payload) ==> failed.cached != s.cached)
  {
  }

  /** Settlements are applied in the order they arrive, not the order the
      fetches started: an older fetch that succeeds after a newer one
      overwrites the newer payload in the cache. */
  lemma StaleSuccessOverwrites(s: StoreState, older: Payload, newer: Payload)
    requires !HasCache(s) && s.inflight.None?
    ensures var a := AfterLoad(s, false);
            var b := AfterLoad(a.next, true);
            s.started + 1 in b.next.pending &&
            var first := AfterSuccess(b.next, s.started + 1, newer);
            s.started in first.pending &&
            var last := AfterSuccess(first, s.started, older);
            && first.cached == Some(newer)
            && last.cached == Some(older)
            && last.inflight == None
  {
  }

  /** Two fetches can be outstanding with nothing in flight: a forced load
      during a fetch starts a second one, and when the first one settles its
      clean-up clears `inflight` although the second is still running; the
      next unforced load, with no truthy cache, then starts a third. */
  lemma StaleSettlementClearsInflight(s: StoreState)
    requires Inv(s) && !HasCache(s) && s.inflight.None?
    ensures var first := AfterLoad(s, false);
            var second := AfterLoad(first.next, true);
            s.started in second.next.pending &&
            var settled := AfterFailure(second.next, s.started);
            var third := AfterLoad(settled, false);
            && first.result == Started(s.started)
            && second.result == Started(s.started + 1)
            && settled.inflight == None
            && s.started + 1 in settled.pending
            && third.result == Started(s.started + 2)
            && {s.started + 1, s.started + 2} <= third.next.pending
  {
  }

  // ---------------------------------------------------------------------
  // Notification

  /** Invocations recorded one after the other are received one after the other. */
  lemma {:induction false} ReceivedAppend(a: seq<Notification>, b: seq<Notification>, callback: CallbackId)
    ensures Received(a + b, callback) == Received(a, callback) + Received(b, callback)
    decreases |b|
  {
    if b != [] {
      var init := b[..|b| - 1];
      assert (a + b)[..|a + b| - 1] == a + init;
      assert (a + b)[|a + b| - 1] == b[|b| - 1];
      ReceivedAppend(a, init, callback);
    } else {
      assert a + b == a;
    }
  }

  /** `notify(value)` invokes every subscriber exactly once, with `value`,
      and invokes no other callback. */
  lemma {:induction false} NotifiedOnce(subscribers: seq<CallbackId>, value: Option<Payload>, callback: CallbackId)
    requires NoDuplicates(subscribers)
    ensures Received(Deliveries(subscribers, value), callback) == if callback in subscribers then [value] else []
    decreases |subscribers|
  {
    if subscribers != [] {
      var init := subscribers[..|subscribers| - 1];
      var last := subscribers[|subscribers| - 1];
      var d := Deliveries(subscribers, value);
      assert d[..|d| - 1] == Deliveries(init, value);
      assert NoDuplicates(init);
      assert last !in init;
      assert subscribers == init + [last];
      NotifiedOnce(init, value, callback);
    }
  }

  /** A successful settlement invokes each current subscriber once with the
      new payload, and no callback that is not subscribed. */
  lemma SuccessNotifiesSubscribers(s: StoreState, id: FetchId, payload: Payload, callback: CallbackId)
    requires Inv(s) && id in s.pending
    ensures Received(AfterSuccess(s, id, payload).calls, callback)
         == Received(s.calls, callback) + (if callback in s.subscribers then [Some(payload)] else [])
  {
    ReceivedAppend(s.calls, Deliveries(s.subscribers, Some(payload)), callback);
    NotifiedOnce(s.subscribers, Some(payload), callback);
  }

  /** A failed settlement invokes each current subscriber once with the
      unchanged cache, and no callback that is not subscribed. */
  lemma FailureNotifiesSubscribers(s: StoreState, id: FetchId, callback: CallbackId)
    requires Inv(s) && id in s.pending
    ensures Received(AfterFailure(s, id).calls, callback)
         == Received(s.calls, callback) + (if callback in s.subscribers then [s.cached] else [])
  {
    ReceivedAppend(s.calls, Deliveries(s.subscribers, s.cached), callback);
    NotifiedOnce(s.subscribers, s.cached, callback);
  }

  // ---------------------------------------------------------------------
  // Subscription

  /** Taking out a callback that was just added at the end gives back the
      subscribers as they were. */
  lemma {:induction false} WithoutLast(subscribers: seq<CallbackId>, callback: CallbackId)
    requires callback !in subscribers
    ensures Without(subscribers + [callback], callback) == subscribers
    decreases |subscribers|
  {
    if subscribers != [] {
      assert (subscribers + [callback])[1..] == subscribers[1..] + [callback];
      WithoutLast(subscribers[1..], callback);
    }
  }

  /** Unsubscribing keeps the order of the others: the callback's one entry
      is cut out and the subscribers before and after it stay as they were. */
  lemma {:induction false} WithoutKeepsOrder(subscribers: seq<CallbackId>, callback: CallbackId, k: nat)
    requires NoDuplicates(subscribers)
    requires k < |subscribers| && subscribers[k] == callback
    ensures Without(subscribers, callback) == subscribers[..k] + subscribers[k + 1..]
    decreases |subscribers|
  {
    if k == 0 {
      assert callback !in subscribers[1..];
    } else {
      var tail := subscribers[1..];
      assert NoDuplicates(tail);
      assert subscribers[0] != callback;
      WithoutKeepsOrder(tail, callback, k - 1);
      assert tail[..k - 1] + tail[k..] == subscribers[1..k] + subscribers[k + 1..];
      assert subscribers[..k] == [subscribers[0]] + subscribers[1..k];
    }
  }

  /** Subscribing a new callback and then calling the unsubscribe function it
      was given restores the store. */
  lemma SubscribeThenUnsubscribe(s: StoreState, callback: CallbackId)
    requires callback !in s.subscribers
    ensures AfterUnsubscribe(AfterSubscribe(s, callback), callback) == s
  {
    WithoutLast(s.subscribers, callback);
  }

  /** Subscribing twice is subscribing once; unsubscribing a second time
      changes nothing. */
  lemma SubscriptionIdempotent(s: StoreState, callback: CallbackId)
    ensures AfterSubscribe(AfterSubscribe(s, callback), callback) == AfterSubscribe(s, callback)
    ensures AfterUnsubscribe(AfterUnsubscribe(s, callback), callback) == AfterUnsubscribe(s, callback)
    ensures callback in AfterSubscribe(s, callback).subscribers
    ensures callback !in AfterUnsubscribe(s, callback).subscribers
  {
  }

  // ---------------------------------------------------------------------
  // The store object

  class Store {
    var cached: Option<Payload>
    var inflight: Option<FetchId>
    var subscribers: seq<CallbackId>
    /** How many times `fetchStatus()` has been called. */
    var started: nat
    /** The started fetches that have not settled yet. */
    ghost var pending: set<FetchId>
    /** Every subscriber invocation so far, in order. */
    var calls: seq<Notification>

    ghost function State(): StoreState
      reads this
    {
      StoreState(cached, inflight, subscribers, started, pending, calls)
    }

    ghost predicate Valid()
      reads this
    {
      Inv(State())
    }

    constructor ()
      ensures Valid() && State() == Initial
    {
      cached, inflight, subscribers, started := None, None, [], 0;
      pending, calls := {}, [];
    }

    /** `getCachedStatus()`: the cached value, with no fetch and no change. */
    method GetCachedStatus() returns (value: Option<Payload>)
      ensures value == cached
    {
      value := cached;
    }

    /** `load(force)`. */
    method Load(force: bool) returns (r: LoadResult)
      requires Valid()
      modifies this
      ensures Valid()
      ensures LoadStep(State(), r) == AfterLoad(old(State()), force)
      ensures !force && HasCache(old(State())) ==> r == Cached(cached.value) && unchanged(this)
      ensures !force && !HasCache(old(State())) && old(inflight).Some? ==>
                r == Joined(old(inflight).value) && unchanged(this)
      ensures force || (!HasCache(old(State())) && old(inflight).None?) ==>
                && r == Started(old(started))
                && started == old(started) + 1
                && inflight == Some(old(started))
                && pending == old(pending) + {old(started)}
                && cached == old(cached) && subscribers == old(subscribers) && calls == old(calls)
    {
      if !force && cached.Some? && Json.Truthy(cached.value) {
        return Cached(cached.value);
      }
      if !force && inflight.Some? {
        return Joined(inflight.value);
      }
      var id := started;
      started := started + 1;
      pending := pending + {id};
      inflight := Some(id);
      r := Started(id);
    }

    /** `getStatus({force})`. */
    method GetStatus(force: bool) returns (r: LoadResult)
      requires Valid()
      modifies this
      ensures Valid()
      ensures LoadStep(State(), r) == AfterLoad(old(State()), force)
    {
      r := Load(force);
    }

    /** `refresh()`: a forced load. */
    method Refresh() returns (r: LoadResult)
      requires Valid()
      modifies this
      ensures Valid()
      ensures LoadStep(State(), r) == AfterLoad(old(State()), true)
      ensures r == Started(old(started)) && inflight == Some(old(started))
    {
      r := Load(true);
    }

    /** `notify(value)`: invokes every subscriber, in order, with `value`. */
    method Notify(value: Option<Payload>)
      modifies this`calls
      ensures calls == old(calls) + Deliveries(subscribers, value)
    {
      var i := 0;
      while i < |subscribers|
        invariant 0 <= i <= |subscribers|
        invariant calls == old(calls) + Deliveries(subscribers[..i], value)
      {
        assert subscribers[..i + 1][..i] == subscribers[..i];
        calls := calls + [Notification(subscribers[i], value)];
        i := i + 1;
      }
      assert subscribers[..i] == subscribers;
    }

    /** Fetch `id` resolves with `payload`: cache it, notify, then the
        clean-up clears `inflight`. The fetch's callers get the payload. */
    method SettleSuccess(id: FetchId, payload: Payload) returns (outcome: Result<Payload, Reason>)
      requires Valid() && id in pending
      modifies this
      ensures Valid()
      ensures State() == AfterSuccess(old(State()), id, payload)
      ensures outcome == Success(payload)
      ensures cached == Some(payload) && inflight == None && subscribers == old(subscribers)
      ensures calls == old(calls) + Deliveries(old(subscribers), Some(payload))
    {
      cached := Some(payload);
      Notify(cached);
      inflight := None;
      pending := pending - {id};
      outcome := Success(payload);
    }

    /** Fetch `id` rejects with `reason`: notify with the unchanged cache,
        then the clean-up clears `inflight`. The fetch's callers get the
        rejection unchanged. */
    method SettleFailure(id: FetchId, reason: Reason) returns (outcome: Result<Payload, Reason>)
      requires Valid() && id in pending
      modifies this
      ensures Valid()
      ensures State() == AfterFailure(old(State()), id)
      ensures outcome == Failure(reason)
      ensures cached == old(cached) && inflight == None && subscribers == old(subscribers)
      ensures calls == old(calls) + Deliveries(old(subscribers), old(cached))
    {
      Notify(cached);
      inflight := None;
      pending := pending - {id};
      outcome := Failure(reason);
    }

    /** `subscribe(callback)`: add the callback unless it is already there. */
    method Subscribe(callback: CallbackId)
      requires Valid()
      modifies this`subscribers
      ensures Valid()
      ensures State() == AfterSubscribe(old(State()), callback)
      ensures callback in subscribers
      ensures forall d :: d in subscribers <==> d in old(subscribers) || d == callback
    {
      if callback !in subscribers {
        subscribers := subscribers + [callback];
      }
    }

    /** The unsubscribe function returned by `subscribe(callback)`: remove
        exactly that callback; `removed` is false when it was already gone. */
    method Unsubscribe(callback: CallbackId) returns (removed: bool)
      requires Valid()
      modifies this`subscribers
      ensures Valid()
      ensures State() == AfterUnsubscribe(old(State()), callback)
      ensures removed == (callback in old(subscribers))
      ensures callback !in subscribers
      ensures forall d :: d != callback ==> (d in subscribers <==> d in old(subscribers))
    {
      removed := callback in subscribers;
      subscribers := Without(subscribers, callback);
    }
  }

  /** `createBillingStore({fetchStatus})`: a missing `fetchStatus` is a
      configuration error; otherwise a fresh, empty store. */
  method CreateBillingStore(fetchStatus: Option<FetchFn>) returns (r: Result<Store, string>)
    ensures r.Failure? <==> fetchStatus.None?
    ensures r.Failure? ==> r.error == FetchStatusRequired
    ensures r.Success? ==> fresh(r.value) && r.value.Valid() && r.value.State() == Initial
  {
    if fetchStatus.None? {
      return Failure(FetchStatusRequired);
    }
    var store := new Store();
    return Success(store);
  }
}
