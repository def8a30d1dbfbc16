/**
 * checkRateLimit, identical in the three generation edge functions: a
 * fixed-window limiter over a per-isolate map from user id to
 * {count, resetTime}, five requests per 60 000 ms window. `Date.now()` is
 * the parameter `now`.
 */
module RateLimit {

  const WindowMs: int := 60000
  const MaxRequestsPerWindow: int := 5

  /** The record the map holds for one user. */
  datatype Entry = Entry(count: int, resetTime: int)

  type Store = map<string, Entry>

  /** Every entry counts between one and five requests. */
  predicate StoreValid(store: Store) {
    forall u :: u in store ==> 1 <= store[u].count <= MaxRequestsPerWindow
  }

  /** The answer of one call and the map it leaves behind. */
  datatype Decision = Decision(allowed: bool, store: Store)

  /**
   * One call of checkRateLimit(userId) at time `now`. A user seen for the
   * first time, or whose window has passed (now > resetTime, strictly),
   * starts a new window with count 1; otherwise the call is allowed while
   * fewer than five were allowed in the window, and each allowed call
   * counts one more.
   */
  function Step(store: Store, userId: string, now: int): (d: Decision)
    ensures d.allowed <==> userId !in store || now > store[userId].resetTime
                           || store[userId].count < MaxRequestsPerWindow
    ensures !d.allowed ==> d.store == store
    ensures d.allowed ==> d.store.Keys == store.Keys + {userId}
    ensures forall u :: u in store && u != userId ==> u in d.store && d.store[u] == store[u]
    ensures (userId !in store || now > store[userId].resetTime) ==>
              d.store[userId] == Entry(1, now + WindowMs)
    ensures userId in store && now <= store[userId].resetTime && d.allowed ==>
              d.store[userId] == Entry(store[userId].count + 1, store[userId].resetTime)
    ensures StoreValid(store) ==> StoreValid(d.store)
  {
    if userId !in store || now > store[userId].resetTime then
      Decision(true, store[userId := Entry(1, now + WindowMs)])
    else if store[userId].count >= MaxRequestsPerWindow then
      Decision(false, store)
    else
      Decision(true, store[userId := Entry(store[userId].count + 1, store[userId].resetTime)])
  }

  /** The module-level `rateLimitStore` of one isolate. */
  class RateLimiter {
    var store: Store

    constructor ()
      ensures store == map[]
    {
      store := map[];
    }

    /** checkRateLimit: sets a fresh window, refuses, or increments the count in place. */
    method Check(userId: string, now: int) returns (allowed: bool)
      modifies this
      ensures Step(old(store), userId, now) == Decision(allowed, store)
    {
      if userId !in store || now > store[userId].resetTime {
        store := store[userId := Entry(1, now + WindowMs)];
        return true;
      }
      var userLimit := store[userId];
      if userLimit.count >= MaxRequestsPerWindow {
        return false;
      }
      store := store[userId := userLimit.(count := userLimit.count + 1)];
      return true;
    }
  }

  /** A call of checkRateLimit: who asks, and when. */
  datatype Call = Call(userId: string, now: int)

  /** The answers of a sequence of calls, made one after the other on one isolate, and the final map. */
  function Run(store: Store, calls: seq<Call>): (r: (Store, seq<bool>))
    ensures |r.1| == |calls|
    decreases |calls|
  {
    if calls == [] then (store, [])
    else
      var d := Step(store, calls[0].userId, calls[0].now);
      var rest := Run(d.store, calls[1..]);
      (rest.0, [d.allowed] + rest.1)
  }

  /** How many of the calls made by `u` were allowed. */
  function AllowedFor(calls: seq<Call>, answers: seq<bool>, u: string): nat
    requires |answers| == |calls|
  {
    if calls == [] then 0
    else (if calls[0].userId == u && answers[0] then 1 else 0) + AllowedFor(calls[1..], answers[1..], u)
  }

  /**
   * Within one window, whatever other users do in between, a user whose
   * entry already counts c requests is allowed at most 5 - c more; the
   * entry then counts c plus the allowed calls and keeps its reset time.
   */
  lemma {:induction false} WindowBound(store: Store, calls: seq<Call>, u: string)
    requires u in store && 1 <= store[u].count <= MaxRequestsPerWindow
    requires forall k :: 0 <= k < |calls| && calls[k].userId == u ==> calls[k].now <= store[u].resetTime
    ensures var r := Run(store, calls);
            && store[u].count + AllowedFor(calls, r.1, u) <= MaxRequestsPerWindow
            && u in r.0
            && r.0[u] == Entry(store[u].count + AllowedFor(calls, r.1, u), store[u].resetTime)
    decreases |calls|
  {
    if calls != [] {
      var d := Step(store, calls[0].userId, calls[0].now);
      assert u in d.store;
      assert d.store[u].resetTime == store[u].resetTime;
      forall k | 0 <= k < |calls[1..]| && calls[1..][k].userId == u
        ensures calls[1..][k].now <= d.store[u].resetTime
      {
        assert calls[1..][k] == calls[k + 1];
      }
      WindowBound(d.store, calls[1..], u);
    }
  }

  /**
   * A call that opens a window for `u` (first sight, or the old window
   * passed) is followed by at most four more allowed calls from `u` until
   * the window's end `now + 60000`, inclusive: five per window in all.
   */
  lemma FivePerWindow(store: Store, u: string, now: int, later: seq<Call>)
    requires u !in store || now > store[u].resetTime
    requires forall k :: 0 <= k < |later| && later[k].userId == u ==> later[k].now <= now + WindowMs
    ensures var d := Step(store, u, now);
            d.allowed && 1 + AllowedFor(later, Run(d.store, later).1, u) <= MaxRequestsPerWindow
  {
    var d := Step(store, u, now);
    WindowBound(d.store, later, u);
  }
}
