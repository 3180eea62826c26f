/**
 * The in-memory fixed-window rate limiter of the data API (api/data.js,
 * `checkRateLimit` and the periodic sweep). Each client id has an entry
 * holding the number of requests counted in its current window and the
 * instant the window closes. The clock is a parameter: `now` stands for
 * `Date.now()`, in milliseconds.
 */
module RateLimit {
  import opened Options

  /** `RATE_LIMIT_WINDOW` and `RATE_LIMIT_MAX_REQUESTS`. */
  const Window := 60000
  const MaxRequests := 100

  datatype Entry = Entry(count: int, resetTime: int)

  /** A window has closed once `now` is strictly later than its reset time. */
  predicate Expired(e: Entry, now: int) {
    now > e.resetTime
  }

  function Find(m: map<string, Entry>, clientId: string): Option<Entry> {
    if clientId in m then Some(m[clientId]) else None
  }

  /**
   * The entry after one request at `now` (lines 33-41). A client with no
   * entry starts from `{count: 0, resetTime: now + 60000}`, whose window is
   * still open, so its first request counts 1.
   */
  function Touch(prior: Option<Entry>, now: int): (e: Entry)
    ensures prior.None? ==> e == Entry(1, now + Window)
    ensures e.resetTime >= now
    ensures prior.Some? && !Expired(prior.value, now) ==> e.resetTime == prior.value.resetTime
    ensures prior.None? || prior.value.count >= 0 ==> e.count >= 1
    ensures prior.Some? && Expired(prior.value, now) ==> e == Entry(1, now + Window)
    ensures prior.Some? && !Expired(prior.value, now) ==> e == Entry(prior.value.count + 1, prior.value.resetTime)
  {
    var data := if prior.Some? then prior.value else Entry(0, now + Window);
    if Expired(data, now) then Entry(1, now + Window)
    else Entry(data.count + 1, data.resetTime)
  }

  /** The verdict of line 45 for the entry just stored. */
  predicate Admits(e: Entry) {
    e.count <= MaxRequests
  }

  /** The entries the sweep of lines 49-56 keeps: those whose window is still open at `now`. */
  function Live(m: map<string, Entry>, now: int): map<string, Entry> {
    map c | c in m && !Expired(m[c], now) :: m[c]
  }

  /**
   * Successive requests of one client at the instants `times`: the table
   * afterwards and the verdict of each request, in order.
   */
  function Replay(m: map<string, Entry>, clientId: string, times: seq<int>): (r: (map<string, Entry>, seq<bool>))
    ensures |r.1| == |times|
    ensures times != [] ==> clientId in r.0
    ensures forall c :: c != clientId ==> Find(r.0, c) == Find(m, c)
    decreases |times|
  {
    if times == [] then (m, [])
    else
      var prior := Replay(m, clientId, times[..|times| - 1]);
      var e := Touch(Find(prior.0, clientId), times[|times| - 1]);
      (prior.0[clientId := e], prior.1 + [Admits(e)])
  }

  /**
   * A client with no open window that makes `n` requests, none of them
   * later than 60000 ms after the first: its window starts at the first
   * request, the entry ends at count `n`, and exactly the first 100
   * requests are admitted; every later one in that window is refused.
   */
  lemma {:induction false} OneWindow(m: map<string, Entry>, clientId: string, times: seq<int>)
    requires times != []
    requires clientId !in m || Expired(m[clientId], times[0])
    requires forall i :: 0 <= i < |times| ==> times[i] <= times[0] + Window
    ensures Replay(m, clientId, times).0 == m[clientId := Entry(|times|, times[0] + Window)]
    ensures forall i :: 0 <= i < |times| ==> Replay(m, clientId, times).1[i] == (i < MaxRequests)
    decreases |times|
  {
    var n := |times|;
    var init := times[..n - 1];
    if n == 1 {
      assert init == [];
    } else {
      assert init[0] == times[0];
      assert forall i :: 0 <= i < |init| ==> init[i] == times[i];
      OneWindow(m, clientId, init);
      var prior := Replay(m, clientId, init);
      assert Find(prior.0, clientId) == Some(Entry(n - 1, times[0] + Window));
      assert Touch(Find(prior.0, clientId), times[n - 1]) == Entry(n, times[0] + Window);
      assert Replay(m, clientId, times).1 == prior.1 + [n <= MaxRequests];
    }
  }

  /**
   * Lines 35-41: a request strictly after the reset time restarts the
   * window at count 1 with a fresh 60000 ms window and is admitted, however
   * many requests the old window held; a request at or before the reset time
   * counts one more in the same window.
   */
  lemma ResetBoundary(e: Entry, now: int)
    ensures now > e.resetTime ==> Touch(Some(e), now) == Entry(1, now + Window) && Admits(Touch(Some(e), now))
    ensures now <= e.resetTime ==> Touch(Some(e), now) == Entry(e.count + 1, e.resetTime)
    ensures now <= e.resetTime && e.count >= MaxRequests ==> !Admits(Touch(Some(e), now))
  {
  }

  /**
   * Sweeping at `now` changes no later verdict: a request at any `t >= now`
   * gets the same verdict and leaves the client with the same entry,
   * whether or not the sweep ran first.
   */
  lemma {:induction false} SweepUnobservable(m: map<string, Entry>, now: int, clientId: string, times: seq<int>)
    requires forall i :: 0 <= i < |times| ==> times[i] >= now
    ensures Replay(Live(m, now), clientId, times).1 == Replay(m, clientId, times).1
    ensures times != [] ==>
      Find(Replay(Live(m, now), clientId, times).0, clientId) == Find(Replay(m, clientId, times).0, clientId)
    decreases |times|
  {
    if times != [] {
      var init := times[..|times| - 1];
      assert forall i :: 0 <= i < |init| ==> init[i] == times[i];
      SweepUnobservable(m, now, clientId, init);
      var t := times[|times| - 1];
      var swept, kept := Replay(Live(m, now), clientId, init), Replay(m, clientId, init);
      if init == [] {
        assert swept.0 == Live(m, now) && kept.0 == m;
        assert Touch(Find(Live(m, now), clientId), t) == Touch(Find(m, clientId), t);
      } else {
        assert Find(swept.0, clientId) == Find(kept.0, clientId);
      }
    }
  }

  class RateLimiter {
    /** `rateLimitMap`. */
    var entries: map<string, Entry>

    constructor ()
      ensures entries == map[]
    {
      entries := map[];
    }

    /** `checkRateLimit(clientId)` at instant `now` (lines 31-46); only the entry of `clientId` changes. */
    method CheckRateLimit(clientId: string, now: int) returns (allowed: bool)
      modifies this
      ensures entries == old(entries)[clientId := Touch(Find(old(entries), clientId), now)]
      ensures allowed <==> Admits(entries[clientId])
    {
      var clientData := Touch(Find(entries, clientId), now);
      entries := entries[clientId := clientData];
      allowed := clientData.count <= MaxRequests;
    }

    /** The body of the `setInterval` callback (lines 50-55): delete every entry whose window has closed. */
    method Sweep(now: int)
      modifies this
      ensures entries == Live(old(entries), now)
    {
      var pending := entries.Keys;
      while pending != {}
        invariant pending <= old(entries).Keys
        invariant entries == map c | c in old(entries) && (c in pending || !Expired(old(entries)[c], now)) :: old(entries)[c]
        decreases |pending|
      {
        var clientId :| clientId in pending;
        if Expired(entries[clientId], now) {
          entries := entries - {clientId};
        }
        pending := pending - {clientId};
      }
    }
  }
}
