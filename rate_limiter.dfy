/**
 * The sliding-window request limiter of src/utils/rate-limiter.ts.
 *
 * A `RateLimiter` keeps, per key, the timestamps of the requests it admitted
 * that were still inside the window the last time it admitted one. A call at
 * time `now` looks only at the timestamps `t` with `now - t < timeWindow`, and
 * admits (recording `now`) when fewer than `maxRequests` of them remain.
 *
 * The clock (`Date.now()`) is a parameter. The pure part (`Retained`,
 * `UnderQuota`, `Recorded`, `Replay`) specifies the class, and the sliding-window
 * guarantee is proved about `Replay`, which the class is tied to by `Valid()`.
 */
module RateLimiting {
  import opened Wrappers

  /** Constructor defaults: 10 requests per 60000 ms. */
  const DEFAULT_MAX_REQUESTS: int := 10
  const DEFAULT_TIME_WINDOW: int := 60000

  /** `s` never goes backwards: the shape of successive readings of a clock. */
  ghost predicate NonDecreasing(s: seq<int>) {
    forall i, j :: 0 <= i < j < |s| ==> s[i] <= s[j]
  }

  /**
   * The timestamps that still count at `now`, in their stored order: those with
   * `now - t < timeWindow`. A timestamp exactly `timeWindow` old is dropped.
   */
  function Retained(timestamps: seq<int>, now: int, timeWindow: int): (r: seq<int>)
    ensures |r| <= |timestamps|
  {
    if timestamps == [] then []
    else if now - timestamps[0] < timeWindow then
      [timestamps[0]] + Retained(timestamps[1..], now, timeWindow)
    else
      Retained(timestamps[1..], now, timeWindow)
  }

  /**
   * Pruning keeps exactly the timestamps that still count, each as often as
   * it was stored, and invents none.
   */
  lemma {:induction false} RetainedSpec(timestamps: seq<int>, now: int, timeWindow: int)
    ensures var r := Retained(timestamps, now, timeWindow);
      && multiset(r) <= multiset(timestamps)
      && (forall t :: t in r <==> t in timestamps && now - t < timeWindow)
      && (forall t :: now - t < timeWindow ==> multiset(r)[t] == multiset(timestamps)[t])
  {
    if timestamps != [] {
      assert timestamps == [timestamps[0]] + timestamps[1..];
      RetainedSpec(timestamps[1..], now, timeWindow);
    }
  }

  /** The list stored for `key`, or the empty list when there is none. */
  function Stored(requestTimestamps: map<string, seq<int>>, key: string): seq<int> {
    if key in requestTimestamps then requestTimestamps[key] else []
  }

  /** A call at `now` is admitted exactly when fewer than `maxRequests` timestamps still count. */
  predicate UnderQuota(stored: seq<int>, now: int, maxRequests: int, timeWindow: int) {
    |Retained(stored, now, timeWindow)| < maxRequests
  }

  /** What an admitted call writes back: the timestamps that still count, then `now`. */
  function Recorded(stored: seq<int>, now: int, timeWindow: int): seq<int> {
    Retained(stored, now, timeWindow) + [now]
  }

  /** The number of entries of `xs` in the half-open interval [lo, hi). */
  function CountIn(xs: seq<int>, lo: int, hi: int): (n: nat)
    ensures n <= |xs|
  {
    if xs == [] then 0
    else (if lo <= xs[0] < hi then 1 else 0) + CountIn(xs[1..], lo, hi)
  }

  /** One key's state after a sequence of calls: the stored list and the times of the admitted calls. */
  datatype History = History(stored: seq<int>, admitted: seq<int>)

  /**
   * The effect of calling `canMakeRequest` for one key at the times in `calls`,
   * in order, starting from no stored list.
   */
  function Replay(calls: seq<int>, maxRequests: int, timeWindow: int): (h: History)
    ensures h.stored == [] || |h.stored| <= maxRequests
    ensures |h.admitted| <= |calls|
  {
    if calls == [] then History([], [])
    else
      var prev := Replay(calls[..|calls| - 1], maxRequests, timeWindow);
      var now := calls[|calls| - 1];
      if UnderQuota(prev.stored, now, maxRequests, timeWindow) then
        History(Recorded(prev.stored, now, timeWindow), prev.admitted + [now])
      else
        prev
  }

  /** One more call extends the replay by exactly one step. */
  lemma ReplayStep(calls: seq<int>, now: int, maxRequests: int, timeWindow: int)
    ensures var prev := Replay(calls, maxRequests, timeWindow);
      Replay(calls + [now], maxRequests, timeWindow) ==
        if UnderQuota(prev.stored, now, maxRequests, timeWindow)
        then History(Recorded(prev.stored, now, timeWindow), prev.admitted + [now])
        else prev
  {
    assert (calls + [now])[..|calls|] == calls;
  }

  lemma {:induction false} CountInAppend(xs: seq<int>, ys: seq<int>, lo: int, hi: int)
    ensures CountIn(xs + ys, lo, hi) == CountIn(xs, lo, hi) + CountIn(ys, lo, hi)
  {
    if xs == [] {
      assert xs + ys == ys;
    } else {
      assert (xs + ys)[1..] == xs[1..] + ys;
      CountInAppend(xs[1..], ys, lo, hi);
    }
  }

  /** Two entries in [lo, hi) make the count at least two. */
  lemma {:induction false} CountInAtLeastTwo(xs: seq<int>, i: nat, j: nat, lo: int, hi: int)
    requires i < j < |xs|
    requires lo <= xs[i] < hi && lo <= xs[j] < hi
    ensures CountIn(xs, lo, hi) >= 2
  {
    if i > 0 {
      CountInAtLeastTwo(xs[1..], i - 1, j - 1, lo, hi);
    } else {
      CountInAtLeastOne(xs[1..], j - 1, lo, hi);
    }
  }

  lemma {:induction false} CountInAtLeastOne(xs: seq<int>, j: nat, lo: int, hi: int)
    requires j < |xs| && lo <= xs[j] < hi
    ensures CountIn(xs, lo, hi) >= 1
  {
    if j > 0 {
      CountInAtLeastOne(xs[1..], j - 1, lo, hi);
    }
  }

  /**
   * Pruning at `now` loses nothing that could still fall in a window starting
   * after `now - timeWindow`: every dropped timestamp is at most `now - timeWindow`.
   */
  lemma {:induction false} RetainedKeepsRecent(timestamps: seq<int>, now: int, timeWindow: int, lo: int, hi: int)
    requires lo > now - timeWindow
    ensures CountIn(Retained(timestamps, now, timeWindow), lo, hi) == CountIn(timestamps, lo, hi)
  {
    if timestamps != [] {
      var rest := Retained(timestamps[1..], now, timeWindow);
      RetainedKeepsRecent(timestamps[1..], now, timeWindow, lo, hi);
      if now - timestamps[0] < timeWindow {
        assert ([timestamps[0]] + rest)[1..] == rest;
      }
    }
  }

  /** In every interval starting after `since`, `h` has as many admitted calls as stored timestamps. */
  ghost predicate AccountsFor(h: History, since: int) {
    forall lo, hi :: lo > since ==> CountIn(h.admitted, lo, hi) == CountIn(h.stored, lo, hi)
  }

  /**
   * After a non-empty run of calls with a non-decreasing clock, the stored list
   * accounts for every admitted call that could still share a window with a
   * later call: in any interval starting after `last - timeWindow` the stored
   * list and the admitted calls have the same count.
   */
  lemma {:induction false} ReplayAccountsForRecent(calls: seq<int>, maxRequests: int, timeWindow: int)
    requires |calls| > 0 && NonDecreasing(calls)
    ensures AccountsFor(Replay(calls, maxRequests, timeWindow), calls[|calls| - 1] - timeWindow)
  {
    var init := calls[..|calls| - 1];
    var now := calls[|calls| - 1];
    var prev := Replay(init, maxRequests, timeWindow);
    var h := Replay(calls, maxRequests, timeWindow);
    if |init| > 0 {
      assert NonDecreasing(init);
      ReplayAccountsForRecent(init, maxRequests, timeWindow);
      assert init[|init| - 1] <= now;
    } else {
      assert prev == History([], []);
    }
    forall lo, hi | lo > now - timeWindow
      ensures CountIn(h.admitted, lo, hi) == CountIn(h.stored, lo, hi)
    {
      if |init| > 0 {
        assert AccountsFor(prev, init[|init| - 1] - timeWindow);
        assert lo > init[|init| - 1] - timeWindow;
      }
      assert CountIn(prev.admitted, lo, hi) == CountIn(prev.stored, lo, hi);
      if UnderQuota(prev.stored, now, maxRequests, timeWindow) {
        CountInAppend(prev.admitted, [now], lo, hi);
        CountInAppend(Retained(prev.stored, now, timeWindow), [now], lo, hi);
        RetainedKeepsRecent(prev.stored, now, timeWindow, lo, hi);
      }
    }
  }

  /**
   * Before an admitted call at `now`, the earlier admitted calls in a window
   * containing `now` are all still stored, so fewer than `maxRequests` of them
   * remain.
   */
  lemma EarlierAdmittedBelowQuota(init: seq<int>, now: int, maxRequests: int, timeWindow: int, lo: int)
    requires |init| > 0 && NonDecreasing(init) && init[|init| - 1] <= now
    requires lo <= now < lo + timeWindow
    requires UnderQuota(Replay(init, maxRequests, timeWindow).stored, now, maxRequests, timeWindow)
    ensures CountIn(Replay(init, maxRequests, timeWindow).admitted, lo, lo + timeWindow) < maxRequests
  {
    var prev := Replay(init, maxRequests, timeWindow);
    var hi := lo + timeWindow;
    ReplayAccountsForRecent(init, maxRequests, timeWindow);
    assert CountIn(prev.admitted, lo, hi) == CountIn(prev.stored, lo, hi);
    RetainedKeepsRecent(prev.stored, now, timeWindow, lo, hi);
  }

  /**
   * The sliding-window guarantee: with a non-decreasing clock, the calls
   * admitted in any half-open interval of length `timeWindow` number at most
   * `maxRequests`.
   */
  lemma {:induction false} SlidingWindowBound(calls: seq<int>, maxRequests: int, timeWindow: int, lo: int)
    requires NonDecreasing(calls) && maxRequests >= 0
    ensures CountIn(Replay(calls, maxRequests, timeWindow).admitted, lo, lo + timeWindow) <= maxRequests
  {
    if calls != [] {
      var init := calls[..|calls| - 1];
      var now := calls[|calls| - 1];
      var prev := Replay(init, maxRequests, timeWindow);
      assert NonDecreasing(init);
      SlidingWindowBound(init, maxRequests, timeWindow, lo);
      if UnderQuota(prev.stored, now, maxRequests, timeWindow) {
        CountInAppend(prev.admitted, [now], lo, lo + timeWindow);
        if lo <= now < lo + timeWindow && |init| > 0 {
          assert init[|init| - 1] <= now;
          EarlierAdmittedBelowQuota(init, now, maxRequests, timeWindow, lo);
        }
      }
    }
  }

  /** Admitted calls come out in call order, so with a non-decreasing clock they are non-decreasing too. */
  lemma {:induction false} AdmittedInOrder(calls: seq<int>, maxRequests: int, timeWindow: int)
    requires NonDecreasing(calls)
    ensures var h := Replay(calls, maxRequests, timeWindow);
      NonDecreasing(h.admitted) && forall k :: 0 <= k < |h.admitted| ==> h.admitted[k] in calls
  {
    if calls != [] {
      var init := calls[..|calls| - 1];
      var now := calls[|calls| - 1];
      assert NonDecreasing(init);
      AdmittedInOrder(init, maxRequests, timeWindow);
      var prev := Replay(init, maxRequests, timeWindow);
      forall k | 0 <= k < |prev.admitted|
        ensures prev.admitted[k] <= now && prev.admitted[k] in calls
      {
        var idx :| 0 <= idx < |init| && init[idx] == prev.admitted[k];
        assert calls[idx] == init[idx];
      }
    }
  }

  /**
   * With a quota of one request, any two admitted calls are at least
   * `timeWindow` apart: the guarantee each exported limiter gives its service.
   */
  lemma {:induction false} OneAdmissionPerWindow(calls: seq<int>, timeWindow: int, i: nat, j: nat)
    requires NonDecreasing(calls)
    requires i < j < |Replay(calls, 1, timeWindow).admitted|
    ensures var a := Replay(calls, 1, timeWindow).admitted; a[j] - a[i] >= timeWindow
  {
    var a := Replay(calls, 1, timeWindow).admitted;
    AdmittedInOrder(calls, 1, timeWindow);
    if a[j] - a[i] < timeWindow {
      assert a[i] <= a[j];
      CountInAtLeastTwo(a, i, j, a[i], a[i] + timeWindow);
      SlidingWindowBound(calls, 1, timeWindow, a[i]);
      assert false;
    }
  }

  /**
   * The strict boundary, with one request per 60000 ms: calls at 0, 30000 and
   * 60000 are admitted, rejected and admitted.
   */
  lemma StrictBoundaryExample()
    ensures Replay([0, 30000, 60000], 1, 60000).admitted == [0, 60000]
  {
    assert [0, 30000, 60000][..2] == [0, 30000];
    assert [0, 30000][..1] == [0];
    assert [0][..0] == [];
  }

  class RateLimiter {
    /** Per key, the timestamps of admitted requests as of the last admission for that key. */
    var requestTimestamps: map<string, seq<int>>
    const maxRequests: int
    const timeWindow: int
    /** Per key, the time of every call since the key was last cleared. */
    ghost var calls: map<string, seq<int>>

    ghost predicate Valid()
      reads this
    {
      && requestTimestamps.Keys <= calls.Keys
      && (forall key :: key in requestTimestamps ==> |requestTimestamps[key]| <= maxRequests)
      && (forall key :: key in calls ==>
            Stored(requestTimestamps, key) == Replay(calls[key], maxRequests, timeWindow).stored)
    }

    /** The calls made for `key` since it was last cleared. */
    ghost function CallsOf(key: string): seq<int>
      reads this
    {
      if key in calls then calls[key] else []
    }

    /** The times of the calls for `key` that were admitted since it was last cleared. */
    ghost function Admissions(key: string): seq<int>
      reads this
    {
      Replay(CallsOf(key), maxRequests, timeWindow).admitted
    }

    /** An omitted argument takes its default: 10 requests per 60000 ms. */
    constructor (maxRequests: Option<int>, timeWindow: Option<int>)
      ensures Valid()
      ensures this.maxRequests == maxRequests.GetOr(DEFAULT_MAX_REQUESTS)
      ensures this.timeWindow == timeWindow.GetOr(DEFAULT_TIME_WINDOW)
      ensures requestTimestamps == map[] && calls == map[]
    {
      this.maxRequests := maxRequests.GetOr(DEFAULT_MAX_REQUESTS);
      this.timeWindow := timeWindow.GetOr(DEFAULT_TIME_WINDOW);
      requestTimestamps := map[];
      calls := map[];
    }

    /**
     * `canMakeRequest(key)` at clock reading `now`. A rejected call writes
     * nothing back, not even the pruned list; an admitted one stores the
     * pruned list followed by `now`. No other key is touched.
     */
    method CanMakeRequest(key: string, now: int) returns (allowed: bool)
      requires Valid()
      modifies this
      ensures Valid()
      ensures calls == old(calls)[key := old(CallsOf(key)) + [now]]
      ensures allowed <==> UnderQuota(Stored(old(requestTimestamps), key), now, maxRequests, timeWindow)
      ensures allowed ==>
        requestTimestamps == old(requestTimestamps)[key := Recorded(Stored(old(requestTimestamps), key), now, timeWindow)]
      ensures !allowed ==> requestTimestamps == old(requestTimestamps)
      ensures Admissions(key) == if allowed then old(Admissions(key)) + [now] else old(Admissions(key))
    {
      var timestamps := if key in requestTimestamps then requestTimestamps[key] else [];
      ghost var before := CallsOf(key);
      assert timestamps == Replay(before, maxRequests, timeWindow).stored;
      ReplayStep(before, now, maxRequests, timeWindow);
      calls := calls[key := before + [now]];
      var validTimestamps := Retained(timestamps, now, timeWindow);
      if |validTimestamps| >= maxRequests {
        assert Stored(requestTimestamps, key) == Replay(calls[key], maxRequests, timeWindow).stored;
        return false;
      }
      validTimestamps := validTimestamps + [now];
      requestTimestamps := requestTimestamps[key := validTimestamps];
      assert Stored(requestTimestamps, key) == Replay(calls[key], maxRequests, timeWindow).stored;
      return true;
    }

    /**
     * `waitForNextRequest(key)`: poll `canMakeRequest` once per tick until one
     * call is admitted. `ticks` are the clock readings at the polls that
     * happen; `resolved` is false when none of them was admitted, that is,
     * when the promise is still pending after them.
     */
    method WaitForNextRequest(key: string, ticks: seq<int>) returns (resolved: bool, polls: nat)
      requires Valid()
      modifies this
      ensures Valid()
      ensures polls <= |ticks|
      ensures resolved ==> 0 < polls && Admissions(key) == old(Admissions(key)) + [ticks[polls - 1]]
      ensures !resolved ==> polls == |ticks| && Admissions(key) == old(Admissions(key))
      ensures requestTimestamps - {key} == old(requestTimestamps) - {key}
      ensures calls - {key} == old(calls) - {key}
    {
      resolved := false;
      polls := 0;
      ghost var admissions0 := Admissions(key);
      while polls < |ticks| && !resolved
        invariant Valid() && polls <= |ticks|
        invariant resolved ==> 0 < polls && Admissions(key) == admissions0 + [ticks[polls - 1]]
        invariant !resolved ==> Admissions(key) == admissions0
        invariant requestTimestamps - {key} == old(requestTimestamps) - {key}
        invariant calls - {key} == old(calls) - {key}
      {
        ghost var timestamps1, calls1 := requestTimestamps, calls;
        resolved := CanMakeRequest(key, ticks[polls]);
        UpdateKeepsOtherKeys(calls1, key, calls[key]);
        if resolved {
          UpdateKeepsOtherKeys(timestamps1, key, requestTimestamps[key]);
        }
        polls := polls + 1;
      }
    }

    /**
     * `clear(key?)`. The source tests the key for truthiness, so the empty
     * string clears every key, exactly as an omitted key does.
     */
    method Clear(key: Option<string>)
      requires Valid()
      modifies this
      ensures Valid()
      ensures key.Some? && key.value != "" ==>
        requestTimestamps == old(requestTimestamps) - {key.value} && calls == old(calls) - {key.value}
      ensures key.None? || key.value == "" ==> requestTimestamps == map[] && calls == map[]
    {
      if key.Some? && key.value != "" {
        requestTimestamps := requestTimestamps - {key.value};
        calls := calls - {key.value};
      } else {
        requestTimestamps := map[];
        calls := map[];
      }
    }

    /** The sliding-window guarantee for this limiter's admissions for one key. */
    lemma WindowBound(key: string, lo: int)
      requires maxRequests >= 0 && NonDecreasing(CallsOf(key))
      ensures CountIn(Admissions(key), lo, lo + timeWindow) <= maxRequests
    {
      SlidingWindowBound(CallsOf(key), maxRequests, timeWindow, lo);
    }
  }

  /** Updating `key` leaves the rest of the map as it was. */
  lemma UpdateKeepsOtherKeys<V>(m: map<string, V>, key: string, v: V)
    ensures m[key := v] - {key} == m - {key}
  {
  }

  /** The services that get their own exported limiter instance. */
  datatype Service = CoinGecko | Jupiter | SolanaRpc

  /** The (maxRequests, timeWindow) each exported instance is created with. */
  function ServiceQuota(service: Service): (int, int) {
    match service
    case CoinGecko => (1, 120000)
    case Jupiter => (1, 90000)
    case SolanaRpc => (1, 60000)
  }

  /** `new RateLimiter(max, window)` for one of the exported instances. */
  method NewServiceLimiter(service: Service) returns (limiter: RateLimiter)
    ensures fresh(limiter) && limiter.Valid()
    ensures (limiter.maxRequests, limiter.timeWindow) == ServiceQuota(service)
    ensures limiter.requestTimestamps == map[]
  {
    var (maxRequests, timeWindow) := ServiceQuota(service);
    limiter := new RateLimiter(Some(maxRequests), Some(timeWindow));
  }

  /**
   * Every exported instance admits one request per window: two admitted calls
   * are at least 120000 ms (CoinGecko), 90000 ms (Jupiter) or 60000 ms (Solana
   * RPC) apart.
   */
  lemma ServiceAdmissionsSpaced(service: Service, calls: seq<int>, i: nat, j: nat)
    requires NonDecreasing(calls)
    requires i < j < |Replay(calls, ServiceQuota(service).0, ServiceQuota(service).1).admitted|
    ensures var a := Replay(calls, ServiceQuota(service).0, ServiceQuota(service).1).admitted;
      a[j] - a[i] >= ServiceQuota(service).1 >= 60000
  {
    OneAdmissionPerWindow(calls, ServiceQuota(service).1, i, j);
  }

  /** The Solana RPC instance at the strict boundary: admitted at 0, rejected at 30000, admitted at 60000. */
  method SolanaRpcBoundary() returns (first: bool, second: bool, third: bool)
    ensures first && !second && third
  {
    var limiter := NewServiceLimiter(SolanaRpc);
    first := limiter.CanMakeRequest("rpc", 0);
    second := limiter.CanMakeRequest("rpc", 30000);
    third := limiter.CanMakeRequest("rpc", 60000);
  }

  /**
   * Clearing `key` itself, or clearing every key (`clear()` or `clear("")`),
   * lets the next call for `key` through whenever the quota is at least one.
   */
  method ClearedKeyIsAdmitted(limiter: RateLimiter, cleared: Option<string>, key: string, now: int)
    returns (allowed: bool)
    requires limiter.Valid() && limiter.maxRequests >= 1
    requires cleared == Some(key) || cleared == None || cleared == Some("")
    modifies limiter
    ensures allowed
  {
    limiter.Clear(cleared);
    allowed := limiter.CanMakeRequest(key, now);
  }
}
