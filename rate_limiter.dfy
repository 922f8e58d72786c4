/** The keyed sliding-window rate limiter that guards calls to the Betfair
    Exchange: for each key (a market id) it remembers the times of the
    requests it admitted and refuses a new one while `maxRequests` of them
    are younger than `window`.

    Timestamps are integers in microseconds, the resolution of the clock the
    limiter reads; the clock itself is a parameter (`now`). */
module RateLimiting {

  /** At most five requests per market ... */
  const RateLimitRequests: int := 5
  /** ... per second (1.0 s, in microseconds). */
  const RateLimitWindow: int := 1_000_000
  /** The default timeout of `wait_and_acquire` (5.0 s, in microseconds). */
  const WaitTimeout: int := 5_000_000

  /** A timestamp `ts` still counts against the limit at time `now`. */
  predicate InWindow(ts: int, now: int, window: int) {
    now - ts < window
  }

  /** The key's list of timestamps, an absent key standing for an empty list. */
  function History(requests: map<string, seq<int>>, key: string): seq<int> {
    if key in requests then requests[key] else []
  }

  /** The timestamps of `ts` that are still in the window, in their order. */
  function Recent(ts: seq<int>, now: int, window: int): (r: seq<int>)
    ensures |r| <= |ts|
    ensures forall t :: t in r ==> InWindow(t, now, window)
    decreases |ts|
  {
    if ts == [] then []
    else
      var kept := Recent(ts[..|ts| - 1], now, window);
      if InWindow(ts[|ts| - 1], now, window) then kept + [ts[|ts| - 1]] else kept
  }

  /** `a` can be obtained from `b` by deleting elements: same relative order. */
  predicate IsSubsequence(a: seq<int>, b: seq<int>)
    decreases |b|
  {
    if a == [] then true
    else if b == [] then false
    else
      IsSubsequence(a, b[..|b| - 1])
      || (a[|a| - 1] == b[|b| - 1] && IsSubsequence(a[..|a| - 1], b[..|b| - 1]))
  }

  /** Pruning keeps the surviving timestamps in their original relative order. */
  lemma {:induction false} RecentIsSubsequence(ts: seq<int>, now: int, window: int)
    ensures IsSubsequence(Recent(ts, now, window), ts)
    decreases |ts|
  {
    if ts != [] {
      var init := ts[..|ts| - 1];
      RecentIsSubsequence(init, now, window);
      var kept := Recent(init, now, window);
      if InWindow(ts[|ts| - 1], now, window) {
        assert (kept + [ts[|ts| - 1]])[..|kept|] == kept;
      }
    }
  }

  /** Pruning drops exactly the expired timestamps: every occurrence of a
      timestamp still in the window survives, and none of an expired one. */
  lemma {:induction false} RecentCount(ts: seq<int>, now: int, window: int, t: int)
    ensures multiset(Recent(ts, now, window))[t]
            == if InWindow(t, now, window) then multiset(ts)[t] else 0
    decreases |ts|
  {
    if ts != [] {
      var init := ts[..|ts| - 1];
      RecentCount(init, now, window, t);
      assert ts == init + [ts[|ts| - 1]];
    }
  }

  /** A list whose timestamps are all in the window is left as it is; in
      particular pruning twice at the same time prunes no more than once. */
  lemma {:induction false} RecentOfInWindow(ts: seq<int>, now: int, window: int)
    requires forall t :: t in ts ==> InWindow(t, now, window)
    ensures Recent(ts, now, window) == ts
    decreases |ts|
  {
    if ts != [] {
      var init := ts[..|ts| - 1];
      assert forall t :: t in init ==> t in ts;
      RecentOfInWindow(init, now, window);
      assert ts[|ts| - 1] in ts;
      assert init + [ts[|ts| - 1]] == ts;
    }
  }

  lemma RecentIdempotent(ts: seq<int>, now: int, window: int)
    ensures Recent(Recent(ts, now, window), now, window) == Recent(ts, now, window)
  {
    RecentOfInWindow(Recent(ts, now, window), now, window);
  }

  /** The pruning comprehension of `acquire`, as a loop over the list. */
  method Prune(ts: seq<int>, now: int, window: int) returns (kept: seq<int>)
    ensures kept == Recent(ts, now, window)
  {
    kept := [];
    var i := 0;
    while i < |ts|
      invariant 0 <= i <= |ts|
      invariant kept == Recent(ts[..i], now, window)
    {
      assert ts[..i + 1][..i] == ts[..i];
      if now - ts[i] < window {
        kept := kept + [ts[i]];
      }
      i := i + 1;
    }
    assert ts[..i] == ts;
  }

  /** The outcome of one `acquire`: whether the slot was granted, and the
      table of timestamps afterwards. */
  datatype Admission = Admission(granted: bool, requests: map<string, seq<int>>)

  /** One `acquire(key)` at time `now` on the table `requests`. */
  function Admit(requests: map<string, seq<int>>, key: string, now: int, maxRequests: int, window: int): (a: Admission)
    ensures a.requests.Keys == requests.Keys + {key}
    ensures forall k :: k in requests && k != key ==> a.requests[k] == requests[k]
  {
    var kept := Recent(History(requests, key), now, window);
    if |kept| >= maxRequests then Admission(false, requests[key := kept])
    else Admission(true, requests[key := kept + [now]])
  }

  /** No key holds more timestamps than the limit. */
  predicate WithinLimit(requests: map<string, seq<int>>, maxRequests: int) {
    forall k :: k in requests ==> |requests[k]| <= maxRequests
  }

  /** Count bound: an admission never takes a key over the limit, whichever
      branch it takes. */
  lemma AdmitKeepsLimit(requests: map<string, seq<int>>, key: string, now: int, maxRequests: int, window: int)
    requires 0 <= maxRequests
    requires WithinLimit(requests, maxRequests)
    ensures WithinLimit(Admit(requests, key, now, maxRequests, window).requests, maxRequests)
  {
  }

  /** Refusal: the slot is refused exactly when the pruned list is full, and
      then `now` is not recorded; the pruned list is stored all the same. */
  lemma AdmitRefusal(requests: map<string, seq<int>>, key: string, now: int, maxRequests: int, window: int)
    ensures Admit(requests, key, now, maxRequests, window).granted
            <==> |Recent(History(requests, key), now, window)| < maxRequests
    ensures !Admit(requests, key, now, maxRequests, window).granted ==>
              Admit(requests, key, now, maxRequests, window).requests[key] == Recent(History(requests, key), now, window)
  {
  }

  /** Acceptance: on success the key's list is the pruned list followed by
      `now`; the key is always present afterwards, and no other entry changes. */
  lemma AdmitAcceptanceAndFrame(requests: map<string, seq<int>>, key: string, now: int, maxRequests: int, window: int)
    ensures var a := Admit(requests, key, now, maxRequests, window);
      && key in a.requests
      && (a.granted ==> a.requests[key] == Recent(History(requests, key), now, window) + [now])
      && a.requests.Keys == requests.Keys + {key}
      && forall k :: k in requests && k != key ==> a.requests[k] == requests[k]
  {
  }

  /** Pruning: after an admission, every timestamp kept for the key from
      before (all of its list but a newly recorded `now`) is inside the
      window, and they keep their original relative order. */
  lemma AdmitPrunes(requests: map<string, seq<int>>, key: string, now: int, maxRequests: int, window: int)
    ensures var entry := Admit(requests, key, now, maxRequests, window).requests[key];
      var earlier := if Admit(requests, key, now, maxRequests, window).granted then entry[..|entry| - 1] else entry;
      && (forall t :: t in earlier ==> InWindow(t, now, window))
      && IsSubsequence(earlier, History(requests, key))
  {
    var kept := Recent(History(requests, key), now, window);
    RecentIsSubsequence(History(requests, key), now, window);
    if |kept| < maxRequests {
      assert (kept + [now])[..|kept|] == kept;
    }
  }

  /** `wait_and_acquire(key, timeout)`, started at time `start`: `clock`
      holds the successive readings of the clock at each poll, the last one
      past the timeout. The loop stops at the first reading that is past
      the timeout, or at the first granted slot. */
  function Wait(requests: map<string, seq<int>>, key: string, start: int, clock: seq<int>, timeout: int,
                maxRequests: int, window: int): (a: Admission)
    requires clock != [] && clock[|clock| - 1] - start >= timeout
    ensures requests.Keys <= a.requests.Keys <= requests.Keys + {key}
    ensures forall k :: k in requests && k != key ==> a.requests[k] == requests[k]
    decreases |clock|
  {
    if clock[0] - start >= timeout then Admission(false, requests)
    else
      var step := Admit(requests, key, clock[0], maxRequests, window);
      if step.granted then step
      else Wait(step.requests, key, start, clock[1..], timeout, maxRequests, window)
  }

  /** Waiting never takes a key over the limit either. */
  lemma {:induction false} WaitKeepsLimit(requests: map<string, seq<int>>, key: string, start: int, clock: seq<int>,
                                         timeout: int, maxRequests: int, window: int)
    requires clock != [] && clock[|clock| - 1] - start >= timeout
    requires 0 <= maxRequests
    requires WithinLimit(requests, maxRequests)
    ensures WithinLimit(Wait(requests, key, start, clock, timeout, maxRequests, window).requests, maxRequests)
    decreases |clock|
  {
    if clock[0] - start < timeout {
      AdmitKeepsLimit(requests, key, clock[0], maxRequests, window);
      var step := Admit(requests, key, clock[0], maxRequests, window);
      if !step.granted {
        WaitKeepsLimit(step.requests, key, start, clock[1..], timeout, maxRequests, window);
      }
    }
  }

  /** Waiting succeeds only through a successful `acquire`: when it reports a
      granted slot, the key's list ends with a clock reading taken before the
      timeout, and that reading was admitted by `Admit`. */
  lemma {:induction false} WaitGrantedByAcquire(requests: map<string, seq<int>>, key: string, start: int,
                                                clock: seq<int>, timeout: int, maxRequests: int, window: int)
    requires clock != [] && clock[|clock| - 1] - start >= timeout
    ensures var a := Wait(requests, key, start, clock, timeout, maxRequests, window);
      a.granted ==>
        exists i, before ::
          0 <= i < |clock| && clock[i] - start < timeout
          && Admit(before, key, clock[i], maxRequests, window) == a
    ensures !Wait(requests, key, start, clock, timeout, maxRequests, window).granted ==>
              key in requests ==> key in Wait(requests, key, start, clock, timeout, maxRequests, window).requests
    decreases |clock|
  {
    if clock[0] - start < timeout {
      var step := Admit(requests, key, clock[0], maxRequests, window);
      if step.granted {
        assert Admit(requests, key, clock[0], maxRequests, window) == step;
      } else {
        var rest := clock[1..];
        WaitGrantedByAcquire(step.requests, key, start, rest, timeout, maxRequests, window);
        var a := Wait(step.requests, key, start, rest, timeout, maxRequests, window);
        if a.granted {
          var i, before :| 0 <= i < |rest| && rest[i] - start < timeout
            && Admit(before, key, rest[i], maxRequests, window) == a;
          assert clock[i + 1] == rest[i];
          assert Admit(before, key, clock[i + 1], maxRequests, window) == a;
        }
      }
    }
  }

  /** The limiter object: the two limits and the table of request times per key. */
  class RateLimiter {
    const maxRequests: int
    const window: int
    var requests: map<string, seq<int>>

    /** Every key's list within the limit. */
    predicate Bounded()
      reads this
    {
      WithinLimit(requests, maxRequests)
    }

    constructor (maxRequests: int, window: int)
      ensures this.maxRequests == maxRequests && this.window == window
      ensures requests == map[]
      ensures Bounded()
    {
      this.maxRequests := maxRequests;
      this.window := window;
      requests := map[];
    }

    /** `acquire(key)` at time `now`: create the key's list if absent, prune
        its expired timestamps, refuse when it is full, record `now` otherwise. */
    method Acquire(key: string, now: int) returns (ok: bool)
      modifies this
      ensures ok == Admit(old(requests), key, now, maxRequests, window).granted
      ensures requests == Admit(old(requests), key, now, maxRequests, window).requests
      ensures 0 <= maxRequests && old(Bounded()) ==> Bounded()
    {
      if key !in requests {
        requests := requests[key := []];
      }
      var kept := Prune(requests[key], now, window);
      requests := requests[key := kept];
      if |requests[key]| >= maxRequests {
        ok := false;
      } else {
        requests := requests[key := requests[key] + [now]];
        ok := true;
      }
      if 0 <= maxRequests && old(Bounded()) {
        AdmitKeepsLimit(old(requests), key, now, maxRequests, window);
      }
    }

    /** `wait_and_acquire(key, timeout)`: poll `acquire` at the successive
        clock readings until a slot is granted or the timeout has passed. */
    method WaitAndAcquire(key: string, start: int, clock: seq<int>, timeout: int) returns (ok: bool)
      requires clock != [] && clock[|clock| - 1] - start >= timeout
      modifies this
      ensures ok == Wait(old(requests), key, start, clock, timeout, maxRequests, window).granted
      ensures requests == Wait(old(requests), key, start, clock, timeout, maxRequests, window).requests
    {
      var i := 0;
      while clock[i] - start < timeout
        invariant 0 <= i < |clock|
        invariant Wait(old(requests), key, start, clock, timeout, maxRequests, window)
                  == Wait(requests, key, start, clock[i..], timeout, maxRequests, window)
        decreases |clock| - i
      {
        assert clock[i..][0] == clock[i] && clock[i..][1..] == clock[i + 1..];
        var got := Acquire(key, clock[i]);
        if got {
          ok := true;
          return;
        }
        i := i + 1;
      }
      ok := false;
    }
  }
}
