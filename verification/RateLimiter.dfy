/** The sliding-window rate limiter with pruning (helpdesktool/hardening.py), against a limiter that keeps the
    whole admission history. Clock values are exact. */
module RateLimiter {

  function Get(m: map<string, seq<real>>, client: string): seq<real> {
    if client in m then m[client] else []
  }

  /** Admissions of the history that still count at `now`. */
  function CountWithin(history: seq<real>, now: real, window: real): nat {
    if history == [] then 0
    else
      CountWithin(history[..|history| - 1], now, window)
      + (if now - history[|history| - 1] > window then 0 else 1)
  }

  /** The naive limiter: admit while fewer than the maximum count. */
  predicate Admits(history: seq<real>, now: real, window: real, max: int) {
    CountWithin(history, now, window) < max
  }

  /** The admissions, by position, that lie at most one window back. */
  function Recent(history: seq<real>, now: real, window: real): set<nat> {
    set i | 0 <= i < |history| && now - history[i] <= window
  }

  /** A request is admitted exactly when fewer than the maximum were admitted within the window before it. */
  lemma {:induction false} AdmitsExactly(history: seq<real>, now: real, window: real, max: int)
    ensures CountWithin(history, now, window) == |Recent(history, now, window)|
    ensures Admits(history, now, window, max) <==> |Recent(history, now, window)| < max
  {
    if history != [] {
      var n := |history| - 1;
      AdmitsExactly(history[..n], now, window, max);
      var before := Recent(history[..n], now, window);
      assert n !in before;
      assert Recent(history, now, window) == before + (if now - history[n] <= window then {n} else {});
    }
  }

  ghost predicate Sorted(s: seq<real>) {
    forall i, j :: 0 <= i < j < |s| ==> s[i] <= s[j]
  }

  /** Times in order, each admitted by the naive limiter given those before it. */
  ghost predicate NaivelyAdmitted(history: seq<real>, window: real, max: int) {
    && Sorted(history)
    && forall i :: 0 <= i < |history| ==> Admits(history[..i], history[i], window, max)
  }

  function CountBetween(history: seq<real>, from: real, to: real): nat {
    if history == [] then 0
    else
      CountBetween(history[..|history| - 1], from, to)
      + (if from <= history[|history| - 1] <= to then 1 else 0)
  }

  lemma {:induction false} BetweenIsWithin(history: seq<real>, from: real, to: real, now: real, window: real)
    requires to - from <= window && now <= to
    ensures CountBetween(history, from, to) <= CountWithin(history, now, window)
  {
    if history != [] {
      BetweenIsWithin(history[..|history| - 1], from, to, now, window);
    }
  }

  /** In every closed interval no longer than the window, at most the maximum number is admitted. */
  lemma {:induction false} NoIntervalExceedsMaximum(history: seq<real>, from: real, to: real, window: real, max: int)
    requires NaivelyAdmitted(history, window, max) && to - from <= window
    ensures CountBetween(history, from, to) <= if max < 0 then 0 else max
  {
    if history != [] {
      var n := |history| - 1;
      var last := history[n];
      assert forall i :: 0 <= i < n ==> history[..n][..i] == history[..i];
      NoIntervalExceedsMaximum(history[..n], from, to, window, max);
      if from <= last <= to {
        BetweenIsWithin(history[..n], from, to, last, window);
      }
    }
  }

  lemma AdmissionKeepsHistory(history: seq<real>, now: real, window: real, max: int)
    requires NaivelyAdmitted(history, window, max) && Admits(history, now, window, max)
    requires forall i :: 0 <= i < |history| ==> history[i] <= now
    ensures NaivelyAdmitted(history + [now], window, max)
  {
    var longer := history + [now];
    assert forall i :: 0 <= i <= |history| ==> longer[..i] == history[..i];
    assert history[..|history|] == history;
  }

  lemma {:induction false} CountSplits(dropped: seq<real>, kept: seq<real>, now: real, window: real)
    requires forall i :: 0 <= i < |dropped| ==> now - dropped[i] > window
    requires forall i :: 0 <= i < |kept| ==> now - kept[i] <= window
    ensures CountWithin(dropped + kept, now, window) == |kept|
    decreases |dropped| + |kept|
  {
    var all := dropped + kept;
    if kept != [] {
      var n := |kept| - 1;
      CountSplits(dropped, kept[..n], now, window);
      assert all[..|all| - 1] == dropped + kept[..n];
    } else if dropped != [] {
      var n := |dropped| - 1;
      CountSplits(dropped[..n], [], now, window);
      assert all[..|all| - 1] == dropped[..n] + [];
    }
  }

  /** What the deque may forget: a prefix of the history that no longer counts, now or later. */
  ghost predicate Tail(full: seq<real>, kept: seq<real>, now: real, window: real) {
    && |kept| <= |full|
    && kept == full[|full| - |kept|..]
    && forall i :: 0 <= i < |full| - |kept| ==> now - full[i] > window
  }

  /** One client's deque agrees with its full history. */
  ghost predicate Agrees(full: seq<real>, kept: seq<real>, clock: real, window: real, max: int) {
    && NaivelyAdmitted(full, window, max)
    && (forall i :: 0 <= i < |full| ==> full[i] <= clock)
    && Tail(full, kept, clock, window)
  }

  lemma AgreesLater(full: seq<real>, kept: seq<real>, clock: real, now: real, window: real, max: int)
    requires Agrees(full, kept, clock, window, max) && clock <= now
    ensures Agrees(full, kept, now, window, max)
  {
  }

  lemma AgreesAfterAdmission(full: seq<real>, kept: seq<real>, now: real, window: real, max: int)
    requires Agrees(full, kept, now, window, max) && Admits(full, now, window, max)
    ensures Agrees(full + [now], kept + [now], now, window, max)
  {
    AdmissionKeepsHistory(full, now, window, max);
    assert (full + [now])[|full| - |kept|..] == kept + [now];
  }

  /** A client idle for more than two windows, whatever the sign of the window, has nothing that counts. */
  lemma Forgettable(full: seq<real>, kept: seq<real>, now: real, window: real, max: int)
    requires Agrees(full, kept, now, window, max)
    requires kept == [] || now - kept[|kept| - 1] > window * 2.0
    ensures Agrees(full, [], now, window, max)
  {
    forall i | 0 <= i < |full| ensures now - full[i] > window {
      if i >= |full| - |kept| {
        assert full[i] <= full[|full| - 1] == kept[|kept| - 1];
      }
    }
  }

  /** Once its head has not expired, the deque holds exactly what counts. */
  lemma TailCounts(full: seq<real>, kept: seq<real>, now: real, window: real)
    requires Tail(full, kept, now, window) && Sorted(full) && (kept == [] || now - kept[0] <= window)
    ensures CountWithin(full, now, window) == |kept|
  {
    CountSplits(full[..|full| - |kept|], kept, now, window);
    assert full == full[..|full| - |kept|] + kept;
  }

  class RateLimiter {
    const maxRequests: int
    const windowSeconds: real
    const enabled: bool
    var hits: map<string, seq<real>>
    /** Everything ever admitted, and the last clock reading. */
    ghost var history: map<string, seq<real>>
    ghost var clock: real

    ghost predicate Tracks(client: string)
      reads this
    {
      Agrees(Get(history, client), Get(hits, client), clock, windowSeconds, maxRequests)
    }

    ghost predicate Valid()
      reads this
    {
      forall client: string :: Tracks(client)
    }

    constructor (maxRequests: int, windowSeconds: real, enabled: bool, now: real)
      ensures Valid() && history == map[] && clock == now
      ensures this.maxRequests == maxRequests && this.windowSeconds == windowSeconds && this.enabled == enabled
    {
      this.maxRequests, this.windowSeconds, this.enabled := maxRequests, windowSeconds, enabled;
      hits, history, clock := map[], map[], now;
    }

    /** Drops the expired head of one deque; what is left is exactly what counts. */
    method Expire(client: string, now: real) returns (window: seq<real>)
      requires Tracks(client) && clock <= now
      ensures Agrees(Get(history, client), window, now, windowSeconds, maxRequests)
      ensures |window| == CountWithin(Get(history, client), now, windowSeconds)
    {
      ghost var full := Get(history, client);
      window := Get(hits, client);
      while window != [] && now - window[0] > windowSeconds
        invariant Tail(full, window, now, windowSeconds)
        decreases |window|
      {
        window := window[1..];
      }
      TailCounts(full, window, now, windowSeconds);
    }

    /** One request. The decision is the naive limiter's, whatever the deques and prunings so far. */
    method Dispatch(client: string, exempt: bool, now: real) returns (admitted: bool)
      requires Valid() && clock <= now
      modifies this
      ensures Valid()
      ensures !enabled || exempt ==> admitted && history == old(history) && hits == old(hits)
      ensures enabled && !exempt ==>
        && clock == now
        && (admitted <==> Admits(Get(old(history), client), now, windowSeconds, maxRequests))
        && history == if admitted then old(history)[client := Get(old(history), client) + [now]] else old(history)
    {
      if !enabled || exempt {
        return true;
      }
      assert Tracks(client);
      var window := Expire(client, now);
      admitted := |window| < maxRequests;
      ghost var full := Get(history, client);
      if admitted {
        AgreesAfterAdmission(full, window, now, windowSeconds, maxRequests);
        Store(client, window + [now], now, full + [now], history[client := full + [now]]);
        if |hits| > 10_000 {
          Prune(now);
        }
      } else {
        Store(client, window, now, full, history);
      }
    }

    method Store(client: string, window: seq<real>, now: real, ghost full: seq<real>,
                 ghost next: map<string, seq<real>>)
      requires Valid() && clock <= now && Agrees(full, window, now, windowSeconds, maxRequests)
      requires next == history[client := full] || (next == history && full == Get(history, client))
      modifies this
      ensures Valid() && clock == now && history == next && hits == old(hits)[client := window]
    {
      ghost var before, deques, earlier := history, hits, clock;
      forall other: string ensures Agrees(Get(before, other), Get(deques, other), now, windowSeconds, maxRequests) {
        assert Tracks(other);
        AgreesLater(Get(before, other), Get(deques, other), earlier, now, windowSeconds, maxRequests);
      }
      hits := hits[client := window];
      history, clock := next, now;
      forall other: string ensures Tracks(other) {
        if other != client {
          assert Get(history, other) == Get(before, other) && Get(hits, other) == Get(deques, other);
        }
      }
    }

    /** Forgets clients idle for more than two windows: nothing they did still counts. */
    method Prune(now: real)
      requires Valid() && clock == now
      modifies this`hits
      ensures Valid()
      ensures forall client :: (client in hits <==>
        && client in old(hits) && old(hits)[client] != []
        && now - old(hits)[client][|old(hits)[client]| - 1] <= windowSeconds * 2.0)
      ensures forall client <- hits :: hits[client] == old(hits)[client]
    {
      var stale := set client <- hits
        | hits[client] == [] || now - hits[client][|hits[client]| - 1] > windowSeconds * 2.0;
      ghost var deques := hits;
      forall client: string ensures Agrees(Get(history, client), Get(deques, client), now, windowSeconds, maxRequests) {
        assert Tracks(client);
      }
      hits := hits - stale;
      forall client: string ensures Tracks(client) {
        if client in stale {
          Forgettable(Get(history, client), deques[client], now, windowSeconds, maxRequests);
        } else {
          assert Get(hits, client) == Get(deques, client);
        }
      }
    }
  }
}
