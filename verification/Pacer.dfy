/**
 The sliding-window request limiter the scan's worker threads share.

 Every access to the deque happens under the lock, so an execution of any number of threads is one
 sequence of locked sections, each with its own clock reading; the clock never runs backwards.
 `Grants(readings, limit)` is what the execution with those readings grants, in order.
 */
module Pacer {

  const WINDOW_SECONDS: real := 60.0

  /** The deque once its expired head is popped. */
  function Unexpired(stamps: seq<real>, now: real): seq<real> {
    if stamps != [] && now - stamps[0] >= WINDOW_SECONDS then Unexpired(stamps[1..], now) else stamps
  }

  /** One locked section's effect on the deque: it appends its reading unless the window is full. */
  function Section(stamps: seq<real>, limit: nat, now: real): seq<real> {
    var live := Unexpired(stamps, now);
    if |live| < limit then live + [now] else live
  }

  /** The deque after the sections with these readings, whichever threads ran them. */
  function Stamps(readings: seq<real>, limit: nat): seq<real> {
    if readings == [] then []
    else Section(Stamps(readings[..|readings| - 1], limit), limit, readings[|readings| - 1])
  }

  /** Whether a section at `now` is granted after the sections with these readings. */
  predicate Granted(readings: seq<real>, limit: nat, now: real) {
    |Unexpired(Stamps(readings, limit), now)| < limit
  }

  /** Section `k` of `clock`, after the sections `was`, is refused. */
  predicate RefusedAt(was: seq<real>, clock: seq<real>, k: int, limit: nat)
    requires 0 <= k < |clock|
  {
    !Granted(was + clock[..k], limit, clock[k])
  }

  /** Every grant of the execution, in order. */
  ghost function Grants(readings: seq<real>, limit: nat): seq<real> {
    if readings == [] then []
    else
      var before, now := readings[..|readings| - 1], readings[|readings| - 1];
      Grants(before, limit) + if Granted(before, limit, now) then [now] else []
  }

  ghost predicate Ordered(s: seq<real>) {
    forall i, j :: 0 <= i < j < |s| ==> s[i] <= s[j]
  }

  /** Grants `limit` apart in the grant order are at least a window apart. */
  ghost predicate Paced(grants: seq<real>, limit: nat) {
    forall i :: 0 <= i < |grants| - limit ==> grants[i + limit] - grants[i] >= 60.0
  }

  /** How many of `grants` lie in the half-open window `(now - 60, now]`. */
  ghost function InWindow(grants: seq<real>, now: real): nat {
    if grants == [] then 0
    else
      var g := grants[|grants| - 1];
      InWindow(grants[..|grants| - 1], now) + if now - 60.0 < g <= now then 1 else 0
  }

  /** Popping the head leaves a suffix, drops only what has expired and keeps only what has not. */
  lemma {:induction false} UnexpiredIsSuffix(stamps: seq<real>, now: real)
    requires Ordered(stamps)
    ensures var live := Unexpired(stamps, now);
            && |live| <= |stamps| && live == stamps[|stamps| - |live|..]
            && (forall i :: 0 <= i < |stamps| - |live| ==> now - stamps[i] >= WINDOW_SECONDS)
            && (forall i :: 0 <= i < |live| ==> now - live[i] < WINDOW_SECONDS)
  {
    if stamps != [] && now - stamps[0] >= WINDOW_SECONDS {
      UnexpiredIsSuffix(stamps[1..], now);
    }
  }

  /** The deque is the suffix of the grants that has not left the window ending at the last reading. */
  ghost predicate Tracks(stamps: seq<real>, grants: seq<real>, last: real) {
    && |stamps| <= |grants|
    && stamps == grants[|grants| - |stamps|..]
    && Ordered(grants)
    && (forall i :: 0 <= i < |grants| ==> grants[i] <= last)
    && (forall i :: 0 <= i < |grants| - |stamps| ==> last - grants[i] >= WINDOW_SECONDS)
  }

  /** Reading a later clock and expiring keeps the deque in step with the grants. */
  lemma ExpireTracks(stamps: seq<real>, grants: seq<real>, last: real, now: real)
    requires Tracks(stamps, grants, last) && last <= now
    ensures Tracks(Unexpired(stamps, now), grants, now)
    ensures forall i :: 0 <= i < |Unexpired(stamps, now)| ==> now - Unexpired(stamps, now)[i] < WINDOW_SECONDS
  {
    UnexpiredIsSuffix(stamps, now);
    var live := Unexpired(stamps, now);
    var k := |grants| - |stamps|;
    forall i | 0 <= i < |grants| - |live| ensures now - grants[i] >= WINDOW_SECONDS {
      if i >= k {
        assert grants[i] == stamps[i - k];
      }
    }
  }

  lemma SectionTracks(live: seq<real>, grants: seq<real>, granted: bool, now: real)
    requires Tracks(live, grants, now)
    ensures if granted then Tracks(live + [now], grants + [now], now) else Tracks(live, grants + [], now)
  {
    assert grants + [] == grants;
  }

  lemma {:induction false} StampsTrackGrants(readings: seq<real>, limit: nat, now: real)
    requires Ordered(readings) && forall i :: 0 <= i < |readings| ==> readings[i] <= now
    ensures Tracks(Unexpired(Stamps(readings, limit), now), Grants(readings, limit), now)
    ensures forall s :: s in Unexpired(Stamps(readings, limit), now) ==> now - s < WINDOW_SECONDS
    ensures |Stamps(readings, limit)| <= limit
    decreases |readings|
  {
    if readings == [] {
    } else {
      var before, r := readings[..|readings| - 1], readings[|readings| - 1];
      StampsTrackGrants(before, limit, r);
      SectionTracks(Unexpired(Stamps(before, limit), r), Grants(before, limit), Granted(before, limit, r), r);
      UnexpiredLength(Stamps(before, limit), r);
      ExpireTracks(Stamps(readings, limit), Grants(readings, limit), r, now);
    }
  }

  lemma UnexpiredLength(stamps: seq<real>, now: real)
    ensures |Unexpired(stamps, now)| <= |stamps|
  {
  }

  /**
   The limiter's promise over every execution: grants `limit` apart are at least 60 s apart, so no half-open
   60 s window, wherever it ends, holds more than `limit` grants.
   */
  lemma {:induction false} GrantsArePaced(readings: seq<real>, limit: nat)
    requires Ordered(readings) && limit >= 1
    ensures Paced(Grants(readings, limit), limit)
    ensures forall end: real :: InWindow(Grants(readings, limit), end) <= limit
  {
    PacedGrants(readings, limit);
    if readings != [] {
      StampsTrackGrants(readings, limit, readings[|readings| - 1]);
    }
    forall end: real ensures InWindow(Grants(readings, limit), end) <= limit {
      PacedWindows(Grants(readings, limit), limit, end);
    }
  }

  lemma {:induction false} PacedGrants(readings: seq<real>, limit: nat)
    requires Ordered(readings) && limit >= 1
    ensures Paced(Grants(readings, limit), limit)
  {
    if readings != [] {
      var before, now := readings[..|readings| - 1], readings[|readings| - 1];
      PacedGrants(before, limit);
      StampsTrackGrants(before, limit, now);
      if Granted(before, limit, now) {
        PacedNext(Grants(before, limit), Unexpired(Stamps(before, limit), now), limit, now);
      } else {
        assert Grants(readings, limit) == Grants(before, limit);
      }
    }
  }

  lemma PacedNext(grants: seq<real>, live: seq<real>, limit: nat, now: real)
    requires Paced(grants, limit) && Tracks(live, grants, now) && |live| < limit
    ensures Paced(grants + [now], limit)
  {
    var all := grants + [now];
    forall i | 0 <= i < |all| - limit ensures all[i + limit] - all[i] >= WINDOW_SECONDS {
      assert all[i] == grants[i];
    }
  }

  /** In an ordered, paced sequence no window holds more than `limit`. */
  lemma {:induction false} PacedWindows(grants: seq<real>, limit: nat, end: real)
    requires Ordered(grants) && Paced(grants, limit)
    ensures InWindow(grants, end) <= limit
  {
    var n := |grants|;
    if n > 0 {
      var init, g := grants[..n - 1], grants[n - 1];
      PacedWindows(init, limit, end);
      if end - WINDOW_SECONDS < g <= end {
        if n > limit {
          assert grants[n - 1 - limit + limit] - grants[n - 1 - limit] >= WINDOW_SECONDS;
          WindowCount(init, end, n - limit);
        } else {
          WindowCount(init, end, 0);
        }
      }
    }
  }

  /** At most the last `|grants| - k` are in the window when the first `k` have left it. */
  lemma {:induction false} WindowCount(grants: seq<real>, end: real, k: nat)
    requires k <= |grants|
    requires forall i :: 0 <= i < k ==> end - grants[i] >= WINDOW_SECONDS
    ensures InWindow(grants, end) <= |grants| - k
    ensures (forall i :: k <= i < |grants| ==> end - WINDOW_SECONDS < grants[i] <= end) ==>
                InWindow(grants, end) == |grants| - k
  {
    if grants != [] {
      WindowCount(grants[..|grants| - 1], end, if k < |grants| then k else k - 1);
    }
  }

  /** The seconds a refused caller sleeps: until the oldest stamp expires. */
  function WaitFrom(now: real, oldest: real): real {
    WINDOW_SECONDS - (now - oldest)
  }

  function Later(now: real, wait: real): real {
    now + wait
  }

  /**
   A caller is refused exactly when `limit` grants lie in the last 60 s; the wait it is then told is in
   `(0, 60]`, and once it has slept that long the window it waited for has room again.
   */
  lemma WaitsOnlyWhenFull(readings: seq<real>, limit: nat, now: real)
    requires Ordered(readings) && limit >= 1 && forall i :: 0 <= i < |readings| ==> readings[i] <= now
    ensures Granted(readings, limit, now) <==> InWindow(Grants(readings, limit), now) < limit
    ensures !Granted(readings, limit, now) ==>
              var live := Unexpired(Stamps(readings, limit), now);
              && InWindow(Grants(readings, limit), now) == limit == |live|
              && var wait := WaitFrom(now, live[0]);
                 0.0 < wait <= 60.0 && InWindow(Grants(readings, limit), Later(now, wait)) < limit
  {
    StampsTrackGrants(readings, limit, now);
    var live, grants := Unexpired(Stamps(readings, limit), now), Grants(readings, limit);
    UnexpiredLength(Stamps(readings, limit), now);
    var k := |grants| - |live|;
    forall i | k <= i < |grants| ensures now - WINDOW_SECONDS < grants[i] <= now {
      assert grants[i] == live[i - k] && live[i - k] in live;
    }
    WindowCount(grants, now, k);
    if !Granted(readings, limit, now) {
      assert live[0] == grants[k] && live[0] in live;
      WindowCount(grants, Later(now, WaitFrom(now, live[0])), k + 1);
    }
  }

  /** The wait is no longer than it must be: after any shorter one the window is still full. */
  lemma WaitsNoLonger(readings: seq<real>, limit: nat, now: real)
    requires Ordered(readings) && limit >= 1 && forall i :: 0 <= i < |readings| ==> readings[i] <= now
    ensures !Granted(readings, limit, now) ==>
              var live := Unexpired(Stamps(readings, limit), now);
              live != [] && forall w :: 0.0 <= w < WaitFrom(now, live[0]) ==>
                InWindow(Grants(readings, limit), Later(now, w)) == limit
  {
    StampsTrackGrants(readings, limit, now);
    UnexpiredLength(Stamps(readings, limit), now);
    var live, grants := Unexpired(Stamps(readings, limit), now), Grants(readings, limit);
    if !Granted(readings, limit, now) {
      forall w | 0.0 <= w < WaitFrom(now, live[0]) ensures InWindow(grants, Later(now, w)) == limit {
        StillFull(grants, live, limit, now, w);
      }
    }
  }

  lemma StillFull(grants: seq<real>, live: seq<real>, limit: nat, now: real, w: real)
    requires Tracks(live, grants, now) && |live| == limit >= 1 && 0.0 <= w < WaitFrom(now, live[0])
    ensures InWindow(grants, Later(now, w)) == limit
  {
    var k := |grants| - |live|;
    assert live[0] == grants[k];
    assert forall i :: k <= i < |grants| ==> grants[k] <= grants[i] <= now;
    WindowCount(grants, Later(now, w), k);
  }

  class RequestPacer {
    const maxPerMinute: nat
    var stamps: seq<real>
    // The clock readings of every locked section so far.
    ghost var readings: seq<real>

    ghost predicate Valid()
      reads this
    {
      maxPerMinute >= 1 && Ordered(readings) && stamps == Stamps(readings, maxPerMinute)
    }

    ghost predicate Precedes(now: real)
      reads this
    {
      forall i :: 0 <= i < |readings| ==> readings[i] <= now
    }

    constructor (limit: nat)
      requires limit >= 1
      ensures Valid() && readings == [] && maxPerMinute == limit
    {
      maxPerMinute := limit;
      stamps, readings := [], [];
    }

    /** The expired head of the deque is popped. */
    method Expire(now: real)
      modifies this`stamps
      ensures stamps == Unexpired(old(stamps), now)
    {
      while stamps != [] && now - stamps[0] >= WINDOW_SECONDS
        invariant Unexpired(stamps, now) == Unexpired(old(stamps), now)
        decreases |stamps|
      {
        stamps := stamps[1..];
      }
    }

    /** One locked section of `acquire`: a grant, or the seconds to sleep. */
    method Attempt(now: real) returns (granted: bool, wait: real)
      requires Valid() && Precedes(now)
      modifies this`stamps, this`readings
      ensures Valid() && readings == old(readings) + [now]
      ensures granted <==> InWindow(Grants(old(readings), maxPerMinute), now) < maxPerMinute
      ensures Grants(readings, maxPerMinute) == Grants(old(readings), maxPerMinute) + if granted then [now] else []
      ensures !granted ==> 0.0 < wait <= 60.0
      ensures !granted ==> InWindow(Grants(readings, maxPerMinute), Later(now, wait)) < maxPerMinute
      ensures !granted ==> forall w :: 0.0 <= w < wait ==>
                InWindow(Grants(readings, maxPerMinute), Later(now, w)) == maxPerMinute
    {
      WaitsOnlyWhenFull(readings, maxPerMinute, now);
      WaitsNoLonger(readings, maxPerMinute, now);
      ghost var was := readings;
      Expire(now);
      readings := readings + [now];
      assert readings[..|readings| - 1] == was;
      if |stamps| < maxPerMinute {
        stamps := stamps + [now];
        return true, 0.0;
      }
      assert Grants(readings, maxPerMinute) == Grants(was, maxPerMinute);
      return false, WaitFrom(now, stamps[0]);
    }

    method Try(now: real) returns (granted: bool)
      requires Valid() && Precedes(now)
      modifies this`stamps, this`readings
      ensures Valid() && readings == old(readings) + [now]
      ensures granted <==> Granted(old(readings), maxPerMinute, now)
    {
      WaitsOnlyWhenFull(readings, maxPerMinute, now);
      var wait;
      granted, wait := Attempt(now);
    }

    /**
     `acquire` as one thread runs it among others: the execution's next locked sections read `clock`, and
     section `k` is this thread's when `mine[k]`. It returns at its first grant, and every earlier section of
     its own found the window full.
     */
    method Acquire(clock: seq<real>, mine: seq<bool>) returns (spent: nat, granted: bool)
      requires Valid() && |mine| == |clock| && Ordered(readings + clock)
      modifies this`stamps, this`readings
      ensures Valid() && spent <= |clock| && readings == old(readings) + clock[..spent]
      ensures !granted ==> spent == |clock|
      ensures granted ==> spent > 0 && mine[spent - 1]
      ensures granted ==> Granted(old(readings) + clock[..spent - 1], maxPerMinute, clock[spent - 1])
      ensures forall k :: 0 <= k < (if granted then spent - 1 else spent) && mine[k] ==>
                RefusedAt(old(readings), clock, k, maxPerMinute)
    {
      ghost var was := readings;
      for i := 0 to |clock|
        invariant Valid() && readings == was + clock[..i]
        invariant forall k :: 0 <= k < i && mine[k] ==> RefusedAt(was, clock, k, maxPerMinute)
      {
        NextIsLatest(was, clock, i);
        NextPrefix(was, clock, i);
        var ok := Try(clock[i]);
        assert ok || RefusedAt(was, clock, i, maxPerMinute);
        if ok && mine[i] {
          return i + 1, true;
        }
      }
      return |clock|, false;
    }
  }

  lemma NextPrefix(was: seq<real>, clock: seq<real>, i: nat)
    requires i < |clock|
    ensures was + clock[..i] + [clock[i]] == was + clock[..i + 1]
  {
  }

  lemma NextIsLatest(was: seq<real>, clock: seq<real>, i: nat)
    requires i < |clock| && Ordered(was + clock)
    ensures forall k :: 0 <= k < |was + clock[..i]| ==> (was + clock[..i])[k] <= clock[i]
  {
    var all := was + clock;
    forall k | 0 <= k < |was + clock[..i]| ensures (was + clock[..i])[k] <= clock[i] {
      assert (was + clock[..i])[k] == all[k] && all[|was| + i] == clock[i];
    }
  }
}
