/**
 The union tier-1 calendar's lockout check (`UnionTier1Calendar.check`): the verified static schedule first, then
 live tier-1 events no static event matches. Times are seconds.
 */
module Calendar {
  import opened Common

  /** A release; `kind` is its tier-1 kind, absent for any other event. */
  datatype Event = Event(title: string, at: int, kind: Option<string>)

  datatype Source = Static | StaticAndLive | Live

  datatype Lockout = Lockout(event: Event, source: Source)

  const MATCH_TOLERANCE := 300

  /** Both sources as one check reads them: whether each is usable, and its events. */
  datatype Reading = Reading(staticOk: bool, staticEvents: seq<Event>, liveOk: bool, liveEvents: seq<Event>)

  /** `in_lockout_window`, inclusive at both ends. */
  predicate InWindow(now: int, at: int, pre: int, post: int) {
    at - 60 * pre <= now <= at + 60 * post
  }

  predicate SameRelease(s: Event, lv: Event) {
    s.kind == lv.kind && -MATCH_TOLERANCE <= s.at - lv.at <= MATCH_TOLERANCE
  }

  function StaticEvents(r: Reading): seq<Event> {
    if r.staticOk then r.staticEvents else []
  }

  function InsertByTime(s: seq<Event>, e: Event): seq<Event> {
    if s == [] || e.at < s[0].at then [e] + s else [s[0]] + InsertByTime(s[1..], e)
  }

  /** The live tier-1 events in time order, ties in feed order. */
  function Tier1InOrder(events: seq<Event>): seq<Event> {
    if events == [] then []
    else
      var init, e := Tier1InOrder(events[..|events| - 1]), events[|events| - 1];
      if e.kind.Some? then InsertByTime(init, e) else init
  }

  function LiveTier1(r: Reading): seq<Event> {
    if r.liveOk then Tier1InOrder(r.liveEvents) else []
  }

  predicate MatchedBy(events: seq<Event>, lv: Event) {
    exists i :: 0 <= i < |events| && SameRelease(events[i], lv)
  }

  predicate HasMatch(s: Event, live: seq<Event>) {
    exists i :: 0 <= i < |live| && SameRelease(s, live[i])
  }

  /** The static candidates, each marked with whether the feed lists it too. */
  function StaticCandidates(events: seq<Event>, live: seq<Event>): seq<Lockout> {
    seq(|events|,
        i requires 0 <= i < |events| => Lockout(events[i], if HasMatch(events[i], live) then StaticAndLive else Static))
  }

  /** The live events no static event matches. */
  function LiveOnly(live: seq<Event>, events: seq<Event>): seq<Lockout> {
    if live == [] then []
    else
      var init, lv := LiveOnly(live[..|live| - 1], events), live[|live| - 1];
      if MatchedBy(events, lv) then init else init + [Lockout(lv, Live)]
  }

  function Candidates(r: Reading): seq<Lockout> {
    StaticCandidates(StaticEvents(r), LiveTier1(r)) + LiveOnly(LiveTier1(r), StaticEvents(r))
  }

  function FirstInWindow(candidates: seq<Lockout>, now: int, pre: int, post: int): Option<Lockout> {
    if candidates == [] then None
    else if InWindow(now, candidates[0].event.at, pre, post) then Some(candidates[0])
    else FirstInWindow(candidates[1..], now, pre, post)
  }

  /** The lockout `check` reports at `now`. */
  function Check(r: Reading, now: int, pre: int, post: int): Option<Lockout> {
    FirstInWindow(Candidates(r), now, pre, post)
  }

  /** Position `i` is the first candidate whose window holds `now`. */
  ghost predicate FirstAt(candidates: seq<Lockout>, i: int, now: int, pre: int, post: int) {
    && 0 <= i < |candidates|
    && InWindow(now, candidates[i].event.at, pre, post)
    && forall j :: 0 <= j < i ==> !InWindow(now, candidates[j].event.at, pre, post)
  }

  lemma {:induction false} FirstIsFirst(candidates: seq<Lockout>, now: int, pre: int, post: int)
    ensures var first := FirstInWindow(candidates, now, pre, post);
            && (first.None? ==> forall i :: 0 <= i < |candidates| ==> !InWindow(now, candidates[i].event.at, pre, post))
            && (first.Some? ==> exists i :: FirstAt(candidates, i, now, pre, post) && candidates[i] == first.value)
  {
    if candidates != [] && !InWindow(now, candidates[0].event.at, pre, post) {
      var rest := candidates[1..];
      FirstIsFirst(rest, now, pre, post);
      if FirstInWindow(rest, now, pre, post).Some? {
        var i :| FirstAt(rest, i, now, pre, post) && rest[i] == FirstInWindow(rest, now, pre, post).value;
        assert candidates[i + 1] == rest[i];
        forall j | 0 <= j < i + 1 ensures !InWindow(now, candidates[j].event.at, pre, post) {
          if j > 0 {
            assert candidates[j] == rest[j - 1];
          }
        }
        assert FirstAt(candidates, i + 1, now, pre, post);
      }
    }
  }

  lemma {:induction false} InsertMembers(s: seq<Event>, e: Event, x: Event)
    ensures x in InsertByTime(s, e) <==> x in s || x == e
  {
    if s == [] || e.at < s[0].at {
    } else {
      InsertMembers(s[1..], e, x);
      assert s == [s[0]] + s[1..];
    }
  }

  lemma {:induction false} Tier1Members(events: seq<Event>, x: Event)
    ensures x in Tier1InOrder(events) <==> x in events && x.kind.Some?
  {
    if events != [] {
      Tier1Members(events[..|events| - 1], x);
      InsertMembers(Tier1InOrder(events[..|events| - 1]), events[|events| - 1], x);
      assert events == events[..|events| - 1] + [events[|events| - 1]];
    }
  }

  lemma {:induction false} LiveOnlyMembers(live: seq<Event>, events: seq<Event>, l: Lockout)
    ensures l in LiveOnly(live, events) <==> l.event in live && l.source == Live && !MatchedBy(events, l.event)
  {
    if live != [] {
      LiveOnlyMembers(live[..|live| - 1], events, l);
      assert live == live[..|live| - 1] + [live[|live| - 1]];
    }
  }

  /** `now` is from `pre` minutes before the event to `post` minutes after it. */
  predicate Around(now: int, e: Event, pre: int, post: int) {
    e.at - pre * 60 <= now && now - e.at <= post * 60
  }

  /** The same kind of release within five minutes. */
  predicate Agrees(s: Event, lv: Event) {
    s.kind == lv.kind && s.at <= lv.at + 300 && lv.at <= s.at + 300
  }

  /** A verified static event whose window holds `now`. */
  ghost predicate StaticLocks(r: Reading, now: int, pre: int, post: int) {
    r.staticOk && exists s :: s in r.staticEvents && Around(now, s, pre, post)
  }

  ghost predicate Locks(r: Reading, lv: Event, now: int, pre: int, post: int) {
    && lv.kind.Some? && Around(now, lv, pre, post)
    && !(r.staticOk && exists s :: s in r.staticEvents && Agrees(s, lv))
  }

  /** A live tier-1 event, matched by no verified static one, whose window holds `now`. */
  ghost predicate LiveLocks(r: Reading, now: int, pre: int, post: int) {
    r.liveOk && exists lv :: lv in r.liveEvents && Locks(r, lv, now, pre, post)
  }

  lemma MatchedIff(r: Reading, lv: Event)
    ensures MatchedBy(StaticEvents(r), lv) <==> r.staticOk && exists s :: s in r.staticEvents && Agrees(s, lv)
  {
    if i :| 0 <= i < |StaticEvents(r)| && SameRelease(StaticEvents(r)[i], lv) {
      assert StaticEvents(r)[i] in r.staticEvents && Agrees(StaticEvents(r)[i], lv);
    }
    if s :| r.staticOk && s in r.staticEvents && Agrees(s, lv) {
      var i :| 0 <= i < |r.staticEvents| && r.staticEvents[i] == s;
      assert SameRelease(StaticEvents(r)[i], lv);
    }
  }

  lemma CheckWitness(r: Reading, now: int, pre: int, post: int)
    ensures var l := Check(r, now, pre, post);
            && (StaticLocks(r, now, pre, post) ==> l.Some? && l.value.source != Live)
            && (l.Some? && l.value.source != Live ==> StaticLocks(r, now, pre, post) && l.value.event in r.staticEvents)
            && (l.Some? ==> InWindow(now, l.value.event.at, pre, post))
  {
    var statics, lives := StaticCandidates(StaticEvents(r), LiveTier1(r)), LiveOnly(LiveTier1(r), StaticEvents(r));
    var all := Candidates(r);
    FirstIsFirst(all, now, pre, post);
    var l := Check(r, now, pre, post);
    if s :| r.staticOk && s in r.staticEvents && Around(now, s, pre, post) {
      var k :| 0 <= k < |r.staticEvents| && r.staticEvents[k] == s;
      assert all[k] == statics[k] && all[k].event == s;
      assert forall i :: 0 <= i <= k ==> all[i].source != Live;
    }
    if l.Some? {
      var i :| 0 <= i < |all| && all[i] == l.value && InWindow(now, all[i].event.at, pre, post);
      if i < |statics| {
        assert statics[i].event in r.staticEvents && Around(now, statics[i].event, pre, post);
      } else {
        assert lives[i - |statics|] == l.value;
        LiveOnlyMembers(LiveTier1(r), StaticEvents(r), l.value);
      }
    }
  }

  lemma LiveWitness(r: Reading, now: int, pre: int, post: int)
    ensures LiveLocks(r, now, pre, post) ==> Check(r, now, pre, post).Some?
    ensures var l := Check(r, now, pre, post); l.Some? && l.value.source == Live ==> LiveLocks(r, now, pre, post)
  {
    var statics, lives := StaticCandidates(StaticEvents(r), LiveTier1(r)), LiveOnly(LiveTier1(r), StaticEvents(r));
    var all := Candidates(r);
    FirstIsFirst(all, now, pre, post);
    if lv :| r.liveOk && lv in r.liveEvents && Locks(r, lv, now, pre, post) {
      Tier1Members(r.liveEvents, lv);
      MatchedIff(r, lv);
      LiveOnlyMembers(LiveTier1(r), StaticEvents(r), Lockout(lv, Live));
      var k :| 0 <= k < |lives| && lives[k] == Lockout(lv, Live);
      assert all[|statics| + k] == lives[k];
    }
    var l := Check(r, now, pre, post);
    if l.Some? && l.value.source == Live {
      var i :| 0 <= i < |all| && all[i] == l.value;
      assert i >= |statics|;
      assert lives[i - |statics|] == l.value;
      LiveOnlyMembers(LiveTier1(r), StaticEvents(r), l.value);
      Tier1Members(r.liveEvents, l.value.event);
      MatchedIff(r, l.value.event);
      assert Locks(r, l.value.event, now, pre, post);
    }
  }

  /**
   The check locks out exactly on a verified static event's window or an unmatched live tier-1 event's window, and
   it names a static event exactly when one qualifies.
   */
  lemma LockoutIff(r: Reading, now: int, pre: int, post: int)
    ensures var l := Check(r, now, pre, post);
            && (l.Some? <==> StaticLocks(r, now, pre, post) || LiveLocks(r, now, pre, post))
            && (l.Some? ==> (l.value.source != Live <==>
                 StaticLocks(r, now, pre, post)) && Around(now, l.value.event, pre, post))
  {
    CheckWitness(r, now, pre, post);
    LiveWitness(r, now, pre, post);
  }

  /** Merging loses no lockout beyond the tolerance: a live tier-1 window shrunk by it at both ends still locks. */
  lemma ShrunkLiveWindowLocks(r: Reading, lv: Event, now: int, pre: int, post: int)
    requires r.liveOk && lv in r.liveEvents && lv.kind.Some?
    requires lv.at - 60 * pre + 300 <= now <= lv.at + 60 * post - 300
    ensures Check(r, now, pre, post).Some?
  {
    LockoutIff(r, now, pre, post);
    if MatchedBy(StaticEvents(r), lv) {
      var i :| 0 <= i < |StaticEvents(r)| && SameRelease(StaticEvents(r)[i], lv);
      assert r.staticEvents[i] in r.staticEvents && Around(now, r.staticEvents[i], pre, post);
    } else {
      MatchedIff(r, lv);
      assert Locks(r, lv, now, pre, post);
    }
  }

  /**
   The tolerance is really lost: whatever the window, at the first second of a live event's window a matching static
   event five minutes later keeps the desk open.
   */
  lemma EdgeOfMatchedWindowIsOpen(title: string, kind: string, at: int, pre: int, post: int)
    requires pre >= 0 && post >= 0
    ensures var lv, s := Event(title, at, Some(kind)), Event(title, at + 300, Some(kind));
            var now := at - 60 * pre;
            Around(now, lv, pre, post) && Check(Reading(true, [s], true, [lv]), now, pre, post).None?
  {
    var lv, s := Event(title, at, Some(kind)), Event(title, at + 300, Some(kind));
    var r, now := Reading(true, [s], true, [lv]), at - 60 * pre;
    LockoutIff(r, now, pre, post);
    assert Agrees(s, lv) && s in r.staticEvents;
  }

  // Which event is named.

  /**
   The static event named is the first of the schedule whose window holds `now`; its source says whether the feed has
   it.
   */
  lemma StaticNamed(r: Reading, k: nat, now: int, pre: int, post: int)
    requires r.staticOk && k < |r.staticEvents| && Around(now, r.staticEvents[k], pre, post)
    requires forall j :: 0 <= j < k ==> !Around(now, r.staticEvents[j], pre, post)
    ensures var s := r.staticEvents[k];
            Check(r, now, pre, post) ==
              Some(Lockout(s, if r.liveOk && exists lv :: lv in r.liveEvents && lv.kind.Some? && Agrees(s, lv)
                              then StaticAndLive else Static))
  {
    var all, s := Candidates(r), r.staticEvents[k];
    FirstIsFirst(all, now, pre, post);
    assert forall j :: 0 <= j < |r.staticEvents| ==> all[j].event == r.staticEvents[j];
    assert InWindow(now, all[k].event.at, pre, post);
    var i :| FirstAt(all, i, now, pre, post) && all[i] == Check(r, now, pre, post).value;
    assert i == k;
    HasMatchIff(r, s);
  }

  lemma HasMatchIff(r: Reading, s: Event)
    ensures HasMatch(s, LiveTier1(r)) <==>
              r.liveOk && exists lv :: lv in r.liveEvents && lv.kind.Some? && Agrees(s, lv)
  {
    if i :| 0 <= i < |LiveTier1(r)| && SameRelease(s, LiveTier1(r)[i]) {
      Tier1Members(r.liveEvents, LiveTier1(r)[i]);
      assert Agrees(s, LiveTier1(r)[i]);
    }
    if lv :| r.liveOk && lv in r.liveEvents && lv.kind.Some? && Agrees(s, lv) {
      Tier1Members(r.liveEvents, lv);
      var i :| 0 <= i < |LiveTier1(r)| && LiveTier1(r)[i] == lv;
      assert SameRelease(s, LiveTier1(r)[i]);
    }
  }

  ghost predicate InTimeOrder(events: seq<Event>) {
    forall i, j :: 0 <= i < j < |events| ==> events[i].at <= events[j].at
  }

  lemma {:induction false} InsertKeepsOrder(s: seq<Event>, e: Event)
    requires InTimeOrder(s)
    ensures InTimeOrder(InsertByTime(s, e))
  {
    if s != [] && e.at >= s[0].at {
      InsertKeepsOrder(s[1..], e);
      var rest := InsertByTime(s[1..], e);
      forall j | 0 <= j < |rest| ensures s[0].at <= rest[j].at {
        InsertMembers(s[1..], e, rest[j]);
      }
    }
  }

  lemma {:induction false} Tier1Ordered(events: seq<Event>)
    ensures InTimeOrder(Tier1InOrder(events))
  {
    if events != [] {
      Tier1Ordered(events[..|events| - 1]);
      InsertKeepsOrder(Tier1InOrder(events[..|events| - 1]), events[|events| - 1]);
    }
  }

  ghost predicate LockoutsInOrder(lockouts: seq<Lockout>) {
    forall i, j :: 0 <= i < j < |lockouts| ==> lockouts[i].event.at <= lockouts[j].event.at
  }

  lemma {:induction false} LiveOnlyOrdered(live: seq<Event>, events: seq<Event>)
    requires InTimeOrder(live)
    ensures LockoutsInOrder(LiveOnly(live, events))
  {
    if live != [] {
      var init, lv := live[..|live| - 1], live[|live| - 1];
      LiveOnlyOrdered(init, events);
      forall i | 0 <= i < |LiveOnly(init, events)| ensures LiveOnly(init, events)[i].event.at <= lv.at {
        LiveOnlyMembers(init, events, LiveOnly(init, events)[i]);
      }
    }
  }

  /** The live event named is an earliest of those that lock. */
  lemma LiveNamed(r: Reading, now: int, pre: int, post: int)
    ensures var l := Check(r, now, pre, post);
            l.Some? && l.value.source == Live ==>
              && r.liveOk && l.value.event in r.liveEvents && Locks(r, l.value.event, now, pre, post)
              && forall lv :: lv in r.liveEvents && Locks(r, lv, now, pre, post) ==> l.value.event.at <= lv.at
  {
    var l := Check(r, now, pre, post);
    if l.Some? && l.value.source == Live {
      var statics, lives := StaticCandidates(StaticEvents(r), LiveTier1(r)), LiveOnly(LiveTier1(r), StaticEvents(r));
      FirstIsFirst(Candidates(r), now, pre, post);
      var i :| FirstAt(Candidates(r), i, now, pre, post) && Candidates(r)[i] == l.value;
      assert lives[i - |statics|] == l.value;
      LiveOnlyMembers(LiveTier1(r), StaticEvents(r), l.value);
      Tier1Members(r.liveEvents, l.value.event);
      MatchedIff(r, l.value.event);
      forall lv | lv in r.liveEvents && Locks(r, lv, now, pre, post) ensures l.value.event.at <= lv.at {
        EarlierNamed(r, lv, i, now, pre, post);
      }
    }
  }

  lemma EarlierNamed(r: Reading, lv: Event, i: int, now: int, pre: int, post: int)
    requires FirstAt(Candidates(r), i, now, pre, post) && Candidates(r)[i].source == Live
    requires r.liveOk && lv in r.liveEvents && Locks(r, lv, now, pre, post)
    ensures Candidates(r)[i].event.at <= lv.at
  {
    var statics, lives := StaticCandidates(StaticEvents(r), LiveTier1(r)), LiveOnly(LiveTier1(r), StaticEvents(r));
    Tier1Members(r.liveEvents, lv);
    MatchedIff(r, lv);
    LiveOnlyMembers(LiveTier1(r), StaticEvents(r), Lockout(lv, Live));
    var k :| 0 <= k < |lives| && lives[k] == Lockout(lv, Live);
    Tier1Ordered(r.liveEvents);
    LiveOnlyOrdered(LiveTier1(r), StaticEvents(r));
    assert Candidates(r)[|statics| + k] == lives[k] && Candidates(r)[i] == lives[i - |statics|];
  }
}
