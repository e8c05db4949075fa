/** The progressive-CAPTCHA failure window. */
module CaptchaWindow {
  import opened BookingRows

  const WINDOW_MS: nat := 15 * 60000

  datatype Failure = Failure(count: nat, expiresAt: int)

  datatype Guard = Guard(failures: map<Id, Failure>, capacityUntil: int)

  predicate LiveEntry(g: Guard, key: Id, now: int) { key in g.failures && g.failures[key].expiresAt > now }

  predicate Required(g: Guard, key: Id, now: int) {
    g.capacityUntil > now || (LiveEntry(g, key, now) && g.failures[key].count >= 3)
  }

  function Purged(failures: map<Id, Failure>, now: int): map<Id, Failure> {
    map k | k in failures && failures[k].expiresAt > now :: failures[k]
  }

  /** recordFailure */
  function Failed(g: Guard, key: Id, now: int, max: nat): Guard {
    if LiveEntry(g, key, now) then
      g.(failures := g.failures[key :=
          g.failures[key].(count := if g.failures[key].count >= 2 then 3 else g.failures[key].count + 1)])
    else
      var live := Purged(g.failures, now);
      if |live| >= max then Guard(live, now + WINDOW_MS)
      else g.(failures := live[key := Failure(1, now + WINDOW_MS)])
  }

  /** A successful login forgets the key. */
  function Succeeded(g: Guard, key: Id): Guard { g.(failures := g.failures - {key}) }

  datatype Event = Fail(key: Id, time: int) | Success(key: Id, time: int)

  function Do(g: Guard, e: Event, max: nat): Guard {
    match e
    case Fail(key, time) => Failed(g, key, time, max)
    case Success(key, time) => Succeeded(g, key)
  }

  function Run(g: Guard, events: seq<Event>, max: nat): Guard
    decreases |events|
  {
    if events == [] then g else Run(Do(g, events[0], max), events[1..], max)
  }

  lemma AddedSize(m: map<Id, Failure>, key: Id, f: Failure)
    ensures |m[key := f]| <= |m| + 1
  {
    assert m[key := f].Keys == m.Keys + {key};
    KeyCount(m);
    KeyCount(m[key := f]);
  }

  lemma FailureBounded(g: Guard, key: Id, now: int, max: nat)
    requires |g.failures| <= max
    ensures |Failed(g, key, now, max).failures| <= max
  {
    PurgedSmaller(g.failures, now);
    if LiveEntry(g, key, now) {
      SameSize(Failed(g, key, now, max).failures, g.failures);
    } else {
      AddedSize(Purged(g.failures, now), key, Failure(1, now + WINDOW_MS));
    }
  }

  /** The table never grows past its maximum. */
  lemma TableBounded(g: Guard, e: Event, max: nat)
    requires |g.failures| <= max
    ensures |Do(g, e, max).failures| <= max
  {
    if e.Fail? {
      FailureBounded(g, e.key, e.time, max);
    } else {
      KeyCount(g.failures);
      KeyCount(g.failures - {e.key});
      SubsetSize((g.failures - {e.key}).Keys, g.failures.Keys);
    }
  }

  lemma KeyCount(m: map<Id, Failure>)
    ensures |m.Keys| == |m|
  {
  }

  lemma SameSize(a: map<Id, Failure>, b: map<Id, Failure>)
    requires a.Keys == b.Keys
    ensures |a| == |b|
  {
    KeyCount(a);
    KeyCount(b);
  }

  lemma PurgedSmaller(failures: map<Id, Failure>, now: int)
    ensures |Purged(failures, now)| <= |failures|
  {
    assert Purged(failures, now).Keys <= failures.Keys;
    SubsetSize(Purged(failures, now).Keys, failures.Keys);
    KeyCount(failures);
    KeyCount(Purged(failures, now));
  }

  lemma {:induction false} TableStaysBounded(g: Guard, events: seq<Event>, max: nat)
    requires |g.failures| <= max
    ensures |Run(g, events, max).failures| <= max
    decreases |events|
  {
    if events != [] {
      TableBounded(g, events[0], max);
      TableStaysBounded(Do(g, events[0], max), events[1..], max);
    }
  }

  /** A live entry is forgotten only by its own key's success; otherwise it keeps its expiry and its count
      never falls. */
  lemma LiveEntryKept(g: Guard, e: Event, max: nat, key: Id, now: int)
    requires LiveEntry(g, key, now) && g.failures[key].count <= 3 && e.time <= now && !(e.Success? && e.key == key)
    ensures var h := Do(g, e, max);
            LiveEntry(h, key, now) && h.failures[key].expiresAt == g.failures[key].expiresAt
            && g.failures[key].count <= h.failures[key].count <= 3
  {
  }

  // ---------------------------------------------------------- main result

  function FailuresOf(events: seq<Event>, key: Id): nat
    decreases |events|
  {
    if events == [] then 0 else (if events[0] == Fail(key, events[0].time) then 1 else 0) + FailuresOf(events[1..], key)
  }

  /** Times run forward from `start` and stay before `end`. */
  ghost predicate Forward(events: seq<Event>, start: int, end: int)
    decreases |events|
  {
    events == [] || (start <= events[0].time < end && Forward(events[1..], events[0].time, end))
  }

  ghost predicate NeverSucceeds(events: seq<Event>, key: Id) {
    forall k | 0 <= k < |events| :: events[k] != Success(key, events[k].time)
  }

  /** After `n` failures within the window: everyone is challenged to its end, or the key's count says so. */
  ghost predicate Watched(g: Guard, key: Id, n: nat, end: int) {
    g.capacityUntil >= end || (key in g.failures && g.failures[key] == Failure(if n >= 3 then 3 else n, end))
  }

  lemma StaysWatched(g: Guard, e: Event, max: nat, key: Id, n: nat, end: int)
    requires Watched(g, key, n, end) && n >= 1 && e.time < end && end <= e.time + WINDOW_MS
               && !(e.Success? && e.key == key)
    ensures Watched(Do(g, e, max), key, n + (if e == Fail(key, e.time) then 1 else 0), end)
  {
  }

  lemma {:induction false} WatchGoesOn(g: Guard, events: seq<Event>, max: nat, key: Id, n: nat, start: int, end: int)
    requires Watched(g, key, n, end) && n >= 1 && end <= start + WINDOW_MS && Forward(events, start, end)
               && NeverSucceeds(events, key)
    ensures Watched(Run(g, events, max), key, n + FailuresOf(events, key), end)
    decreases |events|
  {
    if events != [] {
      var m := n + (if events[0] == Fail(key, events[0].time) then 1 else 0);
      StaysWatched(g, events[0], max, key, n, end);
      forall k | 0 <= k < |events[1..]| ensures events[1..][k] != Success(key, events[1..][k].time) {
        assert events[1..][k] == events[k + 1];
      }
      WatchGoesOn(Do(g, events[0], max), events[1..], max, key, m, events[0].time, end);
    }
  }

  /** A key with no live entry fails at `t1`; whatever other keys do and whatever the
      capacity, once it has failed three times within the window without success, it is
      challenged until the window that opened at `t1` closes. */
  lemma ChallengedToTheEnd(g: Guard, events: seq<Event>, max: nat, key: Id, t1: int, now: int)
    requires !LiveEntry(g, key, t1) && Forward(events, t1, t1 + WINDOW_MS) && NeverSucceeds(events, key)
    requires FailuresOf(events, key) >= 2 && now < t1 + WINDOW_MS
    ensures Required(Run(Failed(g, key, t1, max), events, max), key, now)
  {
    assert Watched(Failed(g, key, t1, max), key, 1, t1 + WINDOW_MS);
    WatchGoesOn(Failed(g, key, t1, max), events, max, key, 1, t1, t1 + WINDOW_MS);
  }

  // --------------------------------------------- challenged exactly when due

  /** A window and the failures in it: opened by the first failure, closed fifteen minutes later or by a success. */
  datatype Window = Shut | Opened(at: int, failures: nat)

  function Watch(w: Window, e: Event, key: Id): Window {
    match e
    case Success(k, _) => if k == key then Shut else w
    case Fail(k, time) =>
      if k != key then w
      else if w.Opened? && time < w.at + 900000 then Opened(w.at, w.failures + 1) else Opened(time, 1)
  }

  function Watching(w: Window, events: seq<Event>, key: Id): Window
    decreases |events|
  {
    if events == [] then w else Watching(Watch(w, events[0], key), events[1..], key)
  }

  /** The table has the key's open window, capped at three failures, and no other live entry of the key. */
  ghost predicate Tracks(g: Guard, key: Id, w: Window, now: int) {
    if w.Opened? && now < w.at + 900000
    then key in g.failures && g.failures[key] == Failure(if w.failures >= 3 then 3 else w.failures, w.at + 900000)
         && w.failures >= 1
    else !LiveEntry(g, key, now)
  }

  lemma StillTracks(g: Guard, e: Event, max: nat, key: Id, w: Window, now: int)
    requires Tracks(g, key, w, e.time) && e.time <= now && g.capacityUntil == 0 && 0 <= e.time
    requires Do(g, e, max).capacityUntil == 0
    ensures Tracks(Do(g, e, max), key, Watch(w, e, key), now)
  {
  }

  lemma LaterTracks(g: Guard, key: Id, w: Window, now: int, later: int)
    requires Tracks(g, key, w, now) && now <= later
    ensures Tracks(g, key, w, later)
  {
  }

  /** Once everyone is challenged for want of room, the table remembers until when. */
  lemma {:induction false} FullIsRemembered(g: Guard, events: seq<Event>, max: nat, start: int, end: int)
    requires Forward(events, start, end) && 0 <= start && g.capacityUntil > 0
    ensures Run(g, events, max).capacityUntil > 0
    decreases |events|
  {
    if events != [] { FullIsRemembered(Do(g, events[0], max), events[1..], max, events[0].time, end); }
  }

  lemma {:induction false} RunTracks(g: Guard, events: seq<Event>, max: nat, key: Id, w: Window, start: int, now: int)
    requires Tracks(g, key, w, start) && Forward(events, start, now) && 0 <= start && g.capacityUntil == 0
    requires events == [] ==> start <= now
    requires Run(g, events, max).capacityUntil == 0
    ensures Tracks(Run(g, events, max), key, Watching(w, events, key), now)
    decreases |events|
  {
    if events == [] {
      LaterTracks(g, key, w, start, now);
    } else {
      var h := Do(g, events[0], max);
      if h.capacityUntil != 0 { FullIsRemembered(h, events[1..], max, events[0].time, now); }
      LaterTracks(g, key, w, start, events[0].time);
      StillTracks(g, events[0], max, key, w, events[0].time);
      RunTracks(h, events[1..], max, key, Watch(w, events[0], key), events[0].time, now);
    }
  }

  /** As long as there was room for every failure, a key is challenged exactly when its window is open with three
      failures in it: not before the third, not once fifteen minutes are over, and not after a success. */
  lemma ChallengedExactly(events: seq<Event>, max: nat, key: Id, now: int)
    requires Forward(events, 0, now) && 0 <= now && Run(Guard(map[], 0), events, max).capacityUntil == 0
    ensures var w := Watching(Shut, events, key);
            Required(Run(Guard(map[], 0), events, max), key, now)
            <==> w.Opened? && now < w.at + 900000 && w.failures >= 3
  {
    RunTracks(Guard(map[], 0), events, max, key, Shut, 0, now);
  }

  /** A failure counts in the key's live entry; without one, expired entries go, and a new entry is made if there is
      room; otherwise everyone is challenged for fifteen minutes. */
  lemma FailureEffect(g: Guard, key: Id, now: int, max: nat)
    ensures var h := Failed(g, key, now, max);
            if key in g.failures && now < g.failures[key].expiresAt
            then var f := g.failures[key];
                 h == Guard(g.failures[key := Failure(if f.count < 2 then f.count + 1 else 3, f.expiresAt)],
                     g.capacityUntil)
            else var live := map k | k in g.failures && now < g.failures[k].expiresAt :: g.failures[k];
                 h == if |live| < max then Guard(live[key := Failure(1, now + 900000)], g.capacityUntil)
                      else Guard(live, now + 900000)
  {
    assert Purged(g.failures, now) == map k | k in g.failures && now < g.failures[k].expiresAt :: g.failures[k];
  }

  // ------------------------------------------------------ a whole login attempt

  /** What the provider said about the token sent with the login. */
  datatype Verification = Passed | Refused | Unavailable

  /** A login whose password check, if it is reached, answers with `status`. */
  function Login(enabled: bool, g: Guard, key: Id, now: int, check: Verification, status: nat, finished: int,
      max: nat): (Guard, nat) {
    if !enabled then (g, status)
    else
      var answer := if Required(g, key, now)
          && check != Passed then (if check == Unavailable then 503 else 403) else status;
      (if answer == 401 then Failed(g, key, finished, max) else if 200 <= answer < 300 then Succeeded(g, key)
          else g, answer)
  }

  /** Three failures within the window, whatever else happens: until it closes, no login of that key without
      a solved challenge reaches the password check, and none of them moves the table. */
  lemma UnsolvedIsTurnedAway(g: Guard, events: seq<Event>, max: nat, key: Id, t1: int, now: int, check: Verification,
      status: nat, finished: int)
    requires !LiveEntry(g, key, t1) && Forward(events, t1, t1 + WINDOW_MS) && NeverSucceeds(events, key)
    requires FailuresOf(events, key) >= 2 && now < t1 + WINDOW_MS && check != Passed
    ensures var h := Run(Failed(g, key, t1, max), events, max);
            Login(true, h, key, now, check, status, finished, max) == (h, if check == Unavailable then 503 else 403)
  {
    ChallengedToTheEnd(g, events, max, key, t1, now);
  }

  /** Whoever need not, or does, solve the challenge gets the password check's answer; a 401 counts as a failure, and
      a success forgets the key. Without protection the table is left alone. */
  lemma LoginEffect(enabled: bool, g: Guard, key: Id, now: int, check: Verification, status: nat, finished: int,
      max: nat)
    requires enabled && check != Passed ==> g.capacityUntil <= now
    requires enabled && check != Passed && key in g.failures && now < g.failures[key].expiresAt ==>
               g.failures[key].count < 3
    ensures Login(enabled, g, key, now, check, status, finished, max)
              == (if !enabled then g
                  else if status == 401 then Failed(g, key, finished, max)
                  else if 200 <= status && status < 300
                  then Guard(g.failures - {key}, g.capacityUntil) else g,
                  status)
  {
  }

  // ------------------------------------------------------------- the closure

  class CaptchaProtection {
    const enabled: bool
    const maxEntries: nat
    var failures: map<Id, Failure>
    var capacityChallengeUntil: int

    ghost function View(): Guard
      reads this
    {
      Guard(failures, capacityChallengeUntil)
    }

    constructor (enabled: bool, maxEntries: nat)
      ensures View() == Guard(map[], 0) && this.enabled == enabled && this.maxEntries == maxEntries
    {
      this.enabled, this.maxEntries, failures, capacityChallengeUntil := enabled, maxEntries, map[], 0;
    }

    /** Drop the entries that have expired, one by one. */
    method Purge(now: int)
      modifies this`failures
      ensures failures == Purged(old(failures), now)
    {
      var todo := failures.Keys;
      while todo != {}
        invariant todo <= old(failures).Keys
        invariant forall k :: k in failures <==> k in old(failures) && (k in todo || old(failures)[k].expiresAt > now)
        invariant forall k | k in failures :: failures[k] == old(failures)[k]
        decreases todo
      {
        var k :| k in todo;
        if k in failures && failures[k].expiresAt <= now {
          failures := failures - {k};
        }
        todo := todo - {k};
      }
    }

    method RecordFailure(key: Id, now: int)
      modifies this
      ensures View() == Failed(old(View()), key, now, maxEntries)
    {
      if key in failures && failures[key].expiresAt > now {
        failures := failures[key :=
            failures[key].(count := if failures[key].count >= 2 then 3 else failures[key].count + 1)];
        return;
      }
      Purge(now);
      if |failures| >= maxEntries {
        capacityChallengeUntil := now + WINDOW_MS;
        return;
      }
      failures := failures[key := Failure(1, now + WINDOW_MS)];
    }

    /** passwordLoginCaptcha around one login: the challenge before it, the bookkeeping once it is answered. */
    method PasswordLogin(key: Id, now: int, check: Verification, status: nat, finished: int) returns (answer: nat)
      modifies this
      ensures (View(), answer) == Login(enabled, old(View()), key, now, check, status, finished, maxEntries)
    {
      if !enabled {
        return status;
      }
      answer := status;
      var challenged := capacityChallengeUntil > now
        || (key in failures && failures[key].expiresAt > now && failures[key].count >= 3);
      if challenged && check != Passed {
        answer := if check == Unavailable then 503 else 403;
      }
      if answer == 401 {
        RecordFailure(key, finished);
      } else if 200 <= answer < 300 {
        failures := failures - {key};
      }
    }
  }
}
