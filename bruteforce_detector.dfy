/** The brute-force detector (detectors/bruteforce_detector.py): for every
    log line that records a failed SSH password, it appends the current time
    to that address's list, drops entries older than ten seconds, and
    publishes a "password_spray" alert whenever five or more remain. The
    list is never cleared, so every further failure inside the window
    raises another alert. */
module BruteforceDetector {
  import opened Wrappers
  import opened Text
  import opened Json
  import opened SlidingWindow

  const WindowSeconds: real := 10.0
  const Threshold: nat := 5

  // ---------------------------------------------------------------------
  // AUTH_FAIL_REGEX, applied with re.search:
  //   .*Failed password for (invalid user )?(\w+) from (\d+\.\d+\.\d+\.\d+)
  // ---------------------------------------------------------------------

  const FailedFor: string := "Failed password for "
  const InvalidUser: string := "invalid user "
  const FromWord: string := " from "

  /** `(\w+) from (quad)` matched at `k`: the user name is a maximal word
      run (a shorter one would leave a word character where the space of
      " from " is needed), and the address is four maximal digit runs. */
  function AddressAfterUser(s: string, k: nat): Option<string>
    requires k <= |s|
  {
    var w := Run(s, k, IsWordChar);
    if w == 0 || !OccursAt(s, FromWord, k + w) then None
    else
      var a := k + w + |FromWord|;
      match DottedRunsEnd(s, a, 4)
      case None => None
      case Some(e) => Some(s[a..e])
  }

  /** The part of the pattern after `.*`, tried at index `p`: the optional
      group is tried first, then skipped. */
  function TailAt(s: string, p: nat): Option<string>
    requires p <= |s|
  {
    if !OccursAt(s, FailedFor, p) then None
    else
      var k := p + |FailedFor|;
      var withGroup := if OccursAt(s, InvalidUser, k) then AddressAfterUser(s, k + |InvalidUser|) else None;
      if withGroup.Some? then withGroup else AddressAfterUser(s, k)
  }

  /** The indices of `s` at which the tail matches. */
  function TailMatchesAt(s: string): nat -> bool {
    (q: nat) => q <= |s| && TailAt(s, q).Some?
  }

  /** `AUTH_FAIL_REGEX.search(line)` reduced to the captured address:
      `.` does not cross a line break, so the first line holding a tail
      decides, and within it the last tail does. */
  function Match(s: string): Option<string>
    decreases |s|
  {
    var e := LineEnd(s);
    var line := s[..e];
    match LastWhere(e + 1, TailMatchesAt(line))
    case Some(p) => TailAt(line, p)
    case None => if e < |s| then Match(s[e + 1..]) else None
  }

  lemma AddressAfterUserIsQuad(s: string, k: nat)
    requires k <= |s| && AddressAfterUser(s, k).Some?
    ensures IsDottedQuad(AddressAfterUser(s, k).value)
  {
    var w := Run(s, k, IsWordChar);
    var a := k + w + |FromWord|;
    DottedQuadCapture(s, a, DottedRunsEnd(s, a, 4).value);
  }

  lemma TailAtIsQuad(s: string, p: nat)
    requires p <= |s| && TailAt(s, p).Some?
    ensures OccursAt(s, FailedFor, p) && IsDottedQuad(TailAt(s, p).value)
  {
    var k := p + |FailedFor|;
    if OccursAt(s, InvalidUser, k) && AddressAfterUser(s, k + |InvalidUser|).Some? {
      AddressAfterUserIsQuad(s, k + |InvalidUser|);
    } else {
      AddressAfterUserIsQuad(s, k);
    }
  }

  /** The pattern only ever captures a dotted quad, and only from a line
      that holds "Failed password for ". */
  lemma {:induction false} MatchIsQuad(s: string)
    requires Match(s).Some?
    ensures IsDottedQuad(Match(s).value)
    decreases |s|
  {
    var e := LineEnd(s);
    var line := s[..e];
    match LastWhere(e + 1, TailMatchesAt(line))
    case Some(p) => TailAtIsQuad(line, p);
    case None => MatchIsQuad(s[e + 1..]);
  }

  // ---------------------------------------------------------------------
  // Alerts
  // ---------------------------------------------------------------------

  datatype Alert = Alert(ip: string, stage: string, severity: string, attempts: nat)

  /** The dict `publish_alert` sends on the "alerts" channel. The clock
      supplies the millisecond count in the id and the timestamp text. */
  function AlertMessage(a: Alert, millis: int, timestamp: string): (v: Value)
    ensures v.Obj?
    ensures Lookup(v.members, "id") == Some(Str("alert-" + IntText(millis)))
    ensures Lookup(v.members, "type") == Some(Str("bruteforce.alert"))
    ensures Lookup(v.members, "source") == Some(Str("detector"))
    ensures Lookup(v.members, "severity") == Some(Str(a.severity))
    ensures Lookup(v.members, "ip") == Some(Str(a.ip))
    ensures Lookup(v.members, "stage") == Some(Str(a.stage))
    ensures Lookup(v.members, "attempts") == Some(Int(a.attempts))
    ensures Lookup(v.members, "timestamp") == Some(Str(timestamp))
  {
    var ms := [
      ("id", Str("alert-" + IntText(millis))),
      ("type", Str("bruteforce.alert")),
      ("source", Str("detector")),
      ("severity", Str(a.severity)),
      ("ip", Str(a.ip)),
      ("stage", Str(a.stage)),
      ("attempts", Int(a.attempts)),
      ("timestamp", Str(timestamp))
    ];
    LookupFirst(ms, "id", 0);
    LookupFirst(ms, "type", 1);
    LookupFirst(ms, "source", 2);
    LookupFirst(ms, "severity", 3);
    LookupFirst(ms, "ip", 4);
    LookupFirst(ms, "stage", 5);
    LookupFirst(ms, "attempts", 6);
    LookupFirst(ms, "timestamp", 7);
    Obj(ms)
  }

  // ---------------------------------------------------------------------
  // The sliding window: attempts_by_ip
  // ---------------------------------------------------------------------

  type Attempts = map<string, seq<real>>

  /** The timestamps kept at `now`. */
  function Recent(ts: seq<real>, now: real): seq<real> {
    KeepRecent(ts, Instant, now, WindowSeconds)
  }

  /** `process_auth_log` at time `now` once the pattern has been applied:
      `m` is the captured address, or None when the line did not match.
      Returns the new map and the alert published, if any. */
  function Step(attempts: Attempts, m: Option<string>, now: real): (r: (Attempts, Option<Alert>))
    ensures m.None? ==> r == (attempts, None)
    ensures m.Some? ==>
      var ip := m.value;
      && ip in r.0
      && r.0 == attempts[ip := r.0[ip]]
      && r.0[ip] == Recent(Entries(attempts, ip) + [now], now)
      && r.0[ip] != [] && r.0[ip][|r.0[ip]| - 1] == now
      && (forall k :: 0 <= k < |r.0[ip]| ==> now - r.0[ip][k] <= WindowSeconds)
      && (r.1.Some? <==> |r.0[ip]| >= Threshold)
      && (r.1.Some? ==> r.1.value == Alert(ip, "password_spray", "medium", |r.0[ip]|))
  {
    match m
    case None => (attempts, None)
    case Some(ip) =>
      var xs := Entries(attempts, ip) + [now];
      var w := Recent(xs, now);
      assert xs[|xs| - 1] == now;
      (attempts[ip := w], if |w| >= Threshold then Some(Alert(ip, "password_spray", "medium", |w|)) else None)
  }

  class Detector {
    var attemptsByIp: Attempts

    constructor()
      ensures attemptsByIp == map[]
    {
      attemptsByIp := map[];
    }

    /** `process_auth_log`. */
    method ProcessAuthLog(line: string, now: real) returns (alert: Option<Alert>)
      modifies this
      ensures (attemptsByIp, alert) == Step(old(attemptsByIp), Match(line), now)
    {
      var m := Match(line);
      if m.None? {
        return None;
      }
      var ip := m.value;
      var entries := if ip in attemptsByIp then attemptsByIp[ip] else [];
      entries := entries + [now];
      entries := Recent(entries, now);
      attemptsByIp := attemptsByIp[ip := entries];
      var attempts := |attemptsByIp[ip]|;
      if attempts >= Threshold {
        alert := Some(Alert(ip, "password_spray", "medium", attempts));
      } else {
        alert := None;
      }
    }

    /** One message of the `main` loop, given what `json.loads` made of it
        (None when it raised). */
    method OnMessage(parsed: Option<Value>, now: real) returns (d: Delivery, alert: Option<Alert>)
      modifies this
      ensures d == LineOf(parsed)
      ensures d.Line? ==> (attemptsByIp, alert) == Step(old(attemptsByIp), Match(d.line), now)
      ensures !d.Line? ==> attemptsByIp == old(attemptsByIp) && alert.None?
    {
      d := LineOf(parsed);
      if d.Line? {
        alert := ProcessAuthLog(d.line, now);
      } else {
        alert := None;
      }
    }
  }

  // ---------------------------------------------------------------------
  // main's payload filter
  // ---------------------------------------------------------------------

  /** `"line" not in data` is a key test on a dict, an element test on a
      list and a substring test on a string, and raises on anything else;
      `data["line"]` then raises on a list or a string, and the regular
      expression raises on a line that is not a string. */
  function LineOf(parsed: Option<Value>): (d: Delivery)
    ensures parsed.None? ==> d == Skip
    ensures d.Line? <==> parsed.Some? && parsed.value.Obj?
                         && Lookup(parsed.value.members, "line").Some?
                         && Lookup(parsed.value.members, "line").value.Str?
    ensures d.Line? ==> d.line == Lookup(parsed.value.members, "line").value.s
    ensures parsed.Some? && parsed.value.Obj? && !HasKey(parsed.value.members, "line") ==> d == Skip
  {
    match parsed
    case None => Skip
    case Some(v) =>
      match v
      case Obj(ms) =>
        LookupFinds(ms, "line");
        (match Lookup(ms, "line")
         case None => Skip
         case Some(l) => if l.Str? then Line(l.s) else Crash)
      case Arr(xs) => if Str("line") in xs then Crash else Skip
      case Str(s) => if Contains(s, "line") then Crash else Skip
      case _ => Crash
  }

  // ---------------------------------------------------------------------
  // Runs of the detector
  // ---------------------------------------------------------------------

  /** A processed log line, reduced to the address the pattern captured
      from it (None when it did not match), and the time it was processed. */
  type Event = (Option<string>, real)

  /** The map after processing `events` in order. */
  function Replay(attempts: Attempts, events: seq<Event>): Attempts
    decreases |events|
  {
    if events == [] then attempts
    else
      var e := events[|events| - 1];
      Step(Replay(attempts, events[..|events| - 1]), e.0, e.1).0
  }

  /** The times of the events whose line matches for `ip`, in order. */
  function Times(events: seq<Event>, ip: string): seq<real>
    decreases |events|
  {
    if events == [] then []
    else
      var e := events[|events| - 1];
      Times(events[..|events| - 1], ip) + (if e.0 == Some(ip) then [e.1] else [])
  }

  /** One more event changes only its own address's list. */
  lemma ReplayLast(attempts: Attempts, events: seq<Event>, ip: string)
    requires events != []
    ensures var init := events[..|events| - 1];
            var e := events[|events| - 1];
            var before := Entries(Replay(attempts, init), ip);
            Entries(Replay(attempts, events), ip) == if e.0 == Some(ip) then Recent(before + [e.1], e.1) else before
  {
  }

  lemma TimesLast(events: seq<Event>, ip: string)
    requires events != []
    ensures var e := events[|events| - 1];
            Times(events, ip) == Times(events[..|events| - 1], ip) + (if e.0 == Some(ip) then [e.1] else [])
  {
  }

  /** Whatever the clock does, an address's list only ever holds times of
      earlier matches for that address. */
  lemma {:induction false} ReplayWithin(attempts: Attempts, events: seq<Event>, ip: string)
    ensures multiset(Entries(Replay(attempts, events), ip)) <= multiset(Entries(attempts, ip) + Times(events, ip))
    decreases |events|
  {
    if events != [] {
      ReplayWithin(attempts, events[..|events| - 1], ip);
      ReplayWithinStep(attempts, events, ip);
    }
  }

  lemma ReplayWithinStep(attempts: Attempts, events: seq<Event>, ip: string)
    requires events != []
    requires var init := events[..|events| - 1];
             multiset(Entries(Replay(attempts, init), ip)) <= multiset(Entries(attempts, ip) + Times(init, ip))
    ensures multiset(Entries(Replay(attempts, events), ip)) <= multiset(Entries(attempts, ip) + Times(events, ip))
  {
    var init := events[..|events| - 1];
    var e := events[|events| - 1];
    var before := Entries(Replay(attempts, init), ip);
    var start := Entries(attempts, ip);
    ReplayLast(attempts, events, ip);
    TimesLast(events, ip);
    if e.0 == Some(ip) {
      WithinAppend(before, start, Times(init, ip), e.1);
    }
  }

  lemma WithinAppend(before: seq<real>, start: seq<real>, ts: seq<real>, now: real)
    requires multiset(before) <= multiset(start + ts)
    ensures multiset(Recent(before + [now], now)) <= multiset(start + (ts + [now]))
  {
    KeepRecentSub(before + [now], Instant, now, WindowSeconds);
    assert start + (ts + [now]) == (start + ts) + [now];
  }

  /** An alert needs five matches for the address (this one included)
      whose times lie within ten seconds before `now`, whatever the clock
      did in between. */
  lemma AlertNeedsFiveRecent(events: seq<Event>, ip: string, now: real)
    requires Step(Replay(map[], events), Some(ip), now).1.Some?
    ensures |Recent(Times(events + [(Some(ip), now)], ip), now)| >= Threshold
  {
    var all := events + [(Some(ip), now)];
    AlertBound(map[], events, ip, now);
    assert all[..|events|] == events;
    TimesLast(all, ip);
    assert Entries(map[], ip) + Times(events, ip) == Times(events, ip);
  }

  /** The alert test, stated against everything the address has seen. */
  lemma AlertBound(attempts: Attempts, events: seq<Event>, ip: string, now: real)
    ensures Step(Replay(attempts, events), Some(ip), now).1.Some?
            ==> |Recent(Entries(attempts, ip) + Times(events, ip) + [now], now)| >= Threshold
  {
    ReplayWithin(attempts, events, ip);
    RecentCardMono(Entries(Replay(attempts, events), ip), Entries(attempts, ip) + Times(events, ip), now);
  }

  lemma RecentCardMono(before: seq<real>, all: seq<real>, now: real)
    requires multiset(before) <= multiset(all)
    ensures |Recent(before + [now], now)| <= |Recent(all + [now], now)|
  {
    var xs := before + [now];
    var ys := all + [now];
    assert multiset(xs) <= multiset(ys);
    KeepRecentMono(xs, ys, Instant, now, WindowSeconds);
    MultisetSubsetCard(multiset(Recent(xs, now)), multiset(Recent(ys, now)));
  }

  lemma {:induction false} MultisetSubsetCard<T>(a: multiset<T>, b: multiset<T>)
    requires a <= b
    ensures |a| <= |b|
    decreases |a|
  {
    if a != multiset{} {
      var x :| x in a;
      MultisetSubsetCard(a - multiset{x}, b - multiset{x});
    }
  }

  /** Five matches for one address, the last more than ten seconds after
      the first, never raise an alert, starting from a detector that holds
      nothing for that address. */
  lemma FiveSpreadOutNoAlert(attempts: Attempts, events: seq<Event>, ip: string)
    requires ip !in attempts
    requires |events| == 5
    requires forall k :: 0 <= k < 5 ==> events[k].0 == Some(ip)
    requires events[4].1 - events[0].1 > WindowSeconds
    ensures forall k :: 0 <= k < 5 ==> Step(Replay(attempts, events[..k]), events[k].0, events[k].1).1.None?
  {
    forall k | 0 <= k < 5
      ensures Step(Replay(attempts, events[..k]), events[k].0, events[k].1).1.None?
    {
      var now := events[k].1;
      var ts := Times(events[..k], ip);
      assert |Recent(Entries(attempts, ip) + ts + [now], now)| < Threshold by {
        TimesAllMatch(events[..k], ip);
        FewRecent(ts, events[0].1, now);
        assert Entries(attempts, ip) + ts == ts;
      }
      AlertBound(attempts, events[..k], ip, now);
    }
  }

  /** At most four of five times fit when the first is more than ten
      seconds before the last; fewer than five times never reach five. */
  lemma FewRecent(ts: seq<real>, first: real, now: real)
    requires |ts| <= 4
    requires |ts| == 4 ==> ts[0] == first && now - first > WindowSeconds
    ensures |Recent(ts + [now], now)| < Threshold
  {
    if |ts| == 4 {
      assert ts + [now] == [first] + (ts[1..] + [now]);
      KeepRecentAppend([first], ts[1..] + [now], Instant, now, WindowSeconds);
    }
  }

  /** When every event matches for `ip`, its times are all the times. */
  lemma {:induction false} TimesAllMatch(events: seq<Event>, ip: string)
    requires forall k :: 0 <= k < |events| ==> events[k].0 == Some(ip)
    ensures Times(events, ip) == seq(|events|, k requires 0 <= k < |events| => events[k].1)
    decreases |events|
  {
    if events != [] {
      TimesAllMatch(events[..|events| - 1], ip);
    }
  }

  predicate Nondecreasing(events: seq<Event>) {
    forall i, j :: 0 <= i < j < |events| ==> events[i].1 <= events[j].1
  }

  function LastOr(ts: seq<real>, default: real): real {
    if ts == [] then default else ts[|ts| - 1]
  }

  lemma {:induction false} TimesBounded(events: seq<Event>, ip: string, bound: real)
    requires forall k :: 0 <= k < |events| ==> events[k].1 <= bound
    ensures forall k :: 0 <= k < |Times(events, ip)| ==> Times(events, ip)[k] <= bound
    decreases |events|
  {
    if events != [] {
      TimesBounded(events[..|events| - 1], ip, bound);
    }
  }

  /** With a clock that never goes back, a fresh detector's list for an
      address is exactly the times of its matches that were within ten
      seconds of its latest match. */
  lemma {:induction false} ReplayExact(events: seq<Event>, ip: string)
    requires Nondecreasing(events)
    ensures Entries(Replay(map[], events), ip) == Recent(Times(events, ip), LastOr(Times(events, ip), 0.0))
    decreases |events|
  {
    if events != [] {
      var init := events[..|events| - 1];
      assert Nondecreasing(init);
      ReplayExact(init, ip);
      assert forall k :: 0 <= k < |events| - 1 ==> events[k].1 <= events[|events| - 1].1;
      ReplayExactStep(events, ip);
    }
  }

  lemma ReplayExactStep(events: seq<Event>, ip: string)
    requires events != []
    requires forall k :: 0 <= k < |events| - 1 ==> events[k].1 <= events[|events| - 1].1
    requires var init := events[..|events| - 1];
             Entries(Replay(map[], init), ip) == Recent(Times(init, ip), LastOr(Times(init, ip), 0.0))
    ensures Entries(Replay(map[], events), ip) == Recent(Times(events, ip), LastOr(Times(events, ip), 0.0))
  {
    var init := events[..|events| - 1];
    var e := events[|events| - 1];
    ReplayLast(map[], events, ip);
    TimesLast(events, ip);
    var ts := Times(init, ip);
    if e.0 == Some(ip) {
      assert Entries(Replay(map[], events), ip) == Recent(Entries(Replay(map[], init), ip) + [e.1], e.1);
      assert Times(events, ip) == ts + [e.1];
      assert Recent(Recent(ts, LastOr(ts, 0.0)) + [e.1], e.1) == Recent(ts + [e.1], LastOr(ts + [e.1], 0.0)) by {
        assert forall k :: 0 <= k < |init| ==> init[k].1 <= e.1 by {
          assert forall k :: 0 <= k < |init| ==> init[k] == events[k];
        }
        TimesBounded(init, ip, e.1);
        ExactAppend(ts, e.1);
      }
    } else {
      assert Entries(Replay(map[], events), ip) == Entries(Replay(map[], init), ip);
      assert Times(events, ip) == ts;
    }
  }

  /** Filtering at the previous latest time and then again at a later one
      loses nothing that filtering once at the later time keeps. */
  lemma ExactAppend(ts: seq<real>, now: real)
    requires forall k :: 0 <= k < |ts| ==> ts[k] <= now
    ensures Recent(Recent(ts, LastOr(ts, 0.0)) + [now], now) == Recent(ts + [now], LastOr(ts + [now], 0.0))
  {
    if ts != [] {
      KeepRecentLater(ts, Instant, ts[|ts| - 1], now, WindowSeconds);
    }
    KeepRecentAppend(Recent(ts, LastOr(ts, 0.0)), [now], Instant, now, WindowSeconds);
    KeepRecentAppend(ts, [now], Instant, now, WindowSeconds);
  }

  /** With a clock that never goes back, a fresh detector alerts on a
      matching line exactly when five or more matches for that address,
      this one included, lie within the last ten seconds; the alert then
      reports how many. */
  lemma AlertIffFiveRecent(events: seq<Event>, ip: string, now: real)
    requires Nondecreasing(events + [(Some(ip), now)])
    ensures var recent := Recent(Times(events + [(Some(ip), now)], ip), now);
            var r := Step(Replay(map[], events), Some(ip), now);
            && (r.1.Some? <==> |recent| >= Threshold)
            && (r.1.Some? ==> r.1.value.attempts == |recent|)
  {
    var line := Some(ip);
    var all := events + [(line, now)];
    assert all[..|events|] == events;
    assert Nondecreasing(events) by {
      forall i, j | 0 <= i < j < |events| ensures events[i].1 <= events[j].1 {
        assert all[i] == events[i] && all[j] == events[j];
      }
    }
    ReplayExact(all, ip);
    assert Replay(map[], all) == Step(Replay(map[], events), line, now).0;
    assert LastOr(Times(all, ip), 0.0) == now;
  }
}
