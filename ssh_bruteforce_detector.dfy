/** The SSH brute-force detector (detectors/ssh_bruteforce_detector.py):
    it applies its pattern to every raw message, appends the current time
    to the captured address's list in `FAILED`, drops entries older than
    ten seconds, and when five or more remain publishes an
    "ssh_bruteforce" alert and empties that address's list. */
module SshBruteforceDetector {
  import opened Wrappers
  import opened Text
  import opened Json
  import opened SlidingWindow

  const Window: real := 10.0
  const Threshold: nat := 5

  // ---------------------------------------------------------------------
  // SSH_FAIL_PATTERN, applied with re.match:
  //   .*Failed password.*from (\d{1,3}(?:\.\d{1,3}){3}).*
  // ---------------------------------------------------------------------

  const FailedPassword: string := "Failed password"
  const FromSpace: string := "from "

  function Min(a: nat, b: nat): nat {
    if a <= b then a else b
  }

  /** Where `\d{1,3}(\.\d{1,3}){parts-1}` ends when matched at `i` as the
      rest of the pattern allows: every part but the last is a whole run
      of one to three digits followed by a dot (a shorter prefix would
      leave a digit where the dot is needed), and the last part takes up
      to three digits of its run, the trailing `.*` taking the rest. */
  function ShortRunsEnd(s: string, i: nat, parts: nat): (r: Option<nat>)
    requires i <= |s| && parts >= 1
    ensures r.Some? ==> i + 2 * parts - 1 <= r.value <= i + 4 * parts - 1 && r.value <= |s|
    decreases parts
  {
    var d := DigitRun(s, i);
    if d == 0 then None
    else if parts == 1 then Some(i + Min(d, 3))
    else if d <= 3 && i + d < |s| && s[i + d] == '.' then ShortRunsEnd(s, i + d + 1, parts - 1)
    else None
  }

  /** The address captured when `from ` is taken at index `q`. */
  function CaptureAt(s: string, q: nat): Option<string>
    requires q <= |s|
  {
    if !OccursAt(s, FromSpace, q) then None
    else
      var a := q + |FromSpace|;
      match ShortRunsEnd(s, a, 4)
      case None => None
      case Some(e) => Some(s[a..e])
  }

  /** The indices at which `from ` can be taken: "Failed password" lies
      wholly before it and an address follows it. */
  function CaptureMatchesAt(s: string): nat -> bool {
    (q: nat) => q <= |s| && Contains(s[..q], FailedPassword) && CaptureAt(s, q).Some?
  }

  /** `SSH_FAIL_PATTERN.match(line)` reduced to the captured address. The
      match is anchored at the start and `.` stops at a line break, so only
      the first line counts; both `.*` are greedy, so the last `from ` with
      an address after it and "Failed password" before it is taken. */
  function Match(s: string): Option<string> {
    var line := s[..LineEnd(s)];
    match LastWhere(|line| + 1, CaptureMatchesAt(line))
    case None => None
    case Some(q) => CaptureAt(line, q)
  }

  /** The characters of a matched address are digits and dots. */
  lemma {:induction false} ShortRunsChars(s: string, i: nat, parts: nat)
    requires i <= |s| && parts >= 1 && ShortRunsEnd(s, i, parts).Some?
    ensures forall k :: i <= k < ShortRunsEnd(s, i, parts).value ==> IsDigit(s[k]) || s[k] == '.'
    decreases parts
  {
    DigitRunDigits(s, i);
    var d := DigitRun(s, i);
    if parts > 1 {
      ShortRunsChars(s, i + d + 1, parts - 1);
    }
  }

  /** An address captured at `q` is 7 to 15 characters of digits and
      dots. */
  lemma CaptureShape(line: string, q: nat)
    requires q <= |line| && CaptureAt(line, q).Some?
    ensures 7 <= |CaptureAt(line, q).value| <= 15
    ensures forall k :: 0 <= k < |CaptureAt(line, q).value| ==>
              IsDigit(CaptureAt(line, q).value[k]) || CaptureAt(line, q).value[k] == '.'
  {
    var a := q + |FromSpace|;
    var end := ShortRunsEnd(line, a, 4).value;
    ShortRunsChars(line, a, 4);
    assert CaptureAt(line, q).value == line[a..end];
  }

  /** Whatever the line, a captured address is 7 to 15 characters of
      digits and dots, and the first line of the message holds
      "Failed password". */
  lemma MatchShape(s: string)
    requires Match(s).Some?
    ensures 7 <= |Match(s).value| <= 15
    ensures forall k :: 0 <= k < |Match(s).value| ==> IsDigit(Match(s).value[k]) || Match(s).value[k] == '.'
    ensures Contains(s, FailedPassword)
  {
    var e := LineEnd(s);
    var line := s[..e];
    var q := LastWhere(|line| + 1, CaptureMatchesAt(line)).value;
    assert CaptureMatchesAt(line)(q);
    assert Match(s) == CaptureAt(line, q);
    CaptureShape(line, q);
    ContainsPrefix(line, q, FailedPassword);
    ContainsPrefix(s, e, FailedPassword);
  }

  // ---------------------------------------------------------------------
  // Alerts
  // ---------------------------------------------------------------------

  /** The values `publish_alert` takes: the address and the count. */
  datatype Alert = Alert(ip: string, attempts: nat)

  /** The dict `publish_alert` sends on the "alerts" channel. It has no
      "id" member. */
  function AlertMessage(a: Alert, timestamp: string): (v: Value)
    ensures v.Obj?
    ensures !HasKey(v.members, "id")
    ensures Lookup(v.members, "type") == Some(Str("bruteforce.alert"))
    ensures Lookup(v.members, "source") == Some(Str("detector"))
    ensures Lookup(v.members, "stage") == Some(Str("ssh_bruteforce"))
    ensures Lookup(v.members, "severity") == Some(Str("medium"))
    ensures Lookup(v.members, "ip") == Some(Str(a.ip))
    ensures Lookup(v.members, "attempts") == Some(Int(a.attempts))
  {
    var ms := [
      ("type", Str("bruteforce.alert")),
      ("source", Str("detector")),
      ("stage", Str("ssh_bruteforce")),
      ("severity", Str("medium")),
      ("ip", Str(a.ip)),
      ("attempts", Int(a.attempts)),
      ("timestamp", Str(timestamp))
    ];
    LookupFinds(ms, "id");
    LookupFirst(ms, "type", 0);
    LookupFirst(ms, "source", 1);
    LookupFirst(ms, "stage", 2);
    LookupFirst(ms, "severity", 3);
    LookupFirst(ms, "ip", 4);
    LookupFirst(ms, "attempts", 5);
    Obj(ms)
  }

  // ---------------------------------------------------------------------
  // FAILED
  // ---------------------------------------------------------------------

  type Failed = map<string, seq<real>>

  /** The address's list after appending `now` and dropping what is older
      than the window. */
  function Pruned(failed: Failed, ip: string, now: real): seq<real> {
    KeepRecent(Entries(failed, ip) + [now], Instant, now, Window)
  }

  /** `handle_log` at time `now` once the pattern has been applied. */
  function Step(failed: Failed, m: Option<string>, now: real): (r: (Failed, Option<Alert>))
    ensures m.None? ==> r == (failed, None)
    ensures m.Some? ==>
      var ip := m.value;
      var w := Pruned(failed, ip, now);
      && ip in r.0
      && r.0 == failed[ip := r.0[ip]]
      && (r.1.Some? <==> |w| >= Threshold)
      && (r.1.Some? ==> r.0[ip] == [] && r.1.value == Alert(ip, |w|))
      && (r.1.None? ==> r.0[ip] == w)
      && (r.1.None? ==> r.0[ip] != [] && r.0[ip][|r.0[ip]| - 1] == now && forall k :: 0 <= k < |r.0[ip]| ==> now - r.0[ip][k] <= Window)
  {
    match m
    case None => (failed, None)
    case Some(ip) =>
      var xs := Entries(failed, ip) + [now];
      var w := Pruned(failed, ip, now);
      assert xs[|xs| - 1] == now;
      if |w| >= Threshold then (failed[ip := []], Some(Alert(ip, |w|)))
      else (failed[ip := w], None)
  }

  /** Every stored list is shorter than the threshold. */
  predicate BelowThreshold(failed: Failed) {
    forall ip :: ip in failed ==> |failed[ip]| < Threshold
  }

  /** The reset keeps every list below the threshold. */
  lemma StepKeepsBelow(failed: Failed, m: Option<string>, now: real)
    requires BelowThreshold(failed)
    ensures BelowThreshold(Step(failed, m, now).0)
  {
  }

  /** Since every list is below the threshold before the call, the window
      holds at most five entries, so an alert always reports exactly five. */
  lemma AlertIsFive(failed: Failed, m: Option<string>, now: real)
    requires BelowThreshold(failed)
    requires Step(failed, m, now).1.Some?
    ensures Step(failed, m, now).1.value.attempts == Threshold
  {
    var ip := m.value;
    assert |Entries(failed, ip)| < Threshold;
  }

  class Detector {
    var failed: Failed

    predicate Valid()
      reads this
    {
      BelowThreshold(failed)
    }

    constructor()
      ensures failed == map[] && Valid()
    {
      failed := map[];
    }

    /** `handle_log(line)` at time `now`. */
    method HandleLog(line: string, now: real) returns (alert: Option<Alert>)
      requires Valid()
      modifies this
      ensures (failed, alert) == Step(old(failed), Match(line), now)
      ensures Valid()
    {
      var m := Match(line);
      if m.None? {
        return None;
      }
      alert := RecordFailure(m.value, now);
    }

    /** The part of `handle_log` after a match: the time goes on the
        address's list, the list is pruned, and an alert empties it. */
    method RecordFailure(ip: string, now: real) returns (alert: Option<Alert>)
      requires Valid()
      modifies this
      ensures (failed, alert) == Step(old(failed), Some(ip), now)
      ensures Valid()
    {
      ghost var before := failed;
      var entries := if ip in failed then failed[ip] else [];
      entries := entries + [now];
      entries := KeepRecent(entries, Instant, now, Window);
      failed := failed[ip := entries];
      var attempts := |entries|;
      if attempts >= Threshold {
        alert := Some(Alert(ip, attempts));
        failed := failed[ip := []];
        assert failed == before[ip := []];
      } else {
        alert := None;
      }
      assert (failed, alert) == Step(before, Some(ip), now);
      StepKeepsBelow(before, Some(ip), now);
    }

    /** One message of the `main` loop: the raw message data, which the log
        adapter fills with the whole JSON payload, goes to `handle_log` as
        it is. */
    method OnMessage(data: string, now: real) returns (alert: Option<Alert>)
      requires Valid()
      modifies this
      ensures (failed, alert) == Step(old(failed), Match(data), now)
      ensures Valid()
    {
      alert := HandleLog(data, now);
    }
  }

  // ---------------------------------------------------------------------
  // Runs of the detector
  // ---------------------------------------------------------------------

  /** A processed message, reduced to the captured address (None when the
      pattern did not match), and the time it was processed. */
  type Event = (Option<string>, real)

  function Replay(failed: Failed, events: seq<Event>): Failed
    decreases |events|
  {
    if events == [] then failed
    else
      var e := events[|events| - 1];
      Step(Replay(failed, events[..|events| - 1]), e.0, e.1).0
  }

  lemma {:induction false} ReplayBelow(events: seq<Event>)
    ensures BelowThreshold(Replay(map[], events))
    decreases |events|
  {
    if events != [] {
      var e := events[|events| - 1];
      ReplayBelow(events[..|events| - 1]);
      StepKeepsBelow(Replay(map[], events[..|events| - 1]), e.0, e.1);
    }
  }

  /** From a fresh start, every alert of every run reports exactly five
      attempts. */
  lemma RunAlertsAreFive(events: seq<Event>, k: nat)
    requires k < |events|
    requires Step(Replay(map[], events[..k]), events[k].0, events[k].1).1.Some?
    ensures Step(Replay(map[], events[..k]), events[k].0, events[k].1).1.value.attempts == Threshold
  {
    ReplayBelow(events[..k]);
    AlertIsFive(Replay(map[], events[..k]), events[k].0, events[k].1);
  }
}
