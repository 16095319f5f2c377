/** The port-scan detector (detectors/portscan_detector.py): for every log
    line that records a connection attempt from an address to a port, it
    stores the pair (time, port) for that address, drops pairs older than
    three seconds, and publishes a grouped alert when ten or more distinct
    ports remain, at most once per three seconds per address. The buffer
    is not cleared when an alert fires. */
module PortscanDetector {
  import opened Wrappers
  import opened Text
  import opened Json
  import opened SlidingWindow

  const WindowSeconds: real := 3.0
  const PortThreshold: nat := 10

  // ---------------------------------------------------------------------
  // SCAN_PATTERN, applied with re.search:
  //   from (\d+\.\d+\.\d+\.\d+) on port (\d+)
  // ---------------------------------------------------------------------

  const FromSpace: string := "from "
  const OnPort: string := " on port "

  /** The pattern tried at index `i`: the address is four maximal digit
      runs (a shorter last run would leave a digit where the space of
      " on port " is needed) and the port is the maximal digit run after
      " on port ", read as a decimal number. */
  function ScanAt(s: string, i: nat): Option<(string, nat)>
    requires i <= |s|
  {
    if !OccursAt(s, FromSpace, i) then None
    else
      var a := i + |FromSpace|;
      match DottedRunsEnd(s, a, 4)
      case None => None
      case Some(e) =>
        if !OccursAt(s, OnPort, e) then None
        else
          var b := e + |OnPort|;
          var d := DigitRun(s, b);
          if d == 0 then None
          else
            DigitRunDigits(s, b);
            Some((s[a..e], DecimalValue(s[b..b + d])))
  }

  function ScanMatchesAt(s: string): nat -> bool {
    (i: nat) => i <= |s| && ScanAt(s, i).Some?
  }

  /** `SCAN_PATTERN.search(line)` reduced to its two groups, the port
      already converted by `int(...)`: the leftmost match wins. */
  function Match(s: string): Option<(string, nat)> {
    match FirstWhere(0, |s| + 1, ScanMatchesAt(s))
    case None => None
    case Some(i) => ScanAt(s, i)
  }

  /** The captured address is always a dotted quad. */
  lemma MatchIsQuad(s: string)
    requires Match(s).Some?
    ensures IsDottedQuad(Match(s).value.0)
  {
    var i := FirstWhere(0, |s| + 1, ScanMatchesAt(s)).value;
    var a := i + |FromSpace|;
    DottedQuadCapture(s, a, DottedRunsEnd(s, a, 4).value);
  }

  // ---------------------------------------------------------------------
  // Ports
  // ---------------------------------------------------------------------

  /** A buffered observation: (time, port). */
  type Seen = (real, nat)

  function SeenAt(e: Seen): real {
    e.0
  }

  /** Some buffered pair has port `x`. */
  predicate HasPort(buf: seq<Seen>, x: nat) {
    exists k :: 0 <= k < |buf| && buf[k].1 == x
  }

  predicate Increasing(xs: seq<nat>) {
    forall i, j :: 0 <= i < j < |xs| ==> xs[i] < xs[j]
  }

  /** Insertion into an increasing list, keeping it free of duplicates. */
  function InsertAscending(p: nat, xs: seq<nat>): (r: seq<nat>)
    requires Increasing(xs)
    ensures Increasing(r)
    ensures forall x :: x in r <==> x == p || x in xs
  {
    if xs == [] then [p]
    else if p < xs[0] then [p] + xs
    else if p == xs[0] then xs
    else
      var rest := InsertAscending(p, xs[1..]);
      var r := [xs[0]] + rest;
      assert forall x :: x in xs[1..] ==> xs[0] < x by {
        forall x | x in xs[1..] ensures xs[0] < x {
          var k :| 0 <= k < |xs[1..]| && xs[1..][k] == x;
          assert xs[k + 1] == x;
        }
      }
      assert forall j :: 0 < j < |r| ==> r[j] == rest[j - 1] && r[j] in rest;
      r
  }

  /** The set `{p for _, p in buffer}`, held as its elements in increasing
      order (which is also `sorted(list(...))` of it): its length is the
      number of distinct ports. */
  function PortsOnly(buf: seq<Seen>): (r: seq<nat>)
    ensures Increasing(r)
    ensures forall x :: x in r <==> HasPort(buf, x)
  {
    if buf == [] then []
    else
      var init := buf[..|buf| - 1];
      var last := buf[|buf| - 1].1;
      assert forall x :: HasPort(buf, x) <==> x == last || HasPort(init, x) by {
        forall x | HasPort(buf, x) && x != last ensures HasPort(init, x) {
          var k :| 0 <= k < |buf| && buf[k].1 == x;
          assert init[k].1 == x;
        }
        forall x | HasPort(init, x) ensures HasPort(buf, x) {
          var k :| 0 <= k < |init| && init[k].1 == x;
          assert buf[k].1 == x;
        }
      }
      InsertAscending(last, PortsOnly(init))
  }

  // ---------------------------------------------------------------------
  // Alerts
  // ---------------------------------------------------------------------

  /** What `publish_grouped_alert` is given: the address and the sorted
      ports. */
  datatype Alert = Alert(ip: string, ports: seq<nat>)

  function PortValues(ports: seq<nat>): seq<Value> {
    seq(|ports|, k requires 0 <= k < |ports| => Int(ports[k]))
  }

  /** The dict `publish_grouped_alert` sends on the "alerts" channel: no
      "id", severity "high", and a port count equal to the list's length. */
  function AlertMessage(a: Alert, timestamp: string): (v: Value)
    ensures v.Obj?
    ensures !HasKey(v.members, "id")
    ensures Lookup(v.members, "type") == Some(Str("portscan.group.alert"))
    ensures Lookup(v.members, "ip") == Some(Str(a.ip))
    ensures Lookup(v.members, "ports") == Some(Arr(PortValues(a.ports)))
    ensures Lookup(v.members, "total_ports") == Some(Int(|a.ports|))
    ensures Lookup(v.members, "severity") == Some(Str("high"))
  {
    var ms := [
      ("type", Str("portscan.group.alert")),
      ("ip", Str(a.ip)),
      ("ports", Arr(PortValues(a.ports))),
      ("total_ports", Int(|a.ports|)),
      ("severity", Str("high")),
      ("timestamp", Str(timestamp))
    ];
    LookupFinds(ms, "id");
    LookupFirst(ms, "type", 0);
    LookupFirst(ms, "ip", 1);
    LookupFirst(ms, "ports", 2);
    LookupFirst(ms, "total_ports", 3);
    LookupFirst(ms, "severity", 4);
    Obj(ms)
  }

  // ---------------------------------------------------------------------
  // port_buffer and last_alert_time
  // ---------------------------------------------------------------------

  type Buffer = map<string, seq<Seen>>

  /** `last_alert_time.get(ip, 0)`. */
  function LastAlert(last: map<string, real>, ip: string): real {
    if ip in last then last[ip] else 0.0
  }

  /** The two module-level dicts. */
  datatype State = State(buffer: Buffer, last: map<string, real>)

  /** The address's pairs after appending `(now, port)` and dropping what
      is older than the window. */
  function Pruned(buffer: Buffer, ip: string, port: nat, now: real): seq<Seen> {
    KeepRecent(Entries(buffer, ip) + [(now, port)], SeenAt, now, WindowSeconds)
  }

  /** `process_log` at time `now` once the pattern has been applied. */
  function Step(st: State, m: Option<(string, nat)>, now: real): (r: (State, Option<Alert>))
    ensures m.None? ==> r == (st, None)
    ensures m.Some? ==>
      var (ip, port) := m.value;
      && ip in r.0.buffer
      && var w := r.0.buffer[ip];
      && r.0.buffer == st.buffer[ip := w]
      && w == Pruned(st.buffer, ip, port, now)
      && w != [] && w[|w| - 1] == (now, port)
      && (forall k :: 0 <= k < |w| ==> now - w[k].0 <= WindowSeconds)
      && (r.1.Some? <==> |PortsOnly(w)| >= PortThreshold && now - LastAlert(st.last, ip) >= WindowSeconds)
      && (r.1.Some? ==> r.0.last == st.last[ip := now] && r.1.value == Alert(ip, PortsOnly(w)))
      && (r.1.None? ==> r.0.last == st.last)
  {
    match m
    case None => (st, None)
    case Some((ip, port)) =>
      var xs := Entries(st.buffer, ip) + [(now, port)];
      var w := Pruned(st.buffer, ip, port, now);
      assert xs[|xs| - 1] == (now, port);
      var buffer := st.buffer[ip := w];
      if |PortsOnly(w)| >= PortThreshold && now - LastAlert(st.last, ip) >= WindowSeconds then
        (State(buffer, st.last[ip := now]), Some(Alert(ip, PortsOnly(w))))
      else
        (State(buffer, st.last), None)
  }

  class Detector {
    var portBuffer: Buffer
    var lastAlertTime: map<string, real>

    constructor()
      ensures portBuffer == map[] && lastAlertTime == map[]
    {
      portBuffer := map[];
      lastAlertTime := map[];
    }

    /** `process_log(line)` at time `now`. */
    method ProcessLog(line: string, now: real) returns (alert: Option<Alert>)
      modifies this
      ensures (State(portBuffer, lastAlertTime), alert)
              == Step(State(old(portBuffer), old(lastAlertTime)), Match(line), now)
    {
      var m := Match(line);
      if m.None? {
        return None;
      }
      var (ip, port) := m.value;
      alert := RecordPort(ip, port, now);
    }

    /** The part of `process_log` after a match. */
    method RecordPort(ip: string, port: nat, now: real) returns (alert: Option<Alert>)
      modifies this
      ensures (State(portBuffer, lastAlertTime), alert)
              == Step(State(old(portBuffer), old(lastAlertTime)), Some((ip, port)), now)
    {
      var entries := if ip in portBuffer then portBuffer[ip] else [];
      entries := entries + [(now, port)];
      entries := KeepRecent(entries, SeenAt, now, WindowSeconds);
      portBuffer := portBuffer[ip := entries];
      var portsOnly := PortsOnly(portBuffer[ip]);
      alert := None;
      if |portsOnly| >= PortThreshold {
        var lastTime := LastAlert(lastAlertTime, ip);
        if now - lastTime >= WindowSeconds {
          alert := Some(Alert(ip, portsOnly));
          lastAlertTime := lastAlertTime[ip := now];
        }
      }
    }

    /** One message of the `main` loop: the raw message data goes to
        `process_log` as it is. */
    method OnMessage(data: string, now: real) returns (alert: Option<Alert>)
      modifies this
      ensures (State(portBuffer, lastAlertTime), alert)
              == Step(State(old(portBuffer), old(lastAlertTime)), Match(data), now)
    {
      alert := ProcessLog(data, now);
    }
  }

  // ---------------------------------------------------------------------
  // Runs of the detector
  // ---------------------------------------------------------------------

  /** A processed line, reduced to what the pattern captured (None when it
      did not match), and the time it was processed. */
  type Event = (Option<(string, nat)>, real)

  function Replay(st: State, events: seq<Event>): State
    decreases |events|
  {
    if events == [] then st
    else
      var e := events[|events| - 1];
      Step(Replay(st, events[..|events| - 1]), e.0, e.1).0
  }

  /** Event `i` of the run raises an alert for `ip`. */
  predicate AlertedAt(st: State, events: seq<Event>, i: nat, ip: string) {
    i < |events|
    && var r := Step(Replay(st, events[..i]), events[i].0, events[i].1);
    r.1.Some? && r.1.value.ip == ip
  }

  /** One step of the run, for the alert times: `last_alert_time[ip]`
      becomes the current time when `ip` alerts and stays put otherwise. */
  lemma LastAfterStep(st: State, m: Option<(string, nat)>, now: real, ip: string)
    ensures var r := Step(st, m, now);
            if r.1.Some? && r.1.value.ip == ip
            then ip in r.0.last && r.0.last[ip] == now && now - LastAlert(st.last, ip) >= WindowSeconds
            else LastAlert(r.0.last, ip) == LastAlert(st.last, ip) && (ip in st.last ==> ip in r.0.last)
  {
  }

  /** After any prefix of a run, `last_alert_time[ip]` is at or after the
      time of every alert for `ip` raised in that prefix. */
  lemma {:induction false} LastCoversAlerts(st: State, events: seq<Event>, ip: string, j: nat)
    requires j <= |events|
    ensures forall i :: 0 <= i < j && AlertedAt(st, events, i, ip) ==>
              ip in Replay(st, events[..j]).last && Replay(st, events[..j]).last[ip] >= events[i].1
  {
    if j > 0 {
      LastCoversAlerts(st, events, ip, j - 1);
      var prev := Replay(st, events[..j - 1]);
      var e := events[j - 1];
      assert events[..j][..j - 1] == events[..j - 1];
      var next := Replay(st, events[..j]);
      assert next == Step(prev, e.0, e.1).0;
      LastAfterStep(prev, e.0, e.1, ip);
      assert ip in prev.last ==> ip in next.last && next.last[ip] >= prev.last[ip];
      forall i | 0 <= i < j && AlertedAt(st, events, i, ip)
        ensures ip in next.last && next.last[ip] >= events[i].1
      {
        if i == j - 1 {
          assert events[..i] == events[..j - 1];
        }
      }
    }
  }

  /** Any two alerts for the same address are at least three seconds
      apart, whatever the clock does in between: the later one needs three
      seconds since `last_alert_time[ip]`, which is no earlier than the
      earlier alert. */
  lemma AlertsSpaced(st: State, events: seq<Event>, i: nat, j: nat, ip: string)
    requires i < j
    requires AlertedAt(st, events, i, ip) && AlertedAt(st, events, j, ip)
    ensures events[j].1 - events[i].1 >= WindowSeconds
  {
    LastCoversAlerts(st, events, ip, j);
    LastAfterStep(Replay(st, events[..j]), events[j].0, events[j].1, ip);
  }
}
