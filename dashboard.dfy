/** The dashboard's in-memory store (dashboard/api.py): the last 1000
    alerts in arrival order, rolling counters by type and by severity, the
    selection rule of the alerts endpoint and the block request it turns
    into an action. The web layer and the Redis listener are not part of
    this model. */
module Dashboard {
  import opened Wrappers
  import opened Text
  import opened Json
  import opened Counting

  /** `MAX_ALERTS`. */
  const MaxAlerts: nat := 1000

  /** `ENQUEUE_ACTIONS`: block requests are never published. */
  const EnqueueActions: bool := false

  // ---------------------------------------------------------------------
  // The alert buffer
  // ---------------------------------------------------------------------

  /** `ALERTS.append(alert)` followed by `ALERTS.pop(0)` when the list has
      grown past the bound: the buffer grows by one until it is full, then
      keeps its length; it ends with the new alert, and before it holds
      the newest part of the old buffer in order, having lost at most the
      oldest alert. */
  function Buffered(alerts: seq<Members>, alert: Members): (r: seq<Members>)
    ensures |r| == (if |alerts| < MaxAlerts then |alerts| + 1 else |alerts|)
    ensures r[|r| - 1] == alert
    ensures r[..|r| - 1] == alerts[|alerts| + 1 - |r|..]
  {
    var grown := alerts + [alert];
    if |grown| > MaxAlerts then grown[1..] else grown
  }

  /** The alert as stored: `received_at` is added only when absent. */
  function Received(alert: Members, now: string): (r: Members)
    ensures HasKey(alert, "received_at") ==> r == alert
    ensures !HasKey(alert, "received_at") ==> r == alert + [("received_at", Str(now))]
  {
    SetDefault(alert, "received_at", Str(now))
  }

  // ---------------------------------------------------------------------
  // The counters
  // ---------------------------------------------------------------------

  /** `STATS`. Counters are keyed by the decoded value found under "type"
      or "severity". */
  datatype Stats = Stats(total: nat, byType: map<Value, nat>, bySeverity: map<Value, nat>)

  /** A value Python can use as a dict key: lists and dicts cannot. */
  predicate Hashable(v: Value) {
    !v.Arr? && !v.Obj?
  }

  /** The counter updates of `add_alert`. An unhashable type stops the
      function (inside the listener's `try`) after `total` has moved, and
      an unhashable severity after `by_type` has moved. */
  function Counted(st: Stats, alert: Members): (r: Stats)
    ensures r.total == st.total + 1
    ensures var t := LookupOr(alert, "type", Str("unknown"));
            forall v :: Count(r.byType, v) == Count(st.byType, v) + (if v == t && Hashable(t) then 1 else 0)
    ensures var t := LookupOr(alert, "type", Str("unknown"));
            var s := LookupOr(alert, "severity", Str("unknown"));
            forall v :: Count(r.bySeverity, v) ==
                          Count(st.bySeverity, v) + (if v == s && Hashable(t) && Hashable(s) then 1 else 0)
  {
    var t := LookupOr(alert, "type", Str("unknown"));
    var s := LookupOr(alert, "severity", Str("unknown"));
    var st1 := st.(total := st.total + 1);
    if !Hashable(t) then st1
    else
      var st2 := st1.(byType := Bump(st1.byType, t));
      if !Hashable(s) then st2 else st2.(bySeverity := Bump(st2.bySeverity, s))
  }

  /** Every alert moves the total by one; an alert whose type and
      severity can be dict keys moves one counter in each map, so the
      counters keep summing to the total. */
  lemma CountedKeepsSums(st: Stats, alert: Members)
    requires Sum(st.byType) == st.total && Sum(st.bySeverity) == st.total
    requires Hashable(LookupOr(alert, "type", Str("unknown")))
    requires Hashable(LookupOr(alert, "severity", Str("unknown")))
    ensures var r := Counted(st, alert);
            && r.total == st.total + 1
            && Sum(r.byType) == r.total && Sum(r.bySeverity) == r.total
            && Count(r.byType, LookupOr(alert, "type", Str("unknown")))
               == Count(st.byType, LookupOr(alert, "type", Str("unknown"))) + 1
            && Count(r.bySeverity, LookupOr(alert, "severity", Str("unknown")))
               == Count(st.bySeverity, LookupOr(alert, "severity", Str("unknown"))) + 1
  {
    BumpSum(st.byType, LookupOr(alert, "type", Str("unknown")));
    BumpSum(st.bySeverity, LookupOr(alert, "severity", Str("unknown")));
  }

  /** Whatever the alert, no counter exceeds the total when none did. */
  lemma CountedBounded(st: Stats, alert: Members)
    requires Sum(st.byType) <= st.total && Sum(st.bySeverity) <= st.total
    ensures var r := Counted(st, alert);
            r.total == st.total + 1 && Sum(r.byType) <= r.total && Sum(r.bySeverity) <= r.total
  {
    BumpSum(st.byType, LookupOr(alert, "type", Str("unknown")));
    BumpSum(st.bySeverity, LookupOr(alert, "severity", Str("unknown")));
  }

  // ---------------------------------------------------------------------
  // get_alerts
  // ---------------------------------------------------------------------

  /** Python's `xs[start:]` for any integer `start`: a negative start
      counts from the end and is clipped at 0. */
  function SliceFrom<T>(xs: seq<T>, start: int): (r: seq<T>)
    ensures |r| <= |xs| && r == xs[|xs| - |r|..]
  {
    if start < 0 then
      (if |xs| + start < 0 then xs else xs[|xs| + start..])
    else if start > |xs| then []
    else xs[start..]
  }

  /** `list(reversed(xs))`. */
  function Reversed<T>(xs: seq<T>): (r: seq<T>)
    ensures |r| == |xs|
    ensures forall i :: 0 <= i < |xs| ==> r[i] == xs[|xs| - 1 - i]
  {
    if xs == [] then [] else [xs[|xs| - 1]] + Reversed(xs[..|xs| - 1])
  }

  /** `a.get("received_at", "")`. */
  function ReceivedAt(a: Members): Value {
    LookupOr(a, "received_at", Str(""))
  }

  /** The alerts received strictly after `since`, compared as strings,
      in their order. */
  function After(xs: seq<Members>, since: string): (r: seq<Members>)
    requires forall k :: 0 <= k < |xs| ==> ReceivedAt(xs[k]).Str?
    ensures |r| <= |xs|
  {
    if xs == [] then []
    else
      var rest := After(xs[1..], since);
      if Less(since, ReceivedAt(xs[0]).s) then [xs[0]] + rest else rest
  }

  /** The filter keeps an alert exactly when it was received after
      `since`. */
  lemma {:induction false} AfterMembers(xs: seq<Members>, since: string)
    requires forall k :: 0 <= k < |xs| ==> ReceivedAt(xs[k]).Str?
    ensures forall a :: a in After(xs, since) <==> a in xs && Less(since, ReceivedAt(a).s)
  {
    if xs != [] {
      AfterMembers(xs[1..], since);
      assert xs == [xs[0]] + xs[1..];
    }
  }

  /** An alert counts as received after `since` when its `received_at`
      is a string that compares greater. */
  predicate ReceivedAfter(a: Members, since: string) {
    ReceivedAt(a).Str? && Less(since, ReceivedAt(a).s)
  }

  /** The positions of the alerts received after `since`, oldest first:
      each such position exactly once, in increasing order. */
  function KeptPositions(xs: seq<Members>, since: string): (r: seq<nat>)
    ensures forall i :: 0 <= i < |r| ==> r[i] < |xs|
    ensures forall i, j :: 0 <= i < j < |r| ==> r[i] < r[j]
    ensures forall k :: 0 <= k < |xs| ==> (k in r <==> ReceivedAfter(xs[k], since))
  {
    if xs == [] then []
    else
      var n := |xs| - 1;
      KeptPositions(xs[..n], since) + (if ReceivedAfter(xs[n], since) then [n] else [])
  }

  /** An alert appended to the list is kept at the end of the filtered
      list, or dropped: the filter never reorders. */
  lemma {:induction false} AfterSnoc(xs: seq<Members>, a: Members, since: string)
    requires forall k :: 0 <= k < |xs| ==> ReceivedAt(xs[k]).Str?
    requires ReceivedAt(a).Str?
    ensures After(xs + [a], since) == After(xs, since) + (if Less(since, ReceivedAt(a).s) then [a] else [])
  {
    if xs != [] {
      assert (xs + [a])[0] == xs[0];
      assert (xs + [a])[1..] == xs[1..] + [a];
      AfterSnoc(xs[1..], a, since);
    }
  }

  /** The filtered list is the list read at the kept positions, in their
      order. */
  lemma {:induction false} AfterAtPositions(xs: seq<Members>, since: string)
    requires forall k :: 0 <= k < |xs| ==> ReceivedAt(xs[k]).Str?
    ensures var kept := KeptPositions(xs, since);
            |After(xs, since)| == |kept| && forall i :: 0 <= i < |kept| ==> After(xs, since)[i] == xs[kept[i]]
  {
    if xs != [] {
      var n := |xs| - 1;
      var init := xs[..n];
      AfterAtPositions(init, since);
      assert xs == init + [xs[n]];
      AfterSnoc(init, xs[n], since);
    }
  }

  /** `get_alerts` with `limit` (already an int) and `since` (None when
      absent): the newest `limit` alerts, filtered on `received_at` when
      `since` is a non-empty string, newest first. A `received_at` that is
      not a string makes the comparison raise, and the `except` keeps the
      unfiltered list. */
  function GetAlerts(alerts: seq<Members>, limit: int, since: Option<string>): seq<Members> {
    var data := SliceFrom(alerts, -limit);
    if since.Some? && since.value != [] && forall k :: 0 <= k < |data| ==> ReceivedAt(data[k]).Str? then
      Reversed(After(data, since.value))
    else Reversed(data)
  }

  /** Without a filter, a positive limit gives the newest `limit` alerts
      newest first, and a limit of 0 gives the whole buffer. */
  lemma GetAlertsNewestFirst(alerts: seq<Members>, limit: int)
    requires limit >= 0
    ensures var r := GetAlerts(alerts, limit, None);
            var n := if limit == 0 || limit > |alerts| then |alerts| else limit;
            |r| == n && forall i :: 0 <= i < n ==> r[i] == alerts[|alerts| - 1 - i]
  {
  }

  /** With a filter, exactly the alerts among the newest `limit` that were
      received after `since` are returned. */
  lemma GetAlertsSince(alerts: seq<Members>, limit: int, since: string)
    requires since != []
    requires forall k :: 0 <= k < |alerts| ==> ReceivedAt(alerts[k]).Str?
    ensures forall a :: a in GetAlerts(alerts, limit, Some(since)) <==>
                          a in SliceFrom(alerts, -limit) && Less(since, ReceivedAt(a).s)
  {
    var data := SliceFrom(alerts, -limit);
    SliceStrings(alerts, limit);
    var kept := After(data, since);
    assert GetAlerts(alerts, limit, Some(since)) == Reversed(kept);
    AfterMembers(data, since);
    ReversedMembers(kept);
  }

  /** With a filter, the kept alerts come newest first and each occurrence
      once: the i-th result is the alert at the i-th kept position of the
      newest `limit`, counted from the end. */
  lemma GetAlertsSinceNewestFirst(alerts: seq<Members>, limit: int, since: string)
    requires since != []
    requires forall k :: 0 <= k < |alerts| ==> ReceivedAt(alerts[k]).Str?
    ensures var data := SliceFrom(alerts, -limit);
            var kept := KeptPositions(data, since);
            var r := GetAlerts(alerts, limit, Some(since));
            |r| == |kept| && forall i :: 0 <= i < |r| ==> r[i] == data[kept[|kept| - 1 - i]]
  {
    var data := SliceFrom(alerts, -limit);
    SliceStrings(alerts, limit);
    GetAlertsFiltered(alerts, limit, since, data);
    AfterAtPositions(data, since);
    ReversedPositions(After(data, since), data, KeptPositions(data, since));
  }

  /** With a filter and string timestamps, the result is the filtered
      newest `limit` alerts, reversed. */
  lemma GetAlertsFiltered(alerts: seq<Members>, limit: int, since: string, data: seq<Members>)
    requires since != [] && data == SliceFrom(alerts, -limit)
    requires forall k :: 0 <= k < |data| ==> ReceivedAt(data[k]).Str?
    ensures GetAlerts(alerts, limit, Some(since)) == Reversed(After(data, since))
  {
  }

  /** A list read at some positions, reversed, is the list read at those
      positions taken from the last. */
  lemma ReversedPositions<T>(xs: seq<T>, data: seq<T>, kept: seq<nat>)
    requires |xs| == |kept|
    requires forall i :: 0 <= i < |kept| ==> kept[i] < |data| && xs[i] == data[kept[i]]
    ensures var r := Reversed(xs);
            |r| == |kept| && forall i :: 0 <= i < |r| ==> r[i] == data[kept[|kept| - 1 - i]]
  {
  }

  /** The newest `limit` alerts all have a string `received_at` when the
      whole buffer does. */
  lemma SliceStrings(alerts: seq<Members>, limit: int)
    requires forall k :: 0 <= k < |alerts| ==> ReceivedAt(alerts[k]).Str?
    ensures var data := SliceFrom(alerts, -limit);
            forall k :: 0 <= k < |data| ==> ReceivedAt(data[k]).Str?
  {
    var data := SliceFrom(alerts, -limit);
    forall k | 0 <= k < |data| ensures ReceivedAt(data[k]).Str? {
      assert data[k] == alerts[|alerts| - |data| + k];
    }
  }

  /** Reversing keeps the elements. */
  lemma ReversedMembers<T>(xs: seq<T>)
    ensures forall a :: a in Reversed(xs) <==> a in xs
  {
    var r := Reversed(xs);
    forall a ensures a in r <==> a in xs {
      if a in r {
        var i :| 0 <= i < |r| && r[i] == a;
        assert xs[|xs| - 1 - i] == a;
      }
      if a in xs {
        var j :| 0 <= j < |xs| && xs[j] == a;
        assert r[|xs| - 1 - j] == a;
      }
    }
  }

  // ---------------------------------------------------------------------
  // block_ip
  // ---------------------------------------------------------------------

  /** What the block endpoint answers. */
  datatype BlockResponse = MissingIp | Accepted(action: Value) | ServerError

  /** `block_ip()` given the decoded body (None when it is not JSON) and
      the timestamp text. A falsy body counts as `{}`; a truthy body that
      is not a dict makes `.get` raise. */
  function BlockIp(body: Option<Value>, ts: string): (r: BlockResponse)
    ensures r.MissingIp? <==>
              body.None? || !Truthy(body.value) || (body.value.Obj? && !Truthy(LookupOr(body.value.members, "ip", Null)))
    ensures r.ServerError? <==> body.Some? && Truthy(body.value) && !body.value.Obj?
    ensures r.Accepted? <==> body.Some? && body.value.Obj? && Truthy(LookupOr(body.value.members, "ip", Null))
    ensures r.Accepted? ==>
              && r.action.Obj?
              && Lookup(r.action.members, "name") == Some(Str("block_ip"))
              && Lookup(r.action.members, "params") ==
                   Some(Obj([("ip", LookupOr(body.value.members, "ip", Null)),
                             ("reason", LookupOr(body.value.members, "reason", Str("blocked via dashboard")))]))
              && Lookup(r.action.members, "meta") == Some(Obj([("source", Str("dashboard")), ("ts", Str(ts))]))
  {
    var b := if body.None? || !Truthy(body.value) then Obj([]) else body.value;
    if !b.Obj? then ServerError
    else
      var ip := LookupOr(b.members, "ip", Null);
      var reason := LookupOr(b.members, "reason", Str("blocked via dashboard"));
      if !Truthy(ip) then MissingIp
      else
        var action := Obj([
          ("name", Str("block_ip")),
          ("params", Obj([("ip", ip), ("reason", reason)])),
          ("meta", Obj([("source", Str("dashboard")), ("ts", Str(ts))]))
        ]);
        LookupFirst(action.members, "name", 0);
        LookupFirst(action.members, "params", 1);
        LookupFirst(action.members, "meta", 2);
        Accepted(action)
  }

  // ---------------------------------------------------------------------
  // The store
  // ---------------------------------------------------------------------

  /** `get_stats()`'s numbers. */
  datatype StatsReport = StatsReport(totalReceived: nat, currentBuffer: nat, byType: map<Value, nat>, bySeverity: map<Value, nat>)

  /** `ALERTS` and `STATS`. */
  class Store {
    var alerts: seq<Members>
    var stats: Stats

    predicate Valid()
      reads this
    {
      |alerts| <= MaxAlerts
    }

    constructor ()
      ensures alerts == [] && stats == Stats(0, map[], map[])
      ensures Valid()
    {
      alerts := [];
      stats := Stats(0, map[], map[]);
    }

    /** `add_alert(alert)`, with the clock's text for `received_at`. */
    method AddAlert(alert: Members, now: string)
      requires Valid()
      modifies this
      ensures alerts == Buffered(old(alerts), Received(alert, now))
      ensures stats == Counted(old(stats), Received(alert, now))
      ensures Valid()
    {
      var a := SetDefault(alert, "received_at", Str(now));
      alerts := alerts + [a];
      if |alerts| > MaxAlerts {
        alerts := alerts[1..];
      }
      stats := stats.(total := stats.total + 1);
      var t := LookupOr(a, "type", Str("unknown"));
      var s := LookupOr(a, "severity", Str("unknown"));
      if !Hashable(t) {
        return;
      }
      stats := stats.(byType := stats.byType[t := Count(stats.byType, t) + 1]);
      if !Hashable(s) {
        return;
      }
      stats := stats.(bySeverity := stats.bySeverity[s := Count(stats.bySeverity, s) + 1]);
    }

    /** `get_stats()`. */
    function GetStats(): (r: StatsReport)
      requires Valid()
      reads this
      ensures r.currentBuffer == |alerts| <= MaxAlerts
      ensures r.totalReceived == stats.total
    {
      StatsReport(stats.total, |alerts|, stats.byType, stats.bySeverity)
    }
  }
}
