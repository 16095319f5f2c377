/** The persisted system state (state/state_manager.py): the list of
    blocked addresses, the alert and decision counters and a description
    of the last action, held in one record that the `State` object
    updates in place. Reading and writing the state file is not part of
    this model. */
module StateManager {
  import opened Wrappers
  import opened Json

  /** The `data` dict: "blocked_ips", "total_alerts", "total_decisions"
      and "last_action" (None until an address is blocked). An address is
      whatever value the action carried under "ip". */
  datatype Data = Data(blockedIps: seq<Value>, totalAlerts: nat, totalDecisions: nat, lastAction: Option<string>)

  /** The defaults `__init__` writes before loading the file. */
  const Initial: Data := Data([], 0, 0, None)

  predicate NoDuplicates(xs: seq<Value>) {
    forall i, j :: 0 <= i < j < |xs| ==> xs[i] != xs[j]
  }

  /** `add_blocked_ip` on the record: an absent address is appended and
      recorded as the last action; a present one changes nothing. */
  function WithBlocked(d: Data, ip: Value): (r: Data)
    ensures ip in d.blockedIps ==> r == d
    ensures ip !in d.blockedIps ==>
              r == d.(blockedIps := d.blockedIps + [ip], lastAction := Some("Blocked " + Display(ip)))
  {
    if ip in d.blockedIps then d
    else d.(blockedIps := d.blockedIps + [ip], lastAction := Some("Blocked " + Display(ip)))
  }

  /** `increase_alert_count` on the record. */
  function WithAlertCounted(d: Data): (r: Data)
    ensures r.totalAlerts == d.totalAlerts + 1
    ensures r.(totalAlerts := d.totalAlerts) == d
  {
    d.(totalAlerts := d.totalAlerts + 1)
  }

  /** `increase_decision_count` on the record. */
  function WithDecisionCounted(d: Data): (r: Data)
    ensures r.totalDecisions == d.totalDecisions + 1
    ensures r.(totalDecisions := d.totalDecisions) == d
  {
    d.(totalDecisions := d.totalDecisions + 1)
  }

  /** Adding an address keeps the list free of duplicates, and afterwards
      the list holds exactly the old addresses and the new one. */
  lemma BlockedStaysDistinct(d: Data, ip: Value)
    requires NoDuplicates(d.blockedIps)
    ensures NoDuplicates(WithBlocked(d, ip).blockedIps)
    ensures forall x :: x in WithBlocked(d, ip).blockedIps <==> x in d.blockedIps || x == ip
  {
    if ip !in d.blockedIps {
      var xs := d.blockedIps + [ip];
      forall i, j | 0 <= i < j < |xs| ensures xs[i] != xs[j] {
        if j == |xs| - 1 {
          assert xs[i] in d.blockedIps;
        }
      }
    }
  }

  /** Blocking the same address twice is blocking it once. */
  lemma BlockIdempotent(d: Data, ip: Value)
    ensures WithBlocked(WithBlocked(d, ip), ip) == WithBlocked(d, ip)
  {
    assert ip in WithBlocked(d, ip).blockedIps by {
      if ip !in d.blockedIps {
        assert WithBlocked(d, ip).blockedIps[|d.blockedIps|] == ip;
      }
    }
  }

  /** The in-memory `State` object. */
  class State {
    var data: Data

    predicate Valid()
      reads this
    {
      NoDuplicates(data.blockedIps)
    }

    /** `__init__` without the file: every field at its default. */
    constructor ()
      ensures data == Initial
      ensures Valid()
    {
      data := Initial;
    }

    /** `add_blocked_ip(ip)`: append the address unless it is listed. */
    method AddBlockedIp(ip: Value)
      requires Valid()
      modifies this
      ensures data == WithBlocked(old(data), ip)
      ensures Valid()
    {
      BlockedStaysDistinct(data, ip);
      if ip !in data.blockedIps {
        data := data.(blockedIps := data.blockedIps + [ip]);
        data := data.(lastAction := Some("Blocked " + Display(ip)));
      }
    }

    /** `increase_alert_count()`. */
    method IncreaseAlertCount()
      requires Valid()
      modifies this
      ensures data == WithAlertCounted(old(data))
      ensures Valid()
    {
      data := data.(totalAlerts := data.totalAlerts + 1);
    }

    /** `increase_decision_count()`. */
    method IncreaseDecisionCount()
      requires Valid()
      modifies this
      ensures data == WithDecisionCounted(old(data))
      ensures Valid()
    {
      data := data.(totalDecisions := data.totalDecisions + 1);
    }

    /** `get()`: the current record. */
    function Get(): Data
      reads this
    {
      data
    }
  }
}
