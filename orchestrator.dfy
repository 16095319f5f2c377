/** The router (orchestrator/orchestrator.py): alerts become the
    seven-field context sent to the learner, and actions coming back are
    deduplicated by fingerprint in the Redis key space before they update
    the shared state. */
module Orchestrator {
  import opened Wrappers
  import opened Json
  import opened KeySpace
  import opened Dedup
  import opened StateManager

  /** `DEDUP_TTL`, in seconds. */
  const DedupTtl: real := 30.0

  const KeyPrefix: string := "orch:dedupe:"

  /** `f"orch:dedupe:{fp}"`. */
  function DedupKey(fp: string): string {
    KeyPrefix + fp
  }

  // ---------------------------------------------------------------------
  // process_alert
  // ---------------------------------------------------------------------

  /** What `process_alert` does with one message: drop invalid JSON, stop
      on `alert['id']` when there is no such key (or the value is not a
      dict at all), or build the context. */
  datatype AlertOutcome = Invalid | Crashed | Built(context: Value)

  const ContextFields: seq<string> := ["id", "type", "source", "severity", "ip", "stage", "attempts"]

  /** The context dict, from the alert's members. */
  function ContextOf(ms: Members): Value
    requires HasKey(ms, "id")
  {
    LookupFinds(ms, "id");
    Obj([
      ("id", Lookup(ms, "id").value),
      ("type", LookupOr(ms, "type", Str("unknown"))),
      ("source", LookupOr(ms, "source", Str("detector"))),
      ("severity", LookupOr(ms, "severity", Str("low"))),
      ("ip", LookupOr(ms, "ip", Null)),
      ("stage", LookupOr(ms, "stage", Str(""))),
      ("attempts", LookupOr(ms, "attempts", Int(0)))
    ])
  }

  /** `process_alert(raw)`, given what `json.loads(raw)` returned (None
      when it raised). */
  function ProcessAlertOutcome(parsed: Option<Value>): (r: AlertOutcome)
    ensures r.Invalid? <==> parsed.None?
    ensures r.Built? <==> parsed.Some? && parsed.value.Obj? && HasKey(parsed.value.members, "id")
  {
    match parsed
    case None => Invalid
    case Some(alert) =>
      if alert.Obj? && HasKey(alert.members, "id") then Built(ContextOf(alert.members))
      else Crashed
  }

  /** The context has exactly the seven keys, each once. */
  lemma ContextKeys(ms: Members)
    requires HasKey(ms, "id")
    ensures ContextOf(ms).Obj? && DistinctKeys(ContextOf(ms).members)
    ensures forall k :: HasKey(ContextOf(ms).members, k) <==> k in ContextFields
  {
    var cs := ContextOf(ms).members;
    forall k ensures HasKey(cs, k) <==> k in ContextFields {
      if HasKey(cs, k) {
        var i :| 0 <= i < |cs| && cs[i].0 == k;
        assert k == ContextFields[i];
      }
      if k in ContextFields {
        var i :| 0 <= i < |ContextFields| && ContextFields[i] == k;
        assert cs[i].0 == k;
      }
    }
  }

  /** Each key of the context holds the alert's value or its default. */
  lemma ContextValues(ms: Members)
    requires HasKey(ms, "id")
    ensures ContextOf(ms).Obj?
    ensures Lookup(ContextOf(ms).members, "id") == Lookup(ms, "id")
    ensures Lookup(ContextOf(ms).members, "type") == Some(LookupOr(ms, "type", Str("unknown")))
    ensures Lookup(ContextOf(ms).members, "source") == Some(LookupOr(ms, "source", Str("detector")))
    ensures Lookup(ContextOf(ms).members, "severity") == Some(LookupOr(ms, "severity", Str("low")))
    ensures Lookup(ContextOf(ms).members, "ip") == Some(LookupOr(ms, "ip", Null))
    ensures Lookup(ContextOf(ms).members, "stage") == Some(LookupOr(ms, "stage", Str("")))
    ensures Lookup(ContextOf(ms).members, "attempts") == Some(LookupOr(ms, "attempts", Int(0)))
  {
    LookupFinds(ms, "id");
    var cs := ContextOf(ms).members;
    LookupFirst(cs, "id", 0);
    LookupFirst(cs, "type", 1);
    LookupFirst(cs, "source", 2);
    LookupFirst(cs, "severity", 3);
    LookupFirst(cs, "ip", 4);
    LookupFirst(cs, "stage", 5);
    LookupFirst(cs, "attempts", 6);
  }

  /** A built context is a non-empty dict, so `if context:` in `main`
      always sends it on. */
  lemma ContextAlwaysSent(parsed: Option<Value>)
    requires ProcessAlertOutcome(parsed).Built?
    ensures Truthy(ProcessAlertOutcome(parsed).context)
  {
  }

  /** The alert counter moves exactly when a context is built. */
  function AlertCounted(d: Data, parsed: Option<Value>): (r: Data)
    ensures ProcessAlertOutcome(parsed).Built? ==> r.totalAlerts == d.totalAlerts + 1
    ensures !ProcessAlertOutcome(parsed).Built? ==> r == d
    ensures r.blockedIps == d.blockedIps && r.totalDecisions == d.totalDecisions
  {
    if ProcessAlertOutcome(parsed).Built? then WithAlertCounted(d) else d
  }

  // ---------------------------------------------------------------------
  // handle_action
  // ---------------------------------------------------------------------

  /** How the `setnx`/`expire` pair in the `try` ends: both answer, `setnx`
      raises (nothing is written), or `expire` raises after `setnx` wrote
      the key (which then never expires). */
  datatype RedisFault = Healthy | SetFails | ExpireFails

  /** The dedup block: the new key store and whether processing goes on.
      An exception from Redis is printed and processing goes on as for a
      new action. */
  function Deduplicate(keys: Store, key: string, now: real, fault: RedisFault): (r: (Store, bool))
  {
    match fault
    case Healthy => Claim(keys, key, now, DedupTtl)
    case SetFails => (keys, true)
    case ExpireFails => SetIfAbsent(keys, key, now)
  }

  /** The action handler after the decision count: only a "block_ip"
      whose "params" is a dict holding "ip" changes the state. Every other
      shape raises inside the `try` or falls through: "alert_admin" calls
      a method `State` does not have, so nothing is stored. */
  function Dispatch(d: Data, action: Value): (r: Data)
    ensures r.totalAlerts == d.totalAlerts && r.totalDecisions == d.totalDecisions
    ensures (forall x :: x in d.blockedIps ==> x in r.blockedIps)
    ensures |r.blockedIps| <= |d.blockedIps| + 1
    ensures BlockTarget(action).None? ==> r == d
    ensures BlockTarget(action).Some? ==> BlockTarget(action).value in r.blockedIps
    ensures BlockTarget(action).Some? ==> r == WithBlocked(d, BlockTarget(action).value)
  {
    match BlockTarget(action)
    case None => d
    case Some(ip) => WithBlocked(d, ip)
  }

  /** `action["params"]["ip"]` when `action.get("name") == "block_ip"`
      and neither subscript raises. */
  function BlockTarget(action: Value): Option<Value> {
    if action.Obj? && Lookup(action.members, "name") == Some(Str("block_ip")) then
      match Lookup(action.members, "params")
      case Some(Obj(ps)) => Lookup(ps, "ip")
      case _ => None
    else None
  }

  /** `handle_action(raw)` on the key store and the state record, given
      what `json.loads(raw)` returned and how Redis behaves. */
  function HandleStep(keys: Store, d: Data, parsed: Option<Value>, now: real, fault: RedisFault,
                      sha1: string -> string): (r: (Store, Data))
  {
    match parsed
    case None => (keys, d)
    case Some(action) =>
      var (after, proceed) := Deduplicate(keys, DedupKey(Fingerprint(action, sha1)), now, fault);
      if proceed then (after, Dispatch(WithDecisionCounted(d), action)) else (after, d)
  }

  /** Invalid JSON changes nothing. An action whose key is not live is
      counted once and dispatched; one whose key is live is dropped with
      state and keys untouched (unless `setnx` itself fails). */
  lemma HandleStepEffect(keys: Store, d: Data, action: Value, now: real, fault: RedisFault, sha1: string -> string)
    ensures HandleStep(keys, d, None, now, fault, sha1) == (keys, d)
    ensures var key := DedupKey(Fingerprint(action, sha1));
            var r := HandleStep(keys, d, Some(action), now, fault, sha1);
            && (fault.SetFails? ==> r == (keys, Dispatch(WithDecisionCounted(d), action)))
            && (!fault.SetFails? && Live(keys, key, now) ==> r == (keys, d))
            && (!fault.SetFails? && !Live(keys, key, now) ==> r.1 == Dispatch(WithDecisionCounted(d), action))
            && (fault.Healthy? && !Live(keys, key, now) ==> r.0 == keys[key := ExpiresAt(now + DedupTtl)])
            && (fault.ExpireFails? && !Live(keys, key, now) ==> r.0 == keys[key := Persistent])
  {
    ClaimEffect(keys, DedupKey(Fingerprint(action, sha1)), now, DedupTtl);
  }

  /** An accepted action blocks every copy of itself, and every action
      equal to it up to key order, for the next 30 seconds: those copies
      change neither the keys nor the state. */
  lemma DuplicateWithinTtlIgnored(keys: Store, d: Data, a: Value, b: Value, now: real, later: real,
                                  fault: RedisFault, sha1: string -> string)
    requires WellFormed(a) && WellFormed(b) && SameUpToKeyOrder(a, b)
    requires !Live(keys, DedupKey(Fingerprint(a, sha1)), now)
    requires now <= later <= now + DedupTtl && !fault.SetFails?
    ensures var (k1, d1) := HandleStep(keys, d, Some(a), now, Healthy, sha1);
            HandleStep(k1, d1, Some(b), later, fault, sha1) == (k1, d1)
  {
    FingerprintIgnoresKeyOrder(a, b, sha1);
    var key := DedupKey(Fingerprint(a, sha1));
    ClaimEffect(keys, key, now, DedupTtl);
    var (k1, d1) := HandleStep(keys, d, Some(a), now, Healthy, sha1);
    assert Live(k1, key, later);
  }

  /** Once the 30 seconds have passed, the same action is accepted and
      counted again. */
  lemma AcceptedAgainAfterTtl(keys: Store, d: Data, a: Value, now: real, later: real, sha1: string -> string)
    requires !Live(keys, DedupKey(Fingerprint(a, sha1)), now)
    requires later > now + DedupTtl
    ensures var (k1, d1) := HandleStep(keys, d, Some(a), now, Healthy, sha1);
            HandleStep(k1, d1, Some(a), later, Healthy, sha1).1 == Dispatch(WithDecisionCounted(d1), a)
  {
    var key := DedupKey(Fingerprint(a, sha1));
    ClaimEffect(keys, key, now, DedupTtl);
    var (k1, d1) := HandleStep(keys, d, Some(a), now, Healthy, sha1);
    assert !Live(k1, key, later);
    ClaimEffect(k1, key, later, DedupTtl);
  }

  /** When `expire` fails after `setnx` wrote the key, the key never
      expires: the same action is ignored at every later time. */
  lemma ExpireFailureBlocksForever(keys: Store, d: Data, a: Value, now: real, later: real,
                                   fault: RedisFault, sha1: string -> string)
    requires !Live(keys, DedupKey(Fingerprint(a, sha1)), now)
    requires !fault.SetFails?
    ensures var (k1, d1) := HandleStep(keys, d, Some(a), now, ExpireFails, sha1);
            HandleStep(k1, d1, Some(a), later, fault, sha1) == (k1, d1)
  {
    var key := DedupKey(Fingerprint(a, sha1));
    var (k1, d1) := HandleStep(keys, d, Some(a), now, ExpireFails, sha1);
    assert k1 == keys[key := Persistent];
    assert Live(k1, key, later);
  }

  /** The decision count moves by one exactly when the action gets past
      deduplication, whatever its name ("monitor" and unknown names
      included); the alert count never moves. */
  lemma DecisionCountedOnce(keys: Store, d: Data, parsed: Option<Value>, now: real, fault: RedisFault,
                            sha1: string -> string)
    ensures var r := HandleStep(keys, d, parsed, now, fault, sha1);
            && r.1.totalAlerts == d.totalAlerts
            && (r.1.totalDecisions == d.totalDecisions + 1 <==>
                  parsed.Some? && Deduplicate(keys, DedupKey(Fingerprint(parsed.value, sha1)), now, fault).1)
            && (r.1.totalDecisions == d.totalDecisions || r.1.totalDecisions == d.totalDecisions + 1)
  {
  }

  /** The blocked list only grows, by at most the action's "ip", and stays
      free of duplicates. */
  lemma HandleKeepsBlockedDistinct(keys: Store, d: Data, parsed: Option<Value>, now: real, fault: RedisFault,
                                   sha1: string -> string)
    requires NoDuplicates(d.blockedIps)
    ensures var r := HandleStep(keys, d, parsed, now, fault, sha1);
            && NoDuplicates(r.1.blockedIps)
            && (forall x :: x in r.1.blockedIps ==> x in d.blockedIps || (parsed.Some? && Some(x) == BlockTarget(parsed.value)))
  {
    if parsed.Some? {
      match BlockTarget(parsed.value)
      case None =>
      case Some(ip) => BlockedStaysDistinct(WithDecisionCounted(d), ip);
    }
  }

  // ---------------------------------------------------------------------
  // The running orchestrator
  // ---------------------------------------------------------------------

  /** What `main` does with one message. */
  datatype Routed = SentToLearner(context: Value) | Nothing | Stopped

  /** The module-level `state` and the part of Redis the orchestrator
      writes. */
  class Router {
    const state: State
    var keys: Store

    predicate Valid()
      reads this, state
    {
      state.Valid()
    }

    constructor ()
      ensures fresh(state) && state.data == Initial && keys == map[]
      ensures Valid()
    {
      state := new State();
      keys := map[];
    }

    /** `process_alert(raw)`. */
    method ProcessAlert(parsed: Option<Value>) returns (out: AlertOutcome)
      requires Valid()
      modifies state
      ensures out == ProcessAlertOutcome(parsed)
      ensures state.data == AlertCounted(old(state.data), parsed)
      ensures Valid()
    {
      if parsed.None? {
        return Invalid;
      }
      var alert := parsed.value;
      if !alert.Obj? || !HasKey(alert.members, "id") {
        return Crashed;
      }
      state.IncreaseAlertCount();
      out := Built(ContextOf(alert.members));
    }

    /** `handle_action(raw)`. */
    method HandleAction(parsed: Option<Value>, now: real, fault: RedisFault, sha1: string -> string)
      requires Valid()
      modifies this, state
      ensures (keys, state.data) == HandleStep(old(keys), old(state.data), parsed, now, fault, sha1)
      ensures Valid()
    {
      if parsed.None? {
        return;
      }
      var action := parsed.value;
      var key := DedupKey(Fingerprint(action, sha1));
      if !fault.SetFails? {
        var (written, isNew) := SetIfAbsent(keys, key, now);
        if !isNew {
          return;
        }
        keys := written;
        if fault.Healthy? {
          keys := Expire(keys, key, now, DedupTtl);
        }
      }
      state.IncreaseDecisionCount();
      if action.Obj? && Lookup(action.members, "name") == Some(Str("block_ip")) {
        var params := Lookup(action.members, "params");
        if params.Some? && params.value.Obj? {
          var ip := Lookup(params.value.members, "ip");
          if ip.Some? {
            state.AddBlockedIp(ip.value);
          }
        }
      }
    }

    /** One iteration of `main`'s loop: "alerts" messages go through
        `process_alert` and the context is sent to the learner, "actions"
        messages through `handle_action`. */
    method OnMessage(channel: string, parsed: Option<Value>, now: real, fault: RedisFault,
                     sha1: string -> string) returns (r: Routed)
      requires Valid()
      modifies this, state
      ensures channel == "alerts" ==>
                && keys == old(keys)
                && state.data == AlertCounted(old(state.data), parsed)
                && r == match ProcessAlertOutcome(parsed)
                        case Invalid => Nothing
                        case Crashed => Stopped
                        case Built(c) => SentToLearner(c)
      ensures channel == "actions" ==>
                && r == Nothing
                && (keys, state.data) == HandleStep(old(keys), old(state.data), parsed, now, fault, sha1)
      ensures channel != "alerts" && channel != "actions" ==>
                r == Nothing && keys == old(keys) && state.data == old(state.data)
      ensures Valid()
    {
      r := Nothing;
      if channel == "alerts" {
        var out := ProcessAlert(parsed);
        match out
        case Invalid =>
        case Crashed => r := Stopped;
        case Built(c) =>
          ContextAlwaysSent(parsed);
          if Truthy(c) {
            r := SentToLearner(c);
          }
      } else if channel == "actions" {
        HandleAction(parsed, now, fault, sha1);
      }
    }
  }
}
