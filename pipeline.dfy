/** How the services fit together on the message bus: log lines from the
    tailer reach the detectors, detector alerts reach the orchestrator, the
    orchestrator's context reaches the decision makers, and actions reach
    the orchestrator and the responder. Each lemma follows one message
    across two or more services. */
module Pipeline {
  import opened Wrappers
  import opened Json
  import Text
  import LogAdapter
  import WebAttackDetector
  import BruteforceDetector
  import SshBruteforceDetector
  import PortscanDetector
  import Orchestrator
  import Learner
  import LlmLearner
  import Responder
  import Dashboard

  /** The orchestrator and the responder deduplicate in separate parts of
      the key space: no key of one is a key of the other. */
  lemma DedupKeysDisjoint(x: string, y: string)
    ensures Orchestrator.DedupKey(x) != Responder.DedupKey(y)
  {
    assert Orchestrator.DedupKey(x)[0] == 'o';
    assert Responder.DedupKey(y)[0] == 'r';
  }

  /** A line published by the tailer reaches both "raw_logs" detectors as
      that same line, without its line break. */
  lemma TailedLineReachesDetectors(source: string, line: string, timestamp: string, path: string)
    ensures var payload := LogAdapter.Payload(source, line, timestamp, path);
            && WebAttackDetector.LineOf(Some(payload)) == Line(line)
            && BruteforceDetector.LineOf(Some(payload)) == Line(line)
  {
  }

  /** The alerts of the SSH brute-force and port-scan detectors carry no
      "id", so the orchestrator's `alert["id"]` raises on them. */
  lemma IdlessAlertsStopOrchestrator(ssh: SshBruteforceDetector.Alert, scan: PortscanDetector.Alert, timestamp: string)
    ensures Orchestrator.ProcessAlertOutcome(Some(SshBruteforceDetector.AlertMessage(ssh, timestamp))) == Orchestrator.Crashed
    ensures Orchestrator.ProcessAlertOutcome(Some(PortscanDetector.AlertMessage(scan, timestamp))) == Orchestrator.Crashed
  {
  }

  /** As written, the rule engine never sees the orchestrator's context:
      `main` looks it up under a "context" key that the seven-key context
      lacks, so it decides on `{}`, which is "monitor", and it publishes on
      "commands", which neither the orchestrator nor the responder reads. */
  lemma RuleEngineSeesEmptyContext(alert: Members)
    requires HasKey(alert, "id")
    ensures Learner.HandleRequest(Some(Orchestrator.ContextOf(alert))) == Learner.Published(Learner.Monitor)
    ensures Learner.DecisionChannel != "alerts" && Learner.DecisionChannel != "actions"
  {
    Orchestrator.ContextKeys(alert);
    assert "context" !in Orchestrator.ContextFields;
  }

  /** The decision `decide_action` would take were it given the context the
      orchestrator builds from an alert. As written it is not (see
      RuleEngineSeesEmptyContext); the lemmas below state what the rule
      engine would do with that context. */
  function DecisionFor(alert: Members): Option<Value>
    requires HasKey(alert, "id")
  {
    Learner.DecideAction(Orchestrator.ContextOf(alert))
  }

  /** The context carries the alert's "type" (or "unknown"); given it, the
      rule engine would monitor a type other than "bruteforce" and
      "anomaly". */
  lemma OtherAlertTypesMonitored(alert: Members)
    requires HasKey(alert, "id")
    requires LookupOr(alert, "type", Str("unknown")) != Str("bruteforce")
    requires LookupOr(alert, "type", Str("unknown")) != Str("anomaly")
    ensures DecisionFor(alert) == Some(Learner.Monitor)
  {
    Orchestrator.ContextValues(alert);
    Learner.OtherTypesMonitored(Orchestrator.ContextOf(alert).members);
  }

  /** The brute-force and web detectors' alerts are typed
      "bruteforce.alert" and "web.attack.alert", which the rule engine
      does not recognise: even given their context, it would monitor them
      whatever their severity, so they could never lead to a block. */
  lemma DetectorAlertsOnlyMonitored(brute: BruteforceDetector.Alert, millis: int, web: WebAttackDetector.Alert,
                                    stamp: string, timestamp: string)
    ensures var m := BruteforceDetector.AlertMessage(brute, millis, timestamp).members;
            HasKey(m, "id") && DecisionFor(m) == Some(Learner.Monitor)
    ensures var m := WebAttackDetector.AlertMessage(web, stamp, timestamp).members;
            HasKey(m, "id") && DecisionFor(m) == Some(Learner.Monitor)
  {
    var m1 := BruteforceDetector.AlertMessage(brute, millis, timestamp).members;
    LookupFinds(m1, "id");
    OtherAlertTypesMonitored(m1);
    var m2 := WebAttackDetector.AlertMessage(web, stamp, timestamp).members;
    LookupFinds(m2, "id");
    OtherAlertTypesMonitored(m2);
  }

  /** The context has no "features", so an anomaly alert routed through
      the orchestrator would be seen with a rate of 0 and monitored even
      were the rule engine given that context. */
  lemma AnomalyAlertsMonitored(alert: Members)
    requires HasKey(alert, "id")
    requires LookupOr(alert, "type", Str("unknown")) == Str("anomaly")
    ensures DecisionFor(alert) == Some(Learner.Monitor)
  {
    var ctx := Orchestrator.ContextOf(alert);
    Orchestrator.ContextKeys(alert);
    Orchestrator.ContextValues(alert);
    assert "features" !in Orchestrator.ContextFields;
    LookupFinds(ctx.members, "features");
    Learner.AnomalyDecision(ctx.members, []);
  }

  /** Were `decide_action` given the orchestrator's context and its action
      delivered on "actions", a "bruteforce" alert of severity "high" would
      be decided as a block of its "ip"; the orchestrator would record
      exactly that address and, when it is truthy, the responder would
      issue the iptables command for it. As written the rule engine
      monitors it instead (RuleEngineSeesEmptyContext). */
  lemma HighBruteforceBlocked(alert: Members)
    requires HasKey(alert, "id")
    requires LookupOr(alert, "type", Str("unknown")) == Str("bruteforce")
    requires LookupOr(alert, "severity", Str("low")) == Str("high")
    ensures Learner.HandleRequest(Some(Orchestrator.ContextOf(alert))) == Learner.Published(Learner.Monitor)
    ensures var ip := LookupOr(alert, "ip", Null);
            && DecisionFor(alert).Some?
            && Orchestrator.BlockTarget(DecisionFor(alert).value) == Some(ip)
            && (Truthy(ip) ==> Responder.Respond(DecisionFor(alert).value) == Responder.Block(Responder.BlockCommand(ip)))
            && (!Truthy(ip) ==> Responder.Respond(DecisionFor(alert).value) == Responder.MissingIp)
  {
    var ctx := Orchestrator.ContextOf(alert);
    Orchestrator.ContextValues(alert);
    Learner.BruteforceDecision(ctx.members);
    var ip := LookupOr(alert, "ip", Null);
    var action := Learner.Action("block_ip", [("ip", ip)]);
    LookupFirst(action.members, "name", 0);
    LookupFirst(action.members, "params", 1);
    LookupFirst([("ip", ip)], "ip", 0);
    RuleEngineSeesEmptyContext(alert);
  }

  /** The action the dashboard's block endpoint builds would, were it
      published, be recorded by the orchestrator and turned by the
      responder into the iptables command, both for the address in the
      request. As written the endpoint publishes nothing
      (`EnqueueActions` is false). */
  lemma DashboardBlockReachesResponder(body: Option<Value>, ts: string)
    requires Dashboard.BlockIp(body, ts).Accepted?
    ensures var ip := LookupOr(body.value.members, "ip", Null);
            var action := Dashboard.BlockIp(body, ts).action;
            && !Dashboard.EnqueueActions
            && Orchestrator.BlockTarget(action) == Some(ip)
            && Responder.Respond(action) == Responder.Block(Responder.BlockCommand(ip))
  {
    var ip := LookupOr(body.value.members, "ip", Null);
    var reason := LookupOr(body.value.members, "reason", Str("blocked via dashboard"));
    LookupFirst([("ip", ip), ("reason", reason)], "ip", 0);
  }

  /** The two consumers of "actions" agree on blocks: an action the
      orchestrator records as a block of a truthy address is one the
      responder turns into the iptables command for that same address,
      whoever published it. */
  lemma BlockConsumersAgree(action: Value, ip: Value)
    requires Orchestrator.BlockTarget(action) == Some(ip) && Truthy(ip)
    ensures Responder.Respond(action) == Responder.Block(Responder.BlockCommand(ip))
  {
    var ps := Lookup(action.members, "params").value.members;
    LookupFinds(action.members, "params");
    LookupFinds(ps, "ip");
  }

  /** The language-model learner publishes the reply as it parses, with
      no check: a reply that names block_ip with a truthy address, whatever
      the context, is published, recorded by the orchestrator and issued
      by the responder as the block of that address. */
  lemma LlmReplyReachesResponder(context: Value, raw: string, parse: string -> Option<Value>, ip: Value)
    requires var v := parse(LlmLearner.CleanJson(Text.Strip(raw)));
             v.Some? && Orchestrator.BlockTarget(v.value) == Some(ip) && Truthy(ip)
    ensures var published := LlmLearner.OnDecisionRequest(Some(context), Some(raw), parse);
            && published == parse(LlmLearner.CleanJson(Text.Strip(raw)))
            && Orchestrator.BlockTarget(published.value) == Some(ip)
            && Responder.Respond(published.value) == Responder.Block(Responder.BlockCommand(ip))
  {
    var v := parse(LlmLearner.CleanJson(Text.Strip(raw)));
    assert LlmLearner.AskDecision(Some(raw), parse) == v;
    assert v.value.Obj?;
    assert LlmLearner.FinalAction(v) == v.value;
    BlockConsumersAgree(v.value, ip);
  }

  /** The language-model learner's fallback, `{"name": "monitor"}`, makes
      no change in the orchestrator and issues no command. */
  lemma FallbackIsHarmless()
    ensures Orchestrator.BlockTarget(LlmLearner.MonitorFallback).None?
    ensures Responder.Respond(LlmLearner.MonitorFallback) == Responder.Unknown
  {
    LookupFirst(LlmLearner.MonitorFallback.members, "name", 0);
  }
}
