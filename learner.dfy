/** The rule-based decision engine (learner/learner.py): a context dict
    becomes one action dict. */
module Learner {
  import opened Wrappers
  import opened Json

  /** The only action names the engine produces. */
  const ActionNames: seq<string> := ["block_ip", "alert_admin", "monitor", "rate_limit"]

  /** `{"name": name, "params": params}`. */
  function Action(name: string, params: Members): Value {
    Obj([("name", Str(name)), ("params", Obj(params))])
  }

  const Monitor: Value := Action("monitor", [])

  /** `rate > 100` for a decoded value: `True` and `False` compare as 1
      and 0; None, strings, lists and dicts raise TypeError (None here). */
  function RateAbove(rate: Value): Option<bool> {
    match rate
    case Int(i) => Some(i > 100)
    case Bool(_) => Some(false)
    case _ => None
  }

  /** `decide_action(ctx)`; None when it raises (`ctx` or "features" not a
      dict, or a "rate" that cannot be compared with 100). */
  function DecideAction(ctx: Value): (r: Option<Value>)
  {
    if !ctx.Obj? then None
    else
      var ms := ctx.members;
      var alertType := LookupOr(ms, "type", Null);
      if alertType == Str("bruteforce") then
        var severity := LookupOr(ms, "severity", Null);
        var ip := LookupOr(ms, "ip", Null);
        if severity == Str("high") then Some(Action("block_ip", [("ip", ip)]))
        else if severity == Str("medium") then
          Some(Action("alert_admin", [("message", Str("Suspicious activity from " + Display(ip)))]))
        else Some(Monitor)
      else if alertType == Str("anomaly") then
        var features := LookupOr(ms, "features", Obj([]));
        if !features.Obj? then None
        else
          var rate := LookupOr(features.members, "rate", Int(0));
          match RateAbove(rate)
          case None => None
          case Some(above) => Some(if above then Action("rate_limit", [("value", rate)]) else Monitor)
      else Some(Monitor)
  }

  /** Every decision is a two-key dict whose "name" is one of the four
      action names; it raises only for an anomaly. */
  lemma DecisionNamesClosed(ctx: Value)
    ensures DecideAction(ctx).Some? ==>
              exists k, ps :: 0 <= k < |ActionNames| && DecideAction(ctx).value == Action(ActionNames[k], ps)
    ensures DecideAction(ctx).None? ==> !ctx.Obj? || LookupOr(ctx.members, "type", Null) == Str("anomaly")
  {
    match DecideAction(ctx)
    case None =>
    case Some(v) =>
      var n := v.members[0].1.s;
      var ps := v.members[1].1.members;
      assert v == Action(n, ps);
      if n == "block_ip" { assert n == ActionNames[0]; }
      else if n == "alert_admin" { assert n == ActionNames[1]; }
      else if n == "monitor" { assert n == ActionNames[2]; }
      else { assert n == ActionNames[3]; }
  }

  /** A brute-force context: "high" blocks exactly the context's "ip"
      (None when absent), "medium" alerts the admin about it, anything
      else monitors. */
  lemma BruteforceDecision(ms: Members)
    requires LookupOr(ms, "type", Null) == Str("bruteforce")
    ensures var ip := LookupOr(ms, "ip", Null);
            var severity := LookupOr(ms, "severity", Null);
            && (severity == Str("high") ==> DecideAction(Obj(ms)) == Some(Action("block_ip", [("ip", ip)])))
            && (severity == Str("medium") ==>
                  DecideAction(Obj(ms)) == Some(Action("alert_admin", [("message", Str("Suspicious activity from " + Display(ip)))])))
            && (severity != Str("high") && severity != Str("medium") ==> DecideAction(Obj(ms)) == Some(Monitor))
  {
  }

  /** An anomaly context with an integer rate (0 when absent) is rate
      limited above 100 and monitored otherwise. */
  lemma AnomalyDecision(ms: Members, features: Members)
    requires LookupOr(ms, "type", Null) == Str("anomaly")
    requires LookupOr(ms, "features", Obj([])) == Obj(features)
    requires LookupOr(features, "rate", Int(0)).Int?
    ensures var rate := LookupOr(features, "rate", Int(0));
            DecideAction(Obj(ms)) == Some(if rate.i > 100 then Action("rate_limit", [("value", rate)]) else Monitor)
  {
  }

  /** Any other type, absent included, is monitored. */
  lemma OtherTypesMonitored(ms: Members)
    requires LookupOr(ms, "type", Null) != Str("bruteforce") && LookupOr(ms, "type", Null) != Str("anomaly")
    ensures DecideAction(Obj(ms)) == Some(Monitor)
  {
  }

  /** `main` reads "decision_requests" and publishes on "commands". */
  const RequestChannel: string := "decision_requests"
  const DecisionChannel: string := "commands"

  /** What one "decision_requests" message leads to in `main`. */
  datatype Handled =
    | Skipped                  // not JSON
    | Published(action: Value) // `json.dumps(action)` sent on DecisionChannel
    | Stopped                  // `data.get` on a non-dict, or `decide_action` raised

  /** One pass of `main`'s loop, given what `json.loads` returned (None
      when it raised): the decision is taken on the message's "context"
      member, `{}` when it has none. */
  function HandleRequest(parsed: Option<Value>): (r: Handled)
    ensures r.Skipped? <==> parsed.None?
    ensures parsed.Some? && !parsed.value.Obj? ==> r == Stopped
    ensures parsed.Some? && parsed.value.Obj? && !HasKey(parsed.value.members, "context") ==> r == Published(Monitor)
    ensures r.Published? ==> exists ctx :: DecideAction(ctx) == Some(r.action)
  {
    match parsed
    case None => Skipped
    case Some(data) =>
      if !data.Obj? then Stopped
      else
        LookupFinds(data.members, "context");
        var ctx := LookupOr(data.members, "context", Obj([]));
        match DecideAction(ctx)
        case None => Stopped
        case Some(action) => Published(action)
  }
}
